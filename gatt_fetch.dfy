/**
 * The GATT metadata fetch for one device: connect, discover services, read the
 * relevant characteristics one at a time, fold each value into the device's
 * metadata, then disconnect and emit the metadata. The first emission is the
 * result; a changed result is written back to the store.
 *
 * The radio is a log of the calls made on it; the connection's events are an
 * input list.
 */
module GattFetch {
  import opened Wrappers
  import Metadata
  import Devices
  import DeviceStore

  type Gatt = int

  datatype GattCharacteristic = GattCharacteristic(uuid: string)

  datatype GattService = GattService(uuid: string, characteristics: seq<GattCharacteristic>)

  /** The events of one connection. */
  datatype DeviceConnectResult =
    | AvailableServices(gatt: Gatt, services: seq<GattService>)
    | CharacteristicRead(gatt: Gatt, characteristic: GattCharacteristic, valueEncoded64: string)
    | DescriptorRead(descriptorUuid: string, valueEncoded64: string)
    | Connecting
    | Connected(gatt: Gatt)
    | Disconnecting
    | Disconnected
    | DisconnectedWithError(errorCode: int)
    | FailedReadCharacteristic(gatt: Gatt, characteristic: GattCharacteristic)
    | MaxGattConnectionsReached

  /** The calls the fetch makes on the radio. */
  datatype RadioCall =
    | ConnectToDevice(address: string)
    | DiscoverServices(gatt: Gatt)
    | ReadCharacteristic(gatt: Gatt, uuid: string)
    | Disconnect(gatt: Gatt)
    | Close(gatt: Gatt)
    | CloseDeviceConnection(address: string)

  /** Collecting events, metadata emitted (the fetch is over), or "max connections" thrown. */
  datatype SessionState = Collecting | Emitted(metadata: Metadata.DeviceMetadata) | Failed

  /** The decoders the fetch relies on. */
  datatype Codec = Codec(
    extract16BitUuid: string -> Option<string>,
    fromBase64: string -> seq<bv8>,
    decodeToString: seq<bv8> -> string)

  // ---------------------------------------------------------------------------
  // Relevant characteristics
  // ---------------------------------------------------------------------------

  predicate IsRelevantCharacteristic(c: GattCharacteristic, codec: Codec)
  {
    Metadata.FindCharacteristicByUuid(c.uuid, codec.extract16BitUuid).Some?
  }

  predicate IsRelevantService(s: GattService, codec: Codec)
  {
    Metadata.FindServiceByUuid(s.uuid, codec.extract16BitUuid).Some?
  }

  /** `filterRelevantCharacteristics`. */
  function FilterRelevantCharacteristics(cs: seq<GattCharacteristic>, codec: Codec): (r: seq<GattCharacteristic>)
    ensures forall c :: c in r <==> c in cs && IsRelevantCharacteristic(c, codec)
  {
    if cs == [] then []
    else
      var rest := FilterRelevantCharacteristics(cs[1..], codec);
      assert forall c :: c in cs <==> c == cs[0] || c in cs[1..];
      if IsRelevantCharacteristic(cs[0], codec) then [cs[0]] + rest else rest
  }

  /** `findRelevantCharacteristics`: recognised characteristics of recognised services, in order. */
  function FindRelevantCharacteristics(services: seq<GattService>, codec: Codec): (r: seq<GattCharacteristic>)
    ensures forall c :: c in r <==>
      IsRelevantCharacteristic(c, codec)
      && exists s :: s in services && IsRelevantService(s, codec) && c in s.characteristics
  {
    if services == [] then []
    else
      var s := services[0];
      var rest := FindRelevantCharacteristics(services[1..], codec);
      assert forall x :: x in services <==> x == s || x in services[1..];
      (if IsRelevantService(s, codec) then FilterRelevantCharacteristics(s.characteristics, codec) else []) + rest
  }

  /** `associateBy { it.uuid }` into an empty LinkedHashMap: each uuid once, at its first occurrence. */
  function DistinctByUuid(cs: seq<GattCharacteristic>): (r: seq<GattCharacteristic>)
    ensures forall c :: c in r <==> c in cs
    ensures UuidsDistinct(r)
    ensures cs != [] ==> r != [] && r[0] == cs[0]
  {
    if cs == [] then []
    else
      var rest := DistinctByUuid(cs[..|cs| - 1]);
      assert forall c :: c in cs <==> c in cs[..|cs| - 1] || c == cs[|cs| - 1];
      if cs[|cs| - 1] in rest then rest else rest + [cs[|cs| - 1]]
  }

  predicate UuidsDistinct(cs: seq<GattCharacteristic>)
  {
    forall i, j :: 0 <= i < j < |cs| ==> cs[i].uuid != cs[j].uuid
  }

  /** `pendingCharacteristics.remove(uuid)`. */
  function RemoveUuid(cs: seq<GattCharacteristic>, uuid: string): (r: seq<GattCharacteristic>)
    ensures forall c :: c in r <==> c in cs && c.uuid != uuid
    ensures |r| <= |cs|
    ensures UuidsDistinct(cs) ==> UuidsDistinct(r)
  {
    if cs == [] then []
    else
      var rest := RemoveUuid(cs[1..], uuid);
      assert forall c :: c in cs <==> c == cs[0] || c in cs[1..];
      if cs[0].uuid == uuid then rest else [cs[0]] + rest
  }

  // ---------------------------------------------------------------------------
  // Folding one characteristic value into the metadata
  // ---------------------------------------------------------------------------

  /** Kotlin's `Byte.toInt()`: the byte read as a signed two's-complement value. */
  function SignedByte(b: bv8): (v: int)
    ensures -128 <= v < 128
    ensures (v + 256) % 256 == b as int
  {
    if b as int < 128 then b as int else b as int - 256
  }

  /** `value.getOrNull(0)?.toInt()`: the first byte, or null for an empty value. */
  function BatteryLevel(value: seq<bv8>): (r: Option<int>)
    ensures r.None? <==> |value| == 0
    ensures r.Some? ==> r.value == SignedByte(value[0])
  {
    if |value| == 0 then None else Some(SignedByte(value[0]))
  }

  /** The metadata after reading `value` from a characteristic of type `t`. */
  function ApplyRead(m: Metadata.DeviceMetadata, t: Option<Metadata.CharacteristicType>, value: seq<bv8>, codec: Codec)
    : (r: Metadata.DeviceMetadata)
    ensures t.None? ==> r == m
    ensures t == Some(Metadata.BATTERY_LEVEL) ==> r == m.(batteryLevel := BatteryLevel(value))
    ensures t.Some? && t.value != Metadata.BATTERY_LEVEL ==>
      && Field(r, t.value) == Some(codec.decodeToString(value))
      && r.batteryLevel == m.batteryLevel
      && forall u :: u != t.value ==> Field(r, u) == Field(m, u)
  {
    match t
    case Some(DEVICE_NAME) => m.(deviceName := Some(codec.decodeToString(value)))
    case Some(MANUFACTURER_NAME) => m.(manufacturerName := Some(codec.decodeToString(value)))
    case Some(MODEL_NUMBER) => m.(modelNumber := Some(codec.decodeToString(value)))
    case Some(SERIAL_NUMBER) => m.(serialNumber := Some(codec.decodeToString(value)))
    case Some(BATTERY_LEVEL) => m.(batteryLevel := BatteryLevel(value))
    case None => m
  }

  /** The metadata field a characteristic type fills. */
  function Field(m: Metadata.DeviceMetadata, t: Metadata.CharacteristicType): Option<string>
  {
    match t
    case DEVICE_NAME => m.deviceName
    case MANUFACTURER_NAME => m.manufacturerName
    case MODEL_NUMBER => m.modelNumber
    case SERIAL_NUMBER => m.serialNumber
    case BATTERY_LEVEL => None
  }

  // ---------------------------------------------------------------------------
  // The event loop as a state transition
  // ---------------------------------------------------------------------------

  datatype Session = Session(
    pending: seq<GattCharacteristic>,
    metadata: Metadata.DeviceMetadata,
    gatt: Option<Gatt>,
    forceCloseScheduled: bool,
    calls: seq<RadioCall>,
    state: SessionState)

  /** Before the first event: metadata from the device (or empty), and the connect call made. */
  function InitialSession(device: Devices.DeviceData): (s: Session)
    ensures s.metadata == device.metadata.GetOr(Metadata.EmptyMetadata)
    ensures s.pending == [] && s.state.Collecting? && s.calls == [ConnectToDevice(device.address)]
  {
    Session([], device.metadata.GetOr(Metadata.EmptyMetadata), None, false, [ConnectToDevice(device.address)], Collecting)
  }

  /** `disconnect()`: ask the radio to disconnect and schedule the forced close. */
  function RequestDisconnect(s: Session): Session
  {
    s.(calls := s.calls + (if s.gatt.Some? then [Disconnect(s.gatt.value)] else []), forceCloseScheduled := true)
  }

  /** `submitMetadata()`: close the connection, cancel the forced close, emit the metadata. */
  function SubmitMetadata(s: Session): Session
  {
    s.(calls := s.calls + (if s.gatt.Some? then [Close(s.gatt.value)] else []),
       forceCloseScheduled := false,
       state := Emitted(s.metadata))
  }

  /** After a read or a failed read: disconnect when nothing is pending, else request the next one. */
  function AfterRead(s: Session, g: Gatt): (r: Session)
    ensures r.pending == s.pending && r.metadata == s.metadata && r.state == s.state && r.gatt == s.gatt
    ensures s.pending == [] ==> r == RequestDisconnect(s)
    ensures s.pending != [] ==> r.calls == s.calls + [ReadCharacteristic(g, s.pending[0].uuid)]
                                && r.forceCloseScheduled == s.forceCloseScheduled
  {
    if s.pending == [] then RequestDisconnect(s)
    else s.(calls := s.calls + [ReadCharacteristic(g, s.pending[0].uuid)])
  }

  /** One event of the `collect` loop; nothing happens once the fetch is over. */
  function Step(s: Session, e: DeviceConnectResult, address: string, codec: Codec): (r: Session)
    ensures !s.state.Collecting? ==> r == s
    ensures |s.calls| <= |r.calls| && r.calls[..|s.calls|] == s.calls
    ensures r.metadata != s.metadata ==> e.CharacteristicRead?
    ensures r.state != s.state ==> e.Disconnected? || e.DisconnectedWithError? || e.MaxGattConnectionsReached?
  {
    if !s.state.Collecting? then s
    else
      match e
      case Connected(g) =>
        s.(gatt := Some(g), calls := s.calls + [DiscoverServices(g)])
      case AvailableServices(g, services) =>
        if s.pending == [] then
          var relevant := FindRelevantCharacteristics(services, codec);
          if relevant != [] then
            s.(pending := DistinctByUuid(relevant), calls := s.calls + [ReadCharacteristic(g, relevant[0].uuid)])
          else RequestDisconnect(s)
        else RequestDisconnect(s)
      case CharacteristicRead(g, c, v) =>
        var t := Metadata.FindCharacteristicByUuid(c.uuid, codec.extract16BitUuid);
        var s' := s.(metadata := ApplyRead(s.metadata, t, codec.fromBase64(v), codec),
                     pending := RemoveUuid(s.pending, c.uuid));
        AfterRead(s', g)
      case FailedReadCharacteristic(g, c) =>
        AfterRead(s.(pending := RemoveUuid(s.pending, c.uuid)), g)
      case Disconnected => SubmitMetadata(s)
      case DisconnectedWithError(_) => SubmitMetadata(s)
      case MaxGattConnectionsReached =>
        s.(calls := s.calls + [CloseDeviceConnection(address)], state := Failed)
      case _ => s
  }

  /** The events in order, until the fetch is over. */
  function Run(s: Session, events: seq<DeviceConnectResult>, address: string, codec: Codec): (r: Session)
    ensures !s.state.Collecting? ==> r == s
    ensures |s.calls| <= |r.calls| && r.calls[..|s.calls|] == s.calls
  {
    if events == [] then s else Step(Run(s, events[..|events| - 1], address, codec), events[|events| - 1], address, codec)
  }

  /**
   * What the session keeps true: pending characteristics are distinct and
   * recognised, and every read requested on the radio is of a recognised
   * characteristic.
   */
  ghost predicate SessionValid(s: Session, codec: Codec)
  {
    && UuidsDistinct(s.pending)
    && (forall c :: c in s.pending ==> IsRelevantCharacteristic(c, codec))
    && (forall call :: call in s.calls && call.ReadCharacteristic? ==>
          IsRelevantCharacteristic(GattCharacteristic(call.uuid), codec))
  }

  lemma StepKeepsValid(s: Session, e: DeviceConnectResult, address: string, codec: Codec)
    requires SessionValid(s, codec)
    ensures SessionValid(Step(s, e, address, codec), codec)
  {
    if !s.state.Collecting? {
    } else if e.AvailableServices? {
      ServicesKeepValid(s, e, address, codec);
    } else if e.CharacteristicRead? || e.FailedReadCharacteristic? {
      ReadKeepsValid(s, e, address, codec);
    }
  }

  lemma ServicesKeepValid(s: Session, e: DeviceConnectResult, address: string, codec: Codec)
    requires SessionValid(s, codec) && s.state.Collecting? && e.AvailableServices?
    ensures SessionValid(Step(s, e, address, codec), codec)
  {
    if s.pending == [] {
      var relevant := FindRelevantCharacteristics(e.services, codec);
      if relevant != [] {
        assert relevant[0] in relevant;
        assert GattCharacteristic(relevant[0].uuid) == relevant[0];
      }
    }
  }

  lemma ReadKeepsValid(s: Session, e: DeviceConnectResult, address: string, codec: Codec)
    requires SessionValid(s, codec) && s.state.Collecting?
    requires e.CharacteristicRead? || e.FailedReadCharacteristic?
    ensures SessionValid(Step(s, e, address, codec), codec)
  {
    var rest := RemoveUuid(s.pending, e.characteristic.uuid);
    if rest != [] {
      assert rest[0] in rest;
      assert GattCharacteristic(rest[0].uuid) == rest[0];
    }
  }

  lemma {:induction false} RunKeepsValid(s: Session, events: seq<DeviceConnectResult>, address: string, codec: Codec)
    requires SessionValid(s, codec)
    ensures SessionValid(Run(s, events, address, codec), codec)
    decreases |events|
  {
    if events != [] {
      RunKeepsValid(s, events[..|events| - 1], address, codec);
      StepKeepsValid(Run(s, events[..|events| - 1], address, codec), events[|events| - 1], address, codec);
    }
  }

  /** The fetch only ever asks the radio for recognised characteristics. */
  lemma OnlyRelevantReads(device: Devices.DeviceData, events: seq<DeviceConnectResult>, codec: Codec)
    ensures forall call :: (call in Run(InitialSession(device), events, device.address, codec).calls
                            && call.ReadCharacteristic?) ==> IsRelevantCharacteristic(GattCharacteristic(call.uuid), codec)
  {
    RunKeepsValid(InitialSession(device), events, device.address, codec);
  }

  /** A failed read never changes the metadata; it only drops the characteristic from pending. */
  lemma FailedReadKeepsMetadata(s: Session, g: Gatt, c: GattCharacteristic, address: string, codec: Codec)
    requires s.state.Collecting?
    ensures var r := Step(s, FailedReadCharacteristic(g, c), address, codec);
      && r.metadata == s.metadata
      && r.pending == RemoveUuid(s.pending, c.uuid)
      && (r.pending == [] ==> r.forceCloseScheduled)
      && (r.pending != [] ==> r.calls == s.calls + [ReadCharacteristic(g, r.pending[0].uuid)])
  {
  }

  lemma {:induction false} RemoveAbsentUuid(cs: seq<GattCharacteristic>, uuid: string)
    requires forall i :: 0 <= i < |cs| ==> cs[i].uuid != uuid
    ensures RemoveUuid(cs, uuid) == cs
    decreases |cs|
  {
    if cs != [] {
      RemoveAbsentUuid(cs[1..], uuid);
    }
  }

  /**
   * A characteristic value read folds into the metadata and drops that
   * characteristic from pending; the session then requests the next pending
   * characteristic or, with nothing left, disconnects. Reading the first
   * pending characteristic leaves the rest pending, in order.
   */
  lemma ReadRemovesPending(s: Session, g: Gatt, c: GattCharacteristic, v: string, address: string, codec: Codec)
    requires s.state.Collecting?
    ensures var r := Step(s, CharacteristicRead(g, c, v), address, codec);
      && r.metadata == ApplyRead(s.metadata, Metadata.FindCharacteristicByUuid(c.uuid, codec.extract16BitUuid),
                                 codec.fromBase64(v), codec)
      && r.pending == RemoveUuid(s.pending, c.uuid)
      && r.state.Collecting?
      && (r.pending == [] ==>
            r.forceCloseScheduled && r.calls == s.calls + (if s.gatt.Some? then [Disconnect(s.gatt.value)] else []))
      && (r.pending != [] ==> r.calls == s.calls + [ReadCharacteristic(g, r.pending[0].uuid)])
      && (s.pending != [] && c == s.pending[0] && UuidsDistinct(s.pending) ==> r.pending == s.pending[1..])
  {
    if s.pending != [] && c == s.pending[0] && UuidsDistinct(s.pending) {
      RemoveAbsentUuid(s.pending[1..], c.uuid);
    }
  }

  /**
   * Discovered services load the pending set and request the first relevant
   * characteristic, but only when nothing is pending and something is relevant;
   * otherwise the fetch disconnects.
   */
  lemma AvailableServicesLoadsPending(s: Session, g: Gatt, services: seq<GattService>, address: string, codec: Codec)
    requires s.state.Collecting?
    ensures var r := Step(s, AvailableServices(g, services), address, codec);
      var relevant := FindRelevantCharacteristics(services, codec);
      if s.pending == [] && relevant != [] then
        && (forall c :: c in r.pending <==> c in relevant)
        && r.calls == s.calls + [ReadCharacteristic(g, relevant[0].uuid)]
        && r.pending[0] == relevant[0]
      else
        r.pending == s.pending && r.forceCloseScheduled && r.metadata == s.metadata
  {
  }

  /** Both disconnect events emit the current metadata, and "max connections" fails without emitting. */
  lemma EndingEvents(s: Session, e: DeviceConnectResult, address: string, codec: Codec)
    requires s.state.Collecting?
    ensures (e.Disconnected? || e.DisconnectedWithError?) ==>
      Step(s, e, address, codec).state == Emitted(s.metadata)
    ensures e.MaxGattConnectionsReached? ==>
      Step(s, e, address, codec).state == Failed
      && Step(s, e, address, codec).calls == s.calls + [CloseDeviceConnection(address)]
  {
  }

  function ReadCount(events: seq<DeviceConnectResult>): nat
  {
    if events == [] then 0
    else ReadCount(events[..|events| - 1]) + (if events[|events| - 1].CharacteristicRead? then 1 else 0)
  }

  /** Without any characteristic value read, the emitted metadata is the device's own (or empty). */
  lemma {:induction false} NoReadsNoChange(s: Session, events: seq<DeviceConnectResult>, address: string, codec: Codec)
    requires s.state.Collecting?
    requires ReadCount(events) == 0
    ensures Run(s, events, address, codec).metadata == s.metadata
    ensures Run(s, events, address, codec).state.Emitted? ==> Run(s, events, address, codec).state.metadata == s.metadata
    decreases |events|
  {
    if events != [] {
      NoReadsNoChange(s, events[..|events| - 1], address, codec);
    }
  }

  /** One more event is one more step. */
  lemma RunSnoc(s: Session, events: seq<DeviceConnectResult>, i: nat, address: string, codec: Codec)
    requires i < |events|
    ensures Run(s, events[..i + 1], address, codec) == Step(Run(s, events[..i], address, codec), events[i], address, codec)
  {
    assert events[..i + 1][..i] == events[..i];
  }

  /** Once the fetch is over, later events change nothing. */
  lemma {:induction false} RunAfterEnd(s: Session, events: seq<DeviceConnectResult>, i: nat, address: string, codec: Codec)
    requires i <= |events|
    requires !Run(s, events[..i], address, codec).state.Collecting?
    ensures Run(s, events, address, codec) == Run(s, events[..i], address, codec)
    decreases |events| - i
  {
    if i < |events| {
      assert events[..i + 1][..i] == events[..i];
      RunAfterEnd(s, events, i + 1, address, codec);
    } else {
      assert events[..i] == events;
    }
  }

  // ---------------------------------------------------------------------------
  // The fetch object and `execute`
  // ---------------------------------------------------------------------------

  /** The mutable state of one `connectAndFetchServices` flow. */
  class FetchSession {
    const address: string
    var pending: seq<GattCharacteristic>
    var metadata: Metadata.DeviceMetadata
    var gatt: Option<Gatt>
    var forceCloseScheduled: bool
    var calls: seq<RadioCall>
    var state: SessionState

    function Snapshot(): Session
      reads this
    {
      Session(pending, metadata, gatt, forceCloseScheduled, calls, state)
    }

    constructor(device: Devices.DeviceData)
      ensures address == device.address
      ensures Snapshot() == InitialSession(device)
    {
      address := device.address;
      pending := [];
      metadata := device.metadata.GetOr(Metadata.EmptyMetadata);
      gatt := None;
      forceCloseScheduled := false;
      calls := [ConnectToDevice(device.address)];
      state := Collecting;
    }

    method Disconnect()
      modifies this
      ensures Snapshot() == RequestDisconnect(old(Snapshot()))
    {
      if gatt.Some? {
        calls := calls + [RadioCall.Disconnect(gatt.value)];
      }
      forceCloseScheduled := true;
    }

    method SubmitMetadataNow()
      modifies this
      ensures Snapshot() == SubmitMetadata(old(Snapshot()))
    {
      if gatt.Some? {
        calls := calls + [Close(gatt.value)];
      }
      forceCloseScheduled := false;
      state := Emitted(metadata);
    }

    /** Request the next pending characteristic, or disconnect when none is left. */
    method ContinueAfterRead(g: Gatt)
      modifies this
      ensures Snapshot() == AfterRead(old(Snapshot()), g)
    {
      if pending == [] {
        Disconnect();
      } else {
        calls := calls + [ReadCharacteristic(g, pending[0].uuid)];
      }
    }

    /** The `collect` loop: events are handled one by one until the first emission or the throw. */
    method Drive(events: seq<DeviceConnectResult>, codec: Codec)
      modifies this
      ensures Snapshot() == Run(old(Snapshot()), events, address, codec)
    {
      ghost var s0 := Snapshot();
      var i := 0;
      while i < |events| && state.Collecting?
        invariant 0 <= i <= |events|
        invariant Snapshot() == Run(s0, events[..i], address, codec)
      {
        RunSnoc(s0, events, i, address, codec);
        HandleEvent(events[i], codec);
        i := i + 1;
      }
      if i == |events| {
        assert events[..i] == events;
      } else {
        RunAfterEnd(s0, events, i, address, codec);
      }
    }

    method HandleEvent(event: DeviceConnectResult, codec: Codec)
      requires state.Collecting?
      modifies this
      ensures Snapshot() == Step(old(Snapshot()), event, address, codec)
    {
      match event {
        case Connected(g) =>
          gatt := Some(g);
          calls := calls + [DiscoverServices(g)];
        case AvailableServices(g, services) =>
          if pending == [] {
            var relevant := FindRelevantCharacteristics(services, codec);
            if relevant != [] {
              pending := DistinctByUuid(relevant);
              calls := calls + [ReadCharacteristic(g, relevant[0].uuid)];
            } else {
              Disconnect();
            }
          } else {
            Disconnect();
          }
        case CharacteristicRead(g, c, v) =>
          var value := codec.fromBase64(v);
          metadata := ApplyRead(metadata, Metadata.FindCharacteristicByUuid(c.uuid, codec.extract16BitUuid), value, codec);
          pending := RemoveUuid(pending, c.uuid);
          ContinueAfterRead(g);
        case FailedReadCharacteristic(g, c) =>
          pending := RemoveUuid(pending, c.uuid);
          ContinueAfterRead(g);
        case Disconnected =>
          SubmitMetadataNow();
        case DisconnectedWithError(_) =>
          SubmitMetadataNow();
        case MaxGattConnectionsReached =>
          calls := calls + [CloseDeviceConnection(address)];
          state := Failed;
        case DescriptorRead(_, _) =>
        case Connecting =>
        case Disconnecting =>
      }
    }
  }

  /** How `execute` ends: it returns the first emitted metadata, throws, or is still waiting for events. */
  datatype ExecuteOutcome = Returned(metadata: Metadata.DeviceMetadata) | Threw | StillWaiting

  function OutcomeOf(s: Session): ExecuteOutcome
  {
    match s.state
    case Emitted(m) => Returned(m)
    case Failed => Threw
    case Collecting => StillWaiting
  }

  /**
   * `FetchDeviceServiceInfo.execute`: run the connection's events until the
   * first emission; save the device when the emitted metadata differs from its
   * original metadata.
   */
  method Execute(device: Devices.DeviceData, events: seq<DeviceConnectResult>, codec: Codec,
                 store: DeviceStore.DevicesRepository)
    returns (outcome: ExecuteOutcome, calls: seq<RadioCall>)
    modifies store
    ensures var final := Run(InitialSession(device), events, device.address, codec);
      outcome == OutcomeOf(final) && calls == final.calls
    ensures store.contacts == old(store.contacts)
    ensures outcome.Returned? && device.metadata != Some(outcome.metadata) ==>
      store.devices == old(store.devices)[device.address := device.(metadata := Some(outcome.metadata))]
    ensures !(outcome.Returned? && device.metadata != Some(outcome.metadata)) ==> store.devices == old(store.devices)
  {
    var session := new FetchSession(device);
    session.Drive(events, codec);
    calls := session.calls;
    match session.state {
      case Emitted(m) =>
        if device.metadata != Some(m) {
          store.SaveDevice(device.(metadata := Some(m)));
        }
        outcome := Returned(m);
      case Failed =>
        outcome := Threw;
      case Collecting =>
        outcome := StillWaiting;
    }
  }
}
