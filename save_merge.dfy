/**
 * Saving one scan batch: build a record per scan, merge it into the stored
 * record of the same address, merge the AirDrop contacts into the stored
 * contacts, write everything, and hand each record on together with the
 * times it was last seen BEFORE this batch.
 */
module BatchMerge {
  import opened Wrappers
  import Devices
  import ScanBuild
  import DeviceStore
  import FetchPlanner
  import LocationHistory

  // ---------------------------------------------------------------------------
  // AirDrop contacts
  // ---------------------------------------------------------------------------

  /** `existing?.mergeWithNewContact(contact) ?: contact`. */
  function MergeContact(stored: map<int, Devices.AppleContact>, c: Devices.AppleContact,
                        mergeWithNewContact: (Devices.AppleContact, Devices.AppleContact) -> Devices.AppleContact)
    : (r: Devices.AppleContact)
    ensures c.sha256 !in stored ==> r == c
    ensures c.sha256 in stored ==> r == mergeWithNewContact(stored[c.sha256], c)
  {
    if c.sha256 in stored then mergeWithNewContact(stored[c.sha256], c) else c
  }

  function MergedContacts(stored: map<int, Devices.AppleContact>, cs: seq<Devices.AppleContact>,
                          mergeWithNewContact: (Devices.AppleContact, Devices.AppleContact) -> Devices.AppleContact)
    : (r: seq<Devices.AppleContact>)
    ensures |r| == |cs|
    ensures forall i :: 0 <= i < |cs| ==> r[i] == MergeContact(stored, cs[i], mergeWithNewContact)
  {
    seq(|cs|, i requires 0 <= i < |cs| => MergeContact(stored, cs[i], mergeWithNewContact))
  }

  /**
   * The contact-to-previously-seen map after the contacts `cs`, in order: each
   * stored match records the stored contact's pre-merge detection time under
   * the stored contact's hash.
   */
  function ContactTimes(stored: map<int, Devices.AppleContact>, cs: seq<Devices.AppleContact>): map<int, int>
  {
    if cs == [] then map[]
    else
      var m := ContactTimes(stored, cs[..|cs| - 1]);
      var c := cs[|cs| - 1];
      if c.sha256 in stored then m[stored[c.sha256].sha256 := stored[c.sha256].lastDetectionTimeMs] else m
  }

  /** Every matched contact's stored row is recorded, and every entry is some stored row's time under its hash. */
  lemma {:induction false} ContactTimesKeys(stored: map<int, Devices.AppleContact>, cs: seq<Devices.AppleContact>)
    ensures forall c :: c in cs && c.sha256 in stored ==> stored[c.sha256].sha256 in ContactTimes(stored, cs)
    ensures forall s :: s in ContactTimes(stored, cs) ==>
      exists k :: k in stored && stored[k].sha256 == s && ContactTimes(stored, cs)[s] == stored[k].lastDetectionTimeMs
    decreases |cs|
  {
    if cs != [] {
      var init := cs[..|cs| - 1];
      var c := cs[|cs| - 1];
      var m := ContactTimes(stored, init);
      ContactTimesKeys(stored, init);
      assert forall x :: x in cs <==> x in init || x == c;
      if c.sha256 in stored {
        var r := m[stored[c.sha256].sha256 := stored[c.sha256].lastDetectionTimeMs];
        assert ContactTimes(stored, cs) == r;
        forall s | s in r
          ensures exists k :: k in stored && stored[k].sha256 == s && r[s] == stored[k].lastDetectionTimeMs
        {
          if s == stored[c.sha256].sha256 {
            assert stored[c.sha256].sha256 == s && r[s] == stored[c.sha256].lastDetectionTimeMs;
          } else {
            var k :| k in stored && stored[k].sha256 == s && m[s] == stored[k].lastDetectionTimeMs;
          }
        }
      }
    }
  }

  /** Stored contact rows are keyed by their own hash. */
  ghost predicate KeyedBySha(stored: map<int, Devices.AppleContact>)
  {
    forall s :: s in stored ==> stored[s].sha256 == s
  }

  /**
   * Every incoming contact with a stored match is recorded with the stored
   * contact's pre-merge detection time, and nothing else is recorded.
   */
  lemma {:induction false} ContactTimesRecordsPreMergeTimes(stored: map<int, Devices.AppleContact>, cs: seq<Devices.AppleContact>)
    requires KeyedBySha(stored)
    ensures forall s :: s in ContactTimes(stored, cs) <==> s in stored && exists c :: c in cs && c.sha256 == s
    ensures forall s :: s in ContactTimes(stored, cs) ==> ContactTimes(stored, cs)[s] == stored[s].lastDetectionTimeMs
  {
    if cs != [] {
      var init := cs[..|cs| - 1];
      ContactTimesRecordsPreMergeTimes(stored, init);
      assert forall c :: c in cs <==> c in init || c == cs[|cs| - 1];
    }
  }

  /** `AirdropContactsMergeResult`. */
  datatype AirdropMerge = AirdropMerge(updatedManufacturerInfo: Option<Devices.ManufacturerInfo>,
                                       contactToPreviouslySeenAtTime: map<int, int>)

  /**
   * What `mergeAirdropContactsWithExisting` returns against the stored contacts.
   * Without AirDrop data the manufacturer info passes through with an empty
   * map; with it, only the contact list changes, contact by contact, and
   * unmatched contacts are kept as they are.
   */
  function MergeAirdrop(found: Option<Devices.ManufacturerInfo>, stored: map<int, Devices.AppleContact>,
                        mergeWithNewContact: (Devices.AppleContact, Devices.AppleContact) -> Devices.AppleContact)
    : AirdropMerge
  {
    if found.None? || found.value.airdrop.None? then AirdropMerge(found, map[])
    else
      var cs := found.value.airdrop.value.contacts;
      AirdropMerge(Some(found.value.(airdrop := Some(Devices.AppleAirDrop(MergedContacts(stored, cs, mergeWithNewContact))))),
                   ContactTimes(stored, cs))
  }

  /** The pass-through case, and otherwise what the merge keeps, replaces and records. */
  lemma MergeAirdropSpec(found: Option<Devices.ManufacturerInfo>, stored: map<int, Devices.AppleContact>,
                         mergeWithNewContact: (Devices.AppleContact, Devices.AppleContact) -> Devices.AppleContact)
    ensures var r := MergeAirdrop(found, stored, mergeWithNewContact);
      && (found.None? || found.value.airdrop.None? ==> r == AirdropMerge(found, map[]))
      && (found.Some? && found.value.airdrop.Some? ==>
            var cs := found.value.airdrop.value.contacts;
            && r.updatedManufacturerInfo.Some?
            && r.updatedManufacturerInfo.value.id == found.value.id
            && r.updatedManufacturerInfo.value.name == found.value.name
            && r.updatedManufacturerInfo.value.airdrop.Some?
            && r.contactToPreviouslySeenAtTime == ContactTimes(stored, cs)
            && var merged := r.updatedManufacturerInfo.value.airdrop.value.contacts;
               && |merged| == |cs|
               && (forall i :: 0 <= i < |cs| && cs[i].sha256 !in stored ==> merged[i] == cs[i])
               && (forall i :: 0 <= i < |cs| && cs[i].sha256 in stored ==>
                     merged[i] == mergeWithNewContact(stored[cs[i].sha256], cs[i])))
  {
  }

  // ---------------------------------------------------------------------------
  // The batch
  // ---------------------------------------------------------------------------

  /** `existing?.mergeWithNewDetected(newDiscovered) ?: newDiscovered`. */
  function MergeWithStored(existing: map<string, Devices.DeviceData>, d: Devices.DeviceData): (r: Devices.DeviceData)
    ensures d.address in existing ==> r == Devices.MergeWithNewDetected(existing[d.address], d)
    ensures d.address !in existing ==> r == d
  {
    if d.address in existing then Devices.MergeWithNewDetected(existing[d.address], d) else d
  }

  /** One element of the `discoveredDevices.map { ... }` loop. */
  function MergeOne(existing: map<string, Devices.DeviceData>, stored: map<int, Devices.AppleContact>,
                    d: Devices.DeviceData,
                    mergeWithNewContact: (Devices.AppleContact, Devices.AppleContact) -> Devices.AppleContact)
    : (Devices.DeviceData, map<int, int>)
  {
    var merged := MergeWithStored(existing, d);
    var airdrop := MergeAirdrop(merged.manufacturerInfo, stored, mergeWithNewContact);
    (merged.(manufacturerInfo := airdrop.updatedManufacturerInfo), airdrop.contactToPreviouslySeenAtTime)
  }

  function MergedDevices(existing: map<string, Devices.DeviceData>, stored: map<int, Devices.AppleContact>,
                         ds: seq<Devices.DeviceData>,
                         mergeWithNewContact: (Devices.AppleContact, Devices.AppleContact) -> Devices.AppleContact)
    : (r: seq<Devices.DeviceData>)
    ensures |r| == |ds|
    ensures forall i :: 0 <= i < |ds| ==> r[i] == MergeOne(existing, stored, ds[i], mergeWithNewContact).0
  {
    seq(|ds|, i requires 0 <= i < |ds| => MergeOne(existing, stored, ds[i], mergeWithNewContact).0)
  }

  /** The batch-wide map, filled by `putAll` device after device: later devices overwrite. */
  function BatchContactTimes(existing: map<string, Devices.DeviceData>, stored: map<int, Devices.AppleContact>,
                             ds: seq<Devices.DeviceData>,
                             mergeWithNewContact: (Devices.AppleContact, Devices.AppleContact) -> Devices.AppleContact)
    : map<int, int>
  {
    if ds == [] then map[]
    else
      BatchContactTimes(existing, stored, ds[..|ds| - 1], mergeWithNewContact)
        + MergeOne(existing, stored, ds[|ds| - 1], mergeWithNewContact).1
  }

  /** The batch-wide map holds exactly the hashes that some device's own map holds. */
  lemma {:induction false} BatchContactTimesKeys(existing: map<string, Devices.DeviceData>,
                                                 stored: map<int, Devices.AppleContact>,
                                                 ds: seq<Devices.DeviceData>,
                                                 mergeWithNewContact: (Devices.AppleContact, Devices.AppleContact) -> Devices.AppleContact)
    ensures forall i, s :: 0 <= i < |ds| && s in MergeOne(existing, stored, ds[i], mergeWithNewContact).1 ==>
      s in BatchContactTimes(existing, stored, ds, mergeWithNewContact)
    ensures forall s :: s in BatchContactTimes(existing, stored, ds, mergeWithNewContact) ==>
      exists i :: 0 <= i < |ds| && s in MergeOne(existing, stored, ds[i], mergeWithNewContact).1
    decreases |ds|
  {
    if ds != [] {
      var init := ds[..|ds| - 1];
      var last := MergeOne(existing, stored, ds[|ds| - 1], mergeWithNewContact).1;
      BatchContactTimesKeys(existing, stored, init, mergeWithNewContact);
      assert BatchContactTimes(existing, stored, ds, mergeWithNewContact)
          == BatchContactTimes(existing, stored, init, mergeWithNewContact) + last;
      forall i, s | 0 <= i < |ds| && s in MergeOne(existing, stored, ds[i], mergeWithNewContact).1
        ensures s in BatchContactTimes(existing, stored, ds, mergeWithNewContact)
      {
        if i < |ds| - 1 {
          assert ds[i] == init[i];
        }
      }
      forall s | s in BatchContactTimes(existing, stored, ds, mergeWithNewContact)
        ensures exists i :: 0 <= i < |ds| && s in MergeOne(existing, stored, ds[i], mergeWithNewContact).1
      {
        if s !in last {
          var i :| 0 <= i < |init| && s in MergeOne(existing, stored, init[i], mergeWithNewContact).1;
          assert ds[i] == init[i];
        }
      }
    }
  }

  /** Maps laid over one another with `putAll`, in order. */
  function Overlay(ms: seq<map<int, int>>): map<int, int>
  {
    if ms == [] then map[] else Overlay(ms[..|ms| - 1]) + ms[|ms| - 1]
  }

  /** `ms[i]` is the last map of `ms` holding `s`, and the overlay takes its value for `s` from it. */
  ghost predicate LastHolder(ms: seq<map<int, int>>, s: int, i: int)
    requires 0 <= i < |ms|
  {
    && s in ms[i]
    && s in Overlay(ms)
    && Overlay(ms)[s] == ms[i][s]
    && forall j :: i < j < |ms| ==> s !in ms[j]
  }

  lemma {:induction false} OverlayLastWins(ms: seq<map<int, int>>)
    ensures forall s :: s in Overlay(ms) ==> exists i :: 0 <= i < |ms| && LastHolder(ms, s, i)
  {
    if ms != [] {
      var init := ms[..|ms| - 1];
      OverlayLastWins(init);
      forall s | s in Overlay(ms)
        ensures exists i :: 0 <= i < |ms| && LastHolder(ms, s, i)
      {
        if s in ms[|ms| - 1] {
          LastMapHolds(ms, s);
        } else {
          assert s in Overlay(init);
          var i :| 0 <= i < |init| && LastHolder(init, s, i);
          EarlierHolderKept(ms, s, i);
        }
      }
    }
  }

  /** A key of the last map is held last by it. */
  lemma LastMapHolds(ms: seq<map<int, int>>, s: int)
    requires ms != [] && s in ms[|ms| - 1]
    ensures LastHolder(ms, s, |ms| - 1)
  {
    assert Overlay(ms) == Overlay(ms[..|ms| - 1]) + ms[|ms| - 1];
  }

  /** A last holder among all but the last map stays the last holder when the last map lacks the key. */
  lemma EarlierHolderKept(ms: seq<map<int, int>>, s: int, i: int)
    requires 0 <= i < |ms| - 1 && LastHolder(ms[..|ms| - 1], s, i) && s !in ms[|ms| - 1]
    ensures LastHolder(ms, s, i)
  {
    var init := ms[..|ms| - 1];
    assert Overlay(ms) == Overlay(init) + ms[|ms| - 1];
    assert ms[i] == init[i];
    forall j | i < j < |ms| ensures s !in ms[j] {
      if j < |init| {
        assert ms[j] == init[j];
      }
    }
  }

  /** The AirDrop maps of the devices of `ds`, one per device. */
  function DeviceTimes(existing: map<string, Devices.DeviceData>, stored: map<int, Devices.AppleContact>,
                       ds: seq<Devices.DeviceData>,
                       mergeWithNewContact: (Devices.AppleContact, Devices.AppleContact) -> Devices.AppleContact)
    : (r: seq<map<int, int>>)
    ensures |r| == |ds|
  {
    seq(|ds|, i requires 0 <= i < |ds| => MergeOne(existing, stored, ds[i], mergeWithNewContact).1)
  }

  lemma {:induction false} BatchContactTimesIsOverlay(existing: map<string, Devices.DeviceData>,
                                                      stored: map<int, Devices.AppleContact>,
                                                      ds: seq<Devices.DeviceData>,
                                                      mergeWithNewContact: (Devices.AppleContact, Devices.AppleContact) -> Devices.AppleContact)
    ensures BatchContactTimes(existing, stored, ds, mergeWithNewContact)
      == Overlay(DeviceTimes(existing, stored, ds, mergeWithNewContact))
  {
    if ds != [] {
      var init := ds[..|ds| - 1];
      BatchContactTimesIsOverlay(existing, stored, init, mergeWithNewContact);
      assert DeviceTimes(existing, stored, ds, mergeWithNewContact)[..|ds| - 1]
          == DeviceTimes(existing, stored, init, mergeWithNewContact);
    }
  }

  /**
   * Later devices overwrite: every entry of the batch-wide map comes from the
   * last device of the batch whose own AirDrop map holds that hash.
   */
  lemma BatchContactTimesLastWins(existing: map<string, Devices.DeviceData>,
                                  stored: map<int, Devices.AppleContact>,
                                  ds: seq<Devices.DeviceData>,
                                  mergeWithNewContact: (Devices.AppleContact, Devices.AppleContact) -> Devices.AppleContact)
    ensures var ms := DeviceTimes(existing, stored, ds, mergeWithNewContact);
      forall s :: s in BatchContactTimes(existing, stored, ds, mergeWithNewContact) ==>
        exists i :: 0 <= i < |ds| && LastHolder(ms, s, i)
                    && BatchContactTimes(existing, stored, ds, mergeWithNewContact)[s] == ms[i][s]
  {
    BatchContactTimesIsOverlay(existing, stored, ds, mergeWithNewContact);
    OverlayLastWins(DeviceTimes(existing, stored, ds, mergeWithNewContact));
  }

  /** Merging one more device extends the merged records by its own and the batch-wide map by its own. */
  lemma MergedPrefixStep(existing: map<string, Devices.DeviceData>, stored: map<int, Devices.AppleContact>,
                         ds: seq<Devices.DeviceData>, i: nat,
                         mergeWithNewContact: (Devices.AppleContact, Devices.AppleContact) -> Devices.AppleContact)
    requires i < |ds|
    ensures MergedDevices(existing, stored, ds[..i + 1], mergeWithNewContact)
      == MergedDevices(existing, stored, ds[..i], mergeWithNewContact) + [MergeOne(existing, stored, ds[i], mergeWithNewContact).0]
    ensures BatchContactTimes(existing, stored, ds[..i + 1], mergeWithNewContact)
      == BatchContactTimes(existing, stored, ds[..i], mergeWithNewContact) + MergeOne(existing, stored, ds[i], mergeWithNewContact).1
  {
    assert ds[..i + 1][..i] == ds[..i];
  }

  /** The handles built after saving: pre-merge last detection, merged record, shared AirDrop map. */
  function Handles(existing: map<string, Devices.DeviceData>, merged: seq<Devices.DeviceData>, times: map<int, int>)
    : (r: seq<Devices.SavedDeviceHandle>)
    ensures |r| == |merged|
  {
    seq(|merged|, i requires 0 <= i < |merged| =>
      Devices.SavedDeviceHandle(
        if merged[i].address in existing then existing[merged[i].address].lastDetectTimeMs else merged[i].lastDetectTimeMs,
        merged[i],
        if times == map[] then None else Some(Devices.AirdropHandle(times))))
  }

  /** `knownDevicesCount`: the stored records of the batch that are "known". */
  function KnownCount(existing: map<string, Devices.DeviceData>, isKnown: Devices.DeviceData -> bool): (r: nat)
    ensures r <= |existing|
  {
    var known := set a | a in existing && isKnown(existing[a]);
    SubsetCardinality(known, existing.Keys);
    |known|
  }

  lemma {:induction false} SubsetCardinality<T>(a: set<T>, b: set<T>)
    requires a <= b
    ensures |a| <= |b|
    decreases b
  {
    if a != {} {
      var x :| x in a;
      SubsetCardinality(a - {x}, b - {x});
    }
  }

  /**
   * The batch's handles: one per scan, in scan order; each carries the merged
   * record, the stored record's pre-merge last detection when the address was
   * stored (else the scan's own time), and the batch-wide AirDrop map, absent
   * exactly when that map is empty.
   */
  lemma HandlesDescribeBatch(existing: map<string, Devices.DeviceData>, stored: map<int, Devices.AppleContact>,
                             discovered: seq<Devices.DeviceData>,
                             mergeWithNewContact: (Devices.AppleContact, Devices.AppleContact) -> Devices.AppleContact)
    requires forall a :: a in existing ==> existing[a].address == a
    ensures var merged := MergedDevices(existing, stored, discovered, mergeWithNewContact);
      var times := BatchContactTimes(existing, stored, discovered, mergeWithNewContact);
      var hs := Handles(existing, merged, times);
      && |hs| == |discovered|
      && forall i :: 0 <= i < |discovered| ==>
        && hs[i].device.address == discovered[i].address
        && hs[i].device == merged[i]
        && (discovered[i].address in existing ==>
              && hs[i].previouslySeenAtTime == existing[discovered[i].address].lastDetectTimeMs
              && hs[i].device.detectCount == existing[discovered[i].address].detectCount + 1
              && hs[i].device.lastDetectTimeMs == discovered[i].lastDetectTimeMs)
        && (discovered[i].address !in existing ==>
              && hs[i].previouslySeenAtTime == discovered[i].lastDetectTimeMs
              && hs[i].device == discovered[i].(manufacturerInfo := hs[i].device.manufacturerInfo))
        && (hs[i].airdrop.None? <==> times == map[])
        && (hs[i].airdrop.Some? ==> hs[i].airdrop.value.contactShaToPreviouslySeenAtTime == times)
  {
  }

  /** The batch-wide map only holds hashes of stored contacts, with their stored times. */
  lemma {:induction false} BatchContactTimesFromStore(existing: map<string, Devices.DeviceData>,
                                                      stored: map<int, Devices.AppleContact>,
                                                      ds: seq<Devices.DeviceData>,
                                                      mergeWithNewContact: (Devices.AppleContact, Devices.AppleContact) -> Devices.AppleContact)
    requires KeyedBySha(stored)
    ensures forall s :: s in BatchContactTimes(existing, stored, ds, mergeWithNewContact) ==>
      s in stored && BatchContactTimes(existing, stored, ds, mergeWithNewContact)[s] == stored[s].lastDetectionTimeMs
  {
    if ds != [] {
      BatchContactTimesFromStore(existing, stored, ds[..|ds| - 1], mergeWithNewContact);
      var found := MergeWithStored(existing, ds[|ds| - 1]).manufacturerInfo;
      if found.Some? && found.value.airdrop.Some? {
        ContactTimesRecordsPreMergeTimes(stored, found.value.airdrop.value.contacts);
      }
    }
  }

  /** What `execute` returns. */
  datatype BatchResult = BatchResult(knownDevicesCount: nat, savedBatch: seq<Devices.SavedDeviceHandle>)

  /** A location saved for the addresses of a batch. */
  datatype LocationSave = LocationSave(location: LocationHistory.LocationModel, addresses: seq<string>)

  /** The addresses of the scans, in order. */
  function ScanAddresses(batch: seq<ScanBuild.BleScanDevice>): seq<string>
  {
    seq(|batch|, i requires 0 <= i < |batch| => batch[i].address)
  }

  /** The fresh records of a batch. */
  function Discovered(batch: seq<ScanBuild.BleScanDevice>,
                      decodeManufacturerInfo: (seq<bv8>, int) -> Option<Devices.ManufacturerInfo>,
                      toBase64: seq<bv8> -> string): (r: seq<Devices.DeviceData>)
    ensures |r| == |batch|
    ensures forall i :: 0 <= i < |batch| ==> r[i] == ScanBuild.BuildDeviceFromScanData(batch[i], decodeManufacturerInfo, toBase64)
    ensures Devices.Addresses(r) == ScanAddresses(batch)
  {
    seq(|batch|, i requires 0 <= i < |batch| => ScanBuild.BuildDeviceFromScanData(batch[i], decodeManufacturerInfo, toBase64))
  }

  /** The opaque collaborators of the interactor. */
  datatype Collaborators = Collaborators(
    decodeManufacturerInfo: (seq<bv8>, int) -> Option<Devices.ManufacturerInfo>,
    toBase64: seq<bv8> -> string,
    isKnown: Devices.DeviceData -> bool,
    mergeWithNewContact: (Devices.AppleContact, Devices.AppleContact) -> Devices.AppleContact)

  /** The stored records of the batch's addresses, its merged records and its batch-wide AirDrop map. */
  datatype BatchPlan = BatchPlan(existing: map<string, Devices.DeviceData>, merged: seq<Devices.DeviceData>,
                                 times: map<int, int>)

  /** What merging `batch` into a store holding `devices` and `contacts` produces. */
  function PlanBatch(batch: seq<ScanBuild.BleScanDevice>, c: Collaborators,
                     devices: map<string, Devices.DeviceData>, contacts: map<int, Devices.AppleContact>): (r: BatchPlan)
    ensures forall a :: a in r.existing <==> a in devices && a in ScanAddresses(batch)
    ensures forall a :: a in r.existing ==> r.existing[a] == devices[a]
    ensures |r.merged| == |batch|
  {
    var discovered := Discovered(batch, c.decodeManufacturerInfo, c.toBase64);
    var addresses := Devices.Addresses(discovered);
    var existing := map a | a in addresses && a in devices :: devices[a];
    BatchPlan(existing, MergedDevices(existing, contacts, discovered, c.mergeWithNewContact),
              BatchContactTimes(existing, contacts, discovered, c.mergeWithNewContact))
  }

  /** `SaveOrMergeBatchInteractor`: the store it writes, the planner it feeds, the locations it saves. */
  class SaveOrMergeBatch {
    const store: DeviceStore.DevicesRepository
    const planner: FetchPlanner.DeviceServicesFetchingPlanner
    var savedLocations: seq<LocationSave>

    constructor(store: DeviceStore.DevicesRepository, planner: FetchPlanner.DeviceServicesFetchingPlanner)
      ensures this.store == store && this.planner == planner && savedLocations == []
    {
      this.store := store;
      this.planner := planner;
      savedLocations := [];
    }

    /** `mergeAirdropContactsWithExisting`, reading the stored contacts. */
    method MergeAirdropContactsWithExisting(found: Option<Devices.ManufacturerInfo>,
                                            mergeWithNewContact: (Devices.AppleContact, Devices.AppleContact) -> Devices.AppleContact)
      returns (r: AirdropMerge)
      ensures r == MergeAirdrop(found, store.contacts, mergeWithNewContact)
    {
      if found.None? || found.value.airdrop.None? {
        return AirdropMerge(found, map[]);
      }
      var contacts := found.value.airdrop.value.contacts;
      var shas := seq(|contacts|, i requires 0 <= i < |contacts| => contacts[i].sha256);
      var existingContacts := store.ExistingBySha(shas);
      forall i | 0 <= i < |contacts|
        ensures contacts[i].sha256 in existingContacts <==> contacts[i].sha256 in store.contacts
      {
        assert contacts[i].sha256 == shas[i];
      }
      var merged, times := MergeContactList(store.contacts, existingContacts, contacts, mergeWithNewContact);
      r := AirdropMerge(Some(found.value.(airdrop := Some(Devices.AppleAirDrop(merged)))), times);
    }

    /** The per-contact loop of `mergeAirdropContactsWithExisting`, looking each contact up among `existing`. */
    static method MergeContactList(stored: map<int, Devices.AppleContact>, existing: map<int, Devices.AppleContact>,
                                   contacts: seq<Devices.AppleContact>,
                                   mergeWithNewContact: (Devices.AppleContact, Devices.AppleContact) -> Devices.AppleContact)
      returns (merged: seq<Devices.AppleContact>, times: map<int, int>)
      requires forall i :: 0 <= i < |contacts| ==> (contacts[i].sha256 in existing <==> contacts[i].sha256 in stored)
      requires forall s :: s in existing ==> s in stored && existing[s] == stored[s]
      ensures merged == MergedContacts(stored, contacts, mergeWithNewContact)
      ensures times == ContactTimes(stored, contacts)
    {
      times := map[];
      merged := [];
      var i := 0;
      while i < |contacts|
        invariant 0 <= i <= |contacts|
        invariant times == ContactTimes(stored, contacts[..i])
        invariant merged == MergedContacts(stored, contacts[..i], mergeWithNewContact)
      {
        var contact := contacts[i];
        assert contacts[..i + 1][..i] == contacts[..i];
        if contact.sha256 in existing {
          var found := existing[contact.sha256];
          times := times[found.sha256 := found.lastDetectionTimeMs];
          merged := merged + [mergeWithNewContact(found, contact)];
        } else {
          merged := merged + [contact];
        }
        i := i + 1;
      }
      assert contacts[..i] == contacts;
    }

    /** The `discoveredDevices.map { ... }` loop, filling the batch-wide AirDrop map as it goes. */
    method MergeBatch(existing: map<string, Devices.DeviceData>, discovered: seq<Devices.DeviceData>,
                      mergeWithNewContact: (Devices.AppleContact, Devices.AppleContact) -> Devices.AppleContact)
      returns (merged: seq<Devices.DeviceData>, times: map<int, int>)
      ensures merged == MergedDevices(existing, store.contacts, discovered, mergeWithNewContact)
      ensures times == BatchContactTimes(existing, store.contacts, discovered, mergeWithNewContact)
    {
      times := map[];
      merged := [];
      var i := 0;
      while i < |discovered|
        invariant 0 <= i <= |discovered|
        invariant merged == MergedDevices(existing, store.contacts, discovered[..i], mergeWithNewContact)
        invariant times == BatchContactTimes(existing, store.contacts, discovered[..i], mergeWithNewContact)
      {
        var newDiscovered := discovered[i];
        var mergedDeviceData := MergeWithStored(existing, newDiscovered);
        var airdrop := MergeAirdropContactsWithExisting(mergedDeviceData.manufacturerInfo, mergeWithNewContact);
        MergedPrefixStep(existing, store.contacts, discovered, i, mergeWithNewContact);
        times := times + airdrop.contactToPreviouslySeenAtTime;
        merged := merged + [mergedDeviceData.(manufacturerInfo := airdrop.updatedManufacturerInfo)];
        i := i + 1;
      }
      assert discovered[..i] == discovered;
    }

    /**
     * The planner step of `execute`: the planner runs only with deep analysis
     * on, and its handles are discarded; `aborted` when it throws.
     */
    method PlanIfEnabled(deepAnalysis: bool, savedBatch: seq<Devices.SavedDeviceHandle>, now: int, finishedAt: int,
                         outcome: Devices.DeviceData -> FetchPlanner.FetchRun)
      returns (aborted: bool)
      requires planner.Valid() && planner.store == store
      modifies planner, store
      ensures planner.Valid()
      ensures !deepAnalysis ==> !aborted && unchanged(planner) && unchanged(store)
      ensures deepAnalysis ==>
        store.devices == DeviceStore.InsertAll(old(store.devices), FetchPlanner.FetchSaves(old(planner.State()), savedBatch, now, outcome))
      ensures store.contacts == old(store.contacts)
      ensures var out := FetchPlanner.Schedule(old(planner.State()), savedBatch, now, finishedAt, outcome);
        deepAnalysis ==> planner.State() == out.1 && (aborted <==> out.0.Aborted?)
      ensures aborted <==>
        && deepAnalysis
        && !old(planner.OnCooldown(now))
        && FetchPlanner.Aborts(FetchPlanner.FetchOrder(FetchPlanner.MetadataNeeded(savedBatch, now),
                                                       old(planner.parallelProcessingBatches)), outcome)
    {
      aborted := false;
      if deepAnalysis {
        var planned := planner.ScheduleFetchServiceInfo(savedBatch, now, finishedAt, outcome);
        aborted := planned.Aborted?;
      }
    }

    /** The lookup, merge and save steps of `execute`. */
    method MergeAndSave(batch: seq<ScanBuild.BleScanDevice>, c: Collaborators) returns (p: BatchPlan)
      modifies store
      ensures p == PlanBatch(batch, c, old(store.devices), old(store.contacts))
      ensures store.devices == DeviceStore.InsertAll(old(store.devices), p.merged)
      ensures store.contacts == DeviceStore.InsertDeviceContacts(old(store.contacts), p.merged)
    {
      var discovered := Discovered(batch, c.decodeManufacturerInfo, c.toBase64);
      var existing := store.ExistingByAddress(Devices.Addresses(discovered));
      var merged, times := MergeBatch(existing, discovered, c.mergeWithNewContact);
      p := BatchPlan(existing, merged, times);
      store.SaveScanBatch(merged);
    }

    /**
     * `execute`. Deep analysis, the fresh location and the planner's inputs are
     * parameters; `None` stands for the planner throwing "max connections",
     * which escapes `execute` after the records are saved.
     */
    method Execute(batch: seq<ScanBuild.BleScanDevice>, c: Collaborators, deepAnalysis: bool,
                   location: Option<LocationHistory.LocationModel>,
                   now: int, finishedAt: int, outcome: Devices.DeviceData -> FetchPlanner.FetchRun)
      returns (r: Option<BatchResult>)
      requires planner.Valid() && planner.store == store
      modifies this, store, planner
      ensures planner.Valid()
      ensures var p := PlanBatch(batch, c, old(store.devices), old(store.contacts));
        && (!deepAnalysis ==> store.devices == DeviceStore.InsertAll(old(store.devices), p.merged))
        && (deepAnalysis ==>
              store.devices == DeviceStore.InsertAll(DeviceStore.InsertAll(old(store.devices), p.merged),
                                                     FetchPlanner.FetchSaves(old(planner.State()), Handles(p.existing, p.merged, p.times),
                                                                             now, outcome)))
        && store.contacts == DeviceStore.InsertDeviceContacts(old(store.contacts), p.merged)
        && (r.Some? ==> r.value == BatchResult(KnownCount(p.existing, c.isKnown), Handles(p.existing, p.merged, p.times)))
      ensures !deepAnalysis ==> unchanged(planner) && r.Some?
      ensures r.None? ==> deepAnalysis && !old(planner.OnCooldown(now))
      ensures var p := PlanBatch(batch, c, old(store.devices), old(store.contacts));
        var out := FetchPlanner.Schedule(old(planner.State()), Handles(p.existing, p.merged, p.times), now, finishedAt, outcome);
        && (r.None? <==> deepAnalysis && out.0.Aborted?)
        && (deepAnalysis ==> planner.State() == out.1)
      ensures r.Some? && location.Some? && batch != [] ==>
        savedLocations == old(savedLocations) + [LocationSave(location.value.(time := batch[0].scanTimeMs), ScanAddresses(batch))]
      ensures r.None? || location.None? || batch == [] ==> savedLocations == old(savedLocations)
    {
      var p := MergeAndSave(batch, c);
      ghost var devices1, contacts1 := store.devices, store.contacts;
      var knownDevicesCount := KnownCount(p.existing, c.isKnown);
      var savedBatch := Handles(p.existing, p.merged, p.times);
      r := Conclude(batch, knownDevicesCount, savedBatch, deepAnalysis, location, now, finishedAt, outcome);
      assert store.contacts == contacts1;
    }

    /** The steps of `execute` after the save: plan, then save the location and report the batch. */
    method Conclude(batch: seq<ScanBuild.BleScanDevice>, knownDevicesCount: nat, savedBatch: seq<Devices.SavedDeviceHandle>,
                    deepAnalysis: bool, location: Option<LocationHistory.LocationModel>,
                    now: int, finishedAt: int, outcome: Devices.DeviceData -> FetchPlanner.FetchRun)
      returns (r: Option<BatchResult>)
      requires planner.Valid() && planner.store == store
      modifies this, planner, store
      ensures planner.Valid()
      ensures !deepAnalysis ==> store.devices == old(store.devices)
      ensures deepAnalysis ==>
        store.devices == DeviceStore.InsertAll(old(store.devices), FetchPlanner.FetchSaves(old(planner.State()), savedBatch, now, outcome))
      ensures store.contacts == old(store.contacts)
      ensures r.Some? ==> r.value == BatchResult(knownDevicesCount, savedBatch)
      ensures !deepAnalysis ==> unchanged(planner) && r.Some?
      ensures r.None? ==> deepAnalysis && !old(planner.OnCooldown(now))
      ensures var out := FetchPlanner.Schedule(old(planner.State()), savedBatch, now, finishedAt, outcome);
        && (r.None? <==> deepAnalysis && out.0.Aborted?)
        && (deepAnalysis ==> planner.State() == out.1)
      ensures r.Some? && location.Some? && batch != [] ==>
        savedLocations == old(savedLocations) + [LocationSave(location.value.(time := batch[0].scanTimeMs), ScanAddresses(batch))]
      ensures r.None? || location.None? || batch == [] ==> savedLocations == old(savedLocations)
    {
      var aborted := PlanIfEnabled(deepAnalysis, savedBatch, now, finishedAt, outcome);
      if aborted {
        return None;
      }
      SaveLocation(batch, location);
      r := Some(BatchResult(knownDevicesCount, savedBatch));
    }

    /** `saveLocation`: the location of a non-empty batch, stamped with its first scan time. */
    method SaveLocation(batch: seq<ScanBuild.BleScanDevice>, location: Option<LocationHistory.LocationModel>)
      modifies this
      ensures location.Some? && batch != [] ==>
        savedLocations == old(savedLocations) + [LocationSave(location.value.(time := batch[0].scanTimeMs), ScanAddresses(batch))]
      ensures location.None? || batch == [] ==> savedLocations == old(savedLocations)
    {
      if location.Some? && batch != [] {
        savedLocations := savedLocations + [LocationSave(location.value.(time := batch[0].scanTimeMs), ScanAddresses(batch))];
      }
    }
  }
}
