/**
 * Optional device metadata read from GATT services: its display-name and
 * emptiness rules, and the two lookup tables from 16-bit Bluetooth UUIDs to the
 * services and characteristics the app reads.
 */
module Metadata {
  import opened Wrappers

  datatype DeviceMetadata = DeviceMetadata(
    deviceName: Option<string>,
    manufacturerName: Option<string>,
    modelNumber: Option<string>,
    serialNumber: Option<string>,
    batteryLevel: Option<int>)

  /** `DeviceMetadata()`: every field at its default, null. */
  const EmptyMetadata: DeviceMetadata := DeviceMetadata(None, None, None, None, None)

  /** Kotlin's `String?.isNullOrEmpty()`. */
  predicate NullOrEmpty(s: Option<string>)
  {
    s.None? || s.value == ""
  }

  /** Kotlin's `String.contains(other)`: `part` occurs as a contiguous substring of `s`. */
  predicate Contains(s: string, part: string)
  {
    exists i | 0 <= i <= |s| - |part| :: OccursAt(s, part, i)
  }

  predicate OccursAt(s: string, part: string, i: int)
    requires 0 <= i <= |s| - |part|
  {
    s[i..i + |part|] == part
  }

  /**
   * `buildDisplayName`: the model number when it contains a non-empty device
   * name, otherwise the device name, otherwise the model number.
   */
  function BuildDisplayName(m: DeviceMetadata): (r: Option<string>)
    ensures r.None? <==> m.deviceName.None? && m.modelNumber.None?
    ensures !NullOrEmpty(m.deviceName) && m.modelNumber.Some? && Contains(m.modelNumber.value, m.deviceName.value)
            ==> r == m.modelNumber
    ensures m.deviceName.Some? && !(m.modelNumber.Some? && Contains(m.modelNumber.value, m.deviceName.value))
            ==> r == m.deviceName
    ensures m.deviceName.None? ==> r == m.modelNumber
  {
    if !NullOrEmpty(m.deviceName) && m.modelNumber.Some? && Contains(m.modelNumber.value, m.deviceName.value) then
      m.modelNumber
    else if m.deviceName.Some? then m.deviceName
    else m.modelNumber
  }

  /** The display name is always one of the two name fields. */
  lemma DisplayNameIsAField(m: DeviceMetadata)
    ensures BuildDisplayName(m) == m.deviceName || BuildDisplayName(m) == m.modelNumber
  {
  }

  /** An empty device name is returned as is, even when a model number is known. */
  lemma EmptyDeviceNameWins(m: DeviceMetadata)
    requires m.deviceName == Some("")
    ensures BuildDisplayName(m) == Some("")
  {
  }

  /**
   * `DeviceMetadata?.isNullOrEmpty()`. Emptiness means no field carries
   * information: a known battery level always counts, and otherwise the record
   * is empty exactly when each of its four strings is absent or empty.
   */
  function IsNullOrEmpty(m: Option<DeviceMetadata>): (r: bool)
    ensures m.None? ==> r
    ensures m.Some? && m.value.batteryLevel.Some? ==> !r
    ensures m.Some? && m.value.batteryLevel.None? ==>
      (r <==> forall s | s in {m.value.deviceName, m.value.manufacturerName,
                               m.value.modelNumber, m.value.serialNumber} :: NullOrEmpty(s))
  {
    m.None?
    || (NullOrEmpty(m.value.deviceName) && NullOrEmpty(m.value.manufacturerName)
        && NullOrEmpty(m.value.modelNumber) && NullOrEmpty(m.value.serialNumber)
        && m.value.batteryLevel.None?)
  }

  /** A metadata record with a known battery level or a non-empty field is never empty. */
  lemma SomeFieldMakesNonEmpty(m: DeviceMetadata)
    requires m.batteryLevel.Some? || (m.deviceName.Some? && m.deviceName.value != "")
             || (m.manufacturerName.Some? && m.manufacturerName.value != "")
             || (m.modelNumber.Some? && m.modelNumber.value != "")
             || (m.serialNumber.Some? && m.serialNumber.value != "")
    ensures !IsNullOrEmpty(Some(m))
  {
  }

  // ---------------------------------------------------------------------------
  // 16-bit UUID lookup tables
  // ---------------------------------------------------------------------------

  /**
   * ASCII upper-casing. For the table keys, which hold only digits and the
   * letters A and F, this agrees with Kotlin's Unicode `uppercase()`: no other
   * character upper-cases to a digit, an A or a lone F.
   */
  function UpperCase(s: string): (r: string)
    ensures |r| == |s|
    ensures forall i :: 0 <= i < |s| ==> r[i] == UpperChar(s[i])
  {
    if s == [] then [] else [UpperChar(s[0])] + UpperCase(s[1..])
  }

  function UpperChar(c: char): char
  {
    if 'a' <= c <= 'z' then (c as int - 'a' as int + 'A' as int) as char else c
  }

  datatype ServiceType = GENERIC_ACCESS | DEVICE_INFORMATION | BATTERY_SERVICE

  function ServiceUuid(t: ServiceType): string
  {
    match t
    case GENERIC_ACCESS => "1800"
    case DEVICE_INFORMATION => "180A"
    case BATTERY_SERVICE => "180F"
  }

  datatype CharacteristicType = DEVICE_NAME | MANUFACTURER_NAME | MODEL_NUMBER | SERIAL_NUMBER | BATTERY_LEVEL

  function CharacteristicUuid(t: CharacteristicType): string
  {
    match t
    case DEVICE_NAME => "2A00"
    case MANUFACTURER_NAME => "2A29"
    case MODEL_NUMBER => "2A24"
    case SERIAL_NUMBER => "2A25"
    case BATTERY_LEVEL => "2A19"
  }

  /** `ServiceTypes.map`: the enum entries keyed by their uuid. */
  function ServiceTable(): map<string, ServiceType>
  {
    map[ServiceUuid(GENERIC_ACCESS) := GENERIC_ACCESS,
        ServiceUuid(DEVICE_INFORMATION) := DEVICE_INFORMATION,
        ServiceUuid(BATTERY_SERVICE) := BATTERY_SERVICE]
  }

  /** `CharacteristicType.map`: the enum entries keyed by their uuid. */
  function CharacteristicTable(): map<string, CharacteristicType>
  {
    map[CharacteristicUuid(DEVICE_NAME) := DEVICE_NAME,
        CharacteristicUuid(MANUFACTURER_NAME) := MANUFACTURER_NAME,
        CharacteristicUuid(MODEL_NUMBER) := MODEL_NUMBER,
        CharacteristicUuid(SERIAL_NUMBER) := SERIAL_NUMBER,
        CharacteristicUuid(BATTERY_LEVEL) := BATTERY_LEVEL]
  }

  /**
   * `ServiceTypes.findByUuid`: the 16-bit id is extracted from the full uuid
   * (by `extract16BitUuid`, a parameter here), upper-cased and looked up.
   */
  function FindServiceByUuid(uuid: string, extract16BitUuid: string -> Option<string>): (r: Option<ServiceType>)
    ensures r.Some? <==> extract16BitUuid(uuid).Some? && UpperCase(extract16BitUuid(uuid).value) in {"1800", "180A", "180F"}
    ensures r.Some? ==> ServiceUuid(r.value) == UpperCase(extract16BitUuid(uuid).value)
  {
    match extract16BitUuid(uuid)
    case None => None
    case Some(id) =>
      var key := UpperCase(id);
      if key in ServiceTable() then Some(ServiceTable()[key]) else None
  }

  /** `CharacteristicType.findByUuid`, the same lookup over the characteristic table. */
  function FindCharacteristicByUuid(uuid: string, extract16BitUuid: string -> Option<string>): (r: Option<CharacteristicType>)
    ensures r.Some? <==> extract16BitUuid(uuid).Some?
                         && UpperCase(extract16BitUuid(uuid).value) in {"2A00", "2A29", "2A24", "2A25", "2A19"}
    ensures r.Some? ==> CharacteristicUuid(r.value) == UpperCase(extract16BitUuid(uuid).value)
  {
    match extract16BitUuid(uuid)
    case None => None
    case Some(id) =>
      var key := UpperCase(id);
      if key in CharacteristicTable() then Some(CharacteristicTable()[key]) else None
  }

  /** No two services share a uuid, so `associateBy` loses no entry and lookup finds every service. */
  lemma ServiceLookupRoundTrip(t: ServiceType, uuid: string, extract16BitUuid: string -> Option<string>)
    requires extract16BitUuid(uuid) == Some(ServiceUuid(t))
    ensures FindServiceByUuid(uuid, extract16BitUuid) == Some(t)
  {
    assert UpperCase(ServiceUuid(t)) == ServiceUuid(t);
  }

  /** No two characteristics share a uuid, so lookup finds every characteristic. */
  lemma CharacteristicLookupRoundTrip(t: CharacteristicType, uuid: string, extract16BitUuid: string -> Option<string>)
    requires extract16BitUuid(uuid) == Some(CharacteristicUuid(t))
    ensures FindCharacteristicByUuid(uuid, extract16BitUuid) == Some(t)
  {
    assert UpperCase(CharacteristicUuid(t)) == CharacteristicUuid(t);
  }

  /** Lower-case hexadecimal ids are found too. */
  lemma ServiceLookupIgnoresCase(uuid: string, extract16BitUuid: string -> Option<string>)
    requires extract16BitUuid(uuid) == Some("180f")
    ensures FindServiceByUuid(uuid, extract16BitUuid) == Some(BATTERY_SERVICE)
  {
    assert UpperCase("180f") == "180F";
  }
}
