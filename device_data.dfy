/**
 * A tracked BLE device as stored by the app: the record itself, the rule that
 * folds a new sighting into a stored record, and the derived names, lifetime
 * and distance.
 */
module Devices {
  import opened Wrappers
  import Metadata

  /** One Apple AirDrop contact hash seen in a device's advertisement. */
  datatype AppleContact = AppleContact(sha256: int, lastDetectionTimeMs: int)

  datatype AppleAirDrop = AppleAirDrop(contacts: seq<AppleContact>)

  /** Decoded manufacturer-specific advertisement data. */
  datatype ManufacturerInfo = ManufacturerInfo(id: int, name: string, airdrop: Option<AppleAirDrop>)

  datatype DeviceData = DeviceData(
    address: string,
    name: Option<string>,
    lastDetectTimeMs: int,
    firstDetectTimeMs: int,
    manufacturerInfo: Option<ManufacturerInfo>,
    detectCount: int,
    customName: Option<string>,
    favorite: bool,
    tags: set<string>,
    lastFollowingDetectionTimeMs: Option<int>,
    rssi: Option<int>,
    systemAddressType: Option<int>,
    deviceClass: Option<int>,
    isPaired: bool,
    servicesUuids: seq<string>,
    rowDataEncoded: Option<string>,
    metadata: Option<Metadata.DeviceMetadata>,
    isConnectable: bool)

  /** The pre-merge times of a device and of its AirDrop contacts, handed to later stages. */
  datatype AirdropHandle = AirdropHandle(contactShaToPreviouslySeenAtTime: map<int, int>)

  datatype SavedDeviceHandle = SavedDeviceHandle(previouslySeenAtTime: int, device: DeviceData, airdrop: Option<AirdropHandle>)

  // ---------------------------------------------------------------------------
  // Merging a new sighting
  // ---------------------------------------------------------------------------

  /**
   * `mergeWithNewDetected`: one more detection; the volatile advertisement
   * fields come from the new sighting, identity and user-owned fields stay.
   */
  function MergeWithNewDetected(d: DeviceData, seen: DeviceData): (r: DeviceData)
    ensures r.detectCount == d.detectCount + 1
    ensures r.lastDetectTimeMs == seen.lastDetectTimeMs
    ensures r.name == seen.name && r.manufacturerInfo == seen.manufacturerInfo && r.rssi == seen.rssi
    ensures r.systemAddressType == seen.systemAddressType && r.isPaired == seen.isPaired
    ensures r.deviceClass == seen.deviceClass && r.servicesUuids == seen.servicesUuids
    ensures r.rowDataEncoded == seen.rowDataEncoded
    ensures r.address == d.address && r.firstDetectTimeMs == d.firstDetectTimeMs
    ensures r.customName == d.customName && r.favorite == d.favorite && r.tags == d.tags
    ensures r.lastFollowingDetectionTimeMs == d.lastFollowingDetectionTimeMs && r.metadata == d.metadata
    ensures r.isConnectable == d.isConnectable
  {
    d.(detectCount := d.detectCount + 1,
       lastDetectTimeMs := seen.lastDetectTimeMs,
       name := seen.name,
       manufacturerInfo := seen.manufacturerInfo,
       rssi := seen.rssi,
       systemAddressType := seen.systemAddressType,
       isPaired := seen.isPaired,
       deviceClass := seen.deviceClass,
       servicesUuids := seen.servicesUuids,
       rowDataEncoded := seen.rowDataEncoded)
  }

  /** `map { it.address }`: the addresses of the records, in order. */
  function Addresses(ds: seq<DeviceData>): (r: seq<string>)
    ensures |r| == |ds| && forall i :: 0 <= i < |ds| ==> r[i] == ds[i].address
  {
    seq(|ds|, i requires 0 <= i < |ds| => ds[i].address)
  }

  /** `knownLifetime`: time between the first and the last sighting. */
  function KnownLifetime(d: DeviceData): (r: int)
    ensures d.firstDetectTimeMs + r == d.lastDetectTimeMs
  {
    d.lastDetectTimeMs - d.firstDetectTimeMs
  }

  /**
   * A merge with a sighting that is not older than the first detection keeps
   * the lifetime non-negative, and a merge with a later sighting never shortens it.
   */
  lemma MergeLifetime(d: DeviceData, seen: DeviceData)
    ensures seen.lastDetectTimeMs >= d.firstDetectTimeMs ==> KnownLifetime(MergeWithNewDetected(d, seen)) >= 0
    ensures seen.lastDetectTimeMs >= d.lastDetectTimeMs ==>
      KnownLifetime(MergeWithNewDetected(d, seen)) >= KnownLifetime(d)
  {
  }

  /** Merged sightings in a row: the latest one wins every volatile field, each adds one detection. */
  function MergeAll(d: DeviceData, sightings: seq<DeviceData>): DeviceData
    decreases |sightings|
  {
    if sightings == [] then d else MergeAll(MergeWithNewDetected(d, sightings[0]), sightings[1..])
  }

  lemma {:induction false} MergeAllLatestWins(d: DeviceData, sightings: seq<DeviceData>)
    requires sightings != []
    ensures var r := MergeAll(d, sightings);
      && r.detectCount == d.detectCount + |sightings|
      && r == MergeWithNewDetected(d, sightings[|sightings| - 1]).(detectCount := d.detectCount + |sightings|)
    decreases |sightings|
  {
    if |sightings| > 1 {
      MergeAllLatestWins(MergeWithNewDetected(d, sightings[0]), sightings[1..]);
    }
  }

  // ---------------------------------------------------------------------------
  // Names
  // ---------------------------------------------------------------------------

  /** Kotlin's `Char.isWhitespace()`: Java whitespace or a Unicode space separator. */
  predicate IsWhitespace(c: char)
  {
    ('\U{0009}' <= c <= '\U{000D}') || ('\U{001C}' <= c <= '\U{0020}') || c == '\U{00A0}' || c == '\U{1680}'
    || ('\U{2000}' <= c <= '\U{200A}') || c == '\U{2028}' || c == '\U{2029}' || c == '\U{202F}'
    || c == '\U{205F}' || c == '\U{3000}'
  }

  /** Kotlin's `isBlank()`: empty or whitespace only. */
  predicate IsBlank(s: string)
  {
    forall i :: 0 <= i < |s| ==> IsWhitespace(s[i])
  }

  /** `takeIf { it.isNotBlank() }` on a nullable string. */
  function NonBlank(s: Option<string>): (r: Option<string>)
    ensures r.Some? <==> s.Some? && !IsBlank(s.value)
    ensures r.Some? ==> r == s
  {
    if s.Some? && !IsBlank(s.value) then s else None
  }

  /** The metadata display name when it is present and not blank. */
  function MetadataName(d: DeviceData): (r: Option<string>)
    ensures r.Some? ==> d.metadata.Some? && r == Metadata.BuildDisplayName(d.metadata.value) && !IsBlank(r.value)
  {
    if d.metadata.None? then None else NonBlank(Metadata.BuildDisplayName(d.metadata.value))
  }

  /** `resolvedName`: the non-blank metadata display name, else the advertised name. */
  function ResolvedName(d: DeviceData): (r: Option<string>)
    ensures r.None? <==> d.name.None? && MetadataName(d).None?
    ensures r.Some? && MetadataName(d).None? ==> r == d.name
    ensures MetadataName(d).Some? ==> r == MetadataName(d)
  {
    if MetadataName(d).Some? then MetadataName(d) else d.name
  }

  /**
   * `buildDisplayName`: a non-blank custom name, else the advertised name
   * (even a blank one), else the non-blank metadata name, else the address.
   */
  function BuildDisplayName(d: DeviceData): (r: string)
    ensures NonBlank(d.customName).Some? ==> r == d.customName.value
    ensures NonBlank(d.customName).None? && d.name.Some? ==> r == d.name.value
    ensures NonBlank(d.customName).None? && d.name.None? && MetadataName(d).Some? ==> r == MetadataName(d).value
    ensures NonBlank(d.customName).None? && d.name.None? && MetadataName(d).None? ==> r == d.address
  {
    if NonBlank(d.customName).Some? then d.customName.value
    else if d.name.Some? then d.name.value
    else if MetadataName(d).Some? then MetadataName(d).value
    else d.address
  }

  /**
   * Without a usable custom name and without an advertised name, the display
   * name is the resolved name, falling back to the address.
   */
  lemma DisplayNameFallsBackToResolvedName(d: DeviceData)
    requires NonBlank(d.customName).None? && d.name.None?
    ensures BuildDisplayName(d) == ResolvedName(d).GetOr(d.address)
  {
  }

  /** The display name is always one of the four candidates, and never a blank custom name. */
  lemma DisplayNameCandidates(d: DeviceData)
    ensures var r := BuildDisplayName(d);
      || (d.customName == Some(r) && !IsBlank(r))
      || d.name == Some(r)
      || (MetadataName(d) == Some(r))
      || r == d.address
  {
  }

  // ---------------------------------------------------------------------------
  // Distance
  // ---------------------------------------------------------------------------

  /** The reference transmit power in dBm at one metre. */
  const TX_POWER: int := -59

  /**
   * `distance`: the path-loss estimate from the signal strength, null without
   * a signal strength. `pow` stands for `Math.pow`.
   */
  function Distance(d: DeviceData, pow: (real, real) -> real): (r: Option<real>)
    ensures r.Some? <==> d.rssi.Some?
    ensures d.rssi.Some? && d.rssi.value > TX_POWER ==>
      r == Some(pow(d.rssi.value as real / TX_POWER as real, 10.0))
    ensures d.rssi.Some? && d.rssi.value <= TX_POWER ==>
      r == Some(0.89976 * pow(d.rssi.value as real / TX_POWER as real, 7.7095) + 0.111)
  {
    if d.rssi.None? then None
    else
      var ratio := d.rssi.value as real / TX_POWER as real;
      if ratio < 1.0 then Some(pow(ratio, 10.0))
      else Some(0.89976 * pow(ratio, 7.7095) + 0.111)
  }
}
