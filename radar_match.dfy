/**
 * Matching a saved batch against the radar profiles: rewind the batch to the
 * times its devices were last seen before this batch, keep the profiles that
 * are active and cooled down, match their filters, and write one detect row
 * per matched device plus a location and a journal report per match.
 */
module RadarMatch {
  import opened Wrappers
  import Devices
  import LocationHistory

  /** A profile's detection filter; it is evaluated by the filter checker, a parameter here. */
  datatype DetectFilter = DetectFilter(description: string)

  datatype RadarProfile = RadarProfile(
    id: Option<int>,
    name: string,
    isActive: bool,
    detectFilter: Option<DetectFilter>,
    cooldownMs: Option<int>)

  /** One row of the profile-detect table. */
  datatype ProfileDetect = ProfileDetect(id: Option<int>, profileId: int, triggerTime: int, deviceAddress: string)

  datatype ProfileResult = ProfileResult(profile: RadarProfile, matched: seq<Devices.DeviceData>)

  /** `JournalEntry.Report.ProfileReport`. */
  datatype ProfileReport = ProfileReport(profileId: int, deviceAddresses: seq<string>,
                                         location: Option<LocationHistory.LocationModel>)

  // ---------------------------------------------------------------------------
  // Rewinding the batch to the pre-merge times
  // ---------------------------------------------------------------------------

  /** A contact's time: its hash's pre-merge time from the handle, else the device's. */
  function AdjustContact(h: Devices.SavedDeviceHandle, c: Devices.AppleContact): (r: Devices.AppleContact)
    ensures r.sha256 == c.sha256
    ensures h.airdrop.Some? && c.sha256 in h.airdrop.value.contactShaToPreviouslySeenAtTime ==>
      r.lastDetectionTimeMs == h.airdrop.value.contactShaToPreviouslySeenAtTime[c.sha256]
    ensures !(h.airdrop.Some? && c.sha256 in h.airdrop.value.contactShaToPreviouslySeenAtTime) ==>
      r.lastDetectionTimeMs == h.previouslySeenAtTime
  {
    var original := if h.airdrop.Some? && c.sha256 in h.airdrop.value.contactShaToPreviouslySeenAtTime
                    then Some(h.airdrop.value.contactShaToPreviouslySeenAtTime[c.sha256]) else None;
    c.(lastDetectionTimeMs := original.GetOr(h.previouslySeenAtTime))
  }

  function AdjustContacts(h: Devices.SavedDeviceHandle, cs: seq<Devices.AppleContact>): (r: seq<Devices.AppleContact>)
    ensures |r| == |cs| && forall i :: 0 <= i < |cs| ==> r[i] == AdjustContact(h, cs[i])
  {
    seq(|cs|, i requires 0 <= i < |cs| => AdjustContact(h, cs[i]))
  }

  /**
   * The handle's device with its pre-merge detection time and pre-merge contact
   * times: it differs from the handle's device only in its last detection time
   * and its contacts' times; every contact keeps its hash and gets the handle's
   * pre-merge time for it, else the device's.
   */
  function AdjustDevice(h: Devices.SavedDeviceHandle): (r: Devices.DeviceData)
    ensures r.lastDetectTimeMs == h.previouslySeenAtTime
    ensures r.(lastDetectTimeMs := h.device.lastDetectTimeMs, manufacturerInfo := h.device.manufacturerInfo) == h.device
    ensures r.manufacturerInfo.None? <==> h.device.manufacturerInfo.None?
    ensures r.manufacturerInfo.Some? ==>
      && r.manufacturerInfo.value.id == h.device.manufacturerInfo.value.id
      && r.manufacturerInfo.value.name == h.device.manufacturerInfo.value.name
      && (r.manufacturerInfo.value.airdrop.None? <==> h.device.manufacturerInfo.value.airdrop.None?)
      && (r.manufacturerInfo.value.airdrop.Some? ==>
            var before := h.device.manufacturerInfo.value.airdrop.value.contacts;
            var after := r.manufacturerInfo.value.airdrop.value.contacts;
            && |after| == |before|
            && forall i :: 0 <= i < |before| ==>
                 && after[i].sha256 == before[i].sha256
                 && after[i].lastDetectionTimeMs ==
                      (if h.airdrop.Some? && before[i].sha256 in h.airdrop.value.contactShaToPreviouslySeenAtTime
                       then h.airdrop.value.contactShaToPreviouslySeenAtTime[before[i].sha256]
                       else h.previouslySeenAtTime))
  {
    var d := h.device;
    d.(lastDetectTimeMs := h.previouslySeenAtTime,
       manufacturerInfo :=
         if d.manufacturerInfo.None? then None
         else
           var info := d.manufacturerInfo.value;
           Some(info.(airdrop :=
             if info.airdrop.None? then None
             else Some(info.airdrop.value.(contacts := AdjustContacts(h, info.airdrop.value.contacts))))))
  }

  function AdjustBatch(batch: seq<Devices.SavedDeviceHandle>): (r: seq<Devices.DeviceData>)
    ensures |r| == |batch| && forall i :: 0 <= i < |batch| ==> r[i] == AdjustDevice(batch[i])
  {
    seq(|batch|, i requires 0 <= i < |batch| => AdjustDevice(batch[i]))
  }

  // ---------------------------------------------------------------------------
  // Cooldown
  // ---------------------------------------------------------------------------

  /** The latest trigger time among a profile's detect rows. */
  function LatestTrigger(detects: seq<ProfileDetect>, profileId: int): (r: Option<int>)
    ensures r.None? <==> forall i :: 0 <= i < |detects| ==> detects[i].profileId != profileId
    ensures r.Some? ==> forall i :: 0 <= i < |detects| && detects[i].profileId == profileId ==>
      detects[i].triggerTime <= r.value
    ensures r.Some? ==>
      exists i :: 0 <= i < |detects| && detects[i].profileId == profileId && detects[i].triggerTime == r.value
  {
    if detects == [] then None
    else
      var prev := LatestTrigger(detects[..|detects| - 1], profileId);
      var last := detects[|detects| - 1];
      if last.profileId != profileId then prev
      else if prev.Some? && prev.value > last.triggerTime then prev
      else Some(last.triggerTime)
  }

  /**
   * `isCooledDown`: no positive cooldown, no id or no earlier detect means
   * cooled down; otherwise strictly more than the cooldown must have passed.
   */
  function IsCooledDown(profile: RadarProfile, detects: seq<ProfileDetect>, now: int): (r: bool)
    ensures profile.cooldownMs.None? || profile.cooldownMs.value <= 0 || profile.id.None? ==> r
    ensures profile.cooldownMs.Some? && profile.cooldownMs.value > 0 && profile.id.Some? ==>
      (r <==> forall i :: 0 <= i < |detects| && detects[i].profileId == profile.id.value ==>
                now - detects[i].triggerTime > profile.cooldownMs.value)
  {
    if profile.cooldownMs.None? || profile.cooldownMs.value <= 0 then true
    else if profile.id.None? then true
    else
      var last := LatestTrigger(detects, profile.id.value);
      if last.None? then true
      else now - last.value > profile.cooldownMs.value
  }

  // ---------------------------------------------------------------------------
  // Matching
  // ---------------------------------------------------------------------------

  /** `r` is `s` with some elements left out, in the same order. */
  predicate SubsequenceOf<T(==)>(r: seq<T>, s: seq<T>)
    decreases |s|
  {
    if r == [] then true
    else if s == [] then false
    else (r[0] == s[0] && SubsequenceOf(r[1..], s[1..])) || SubsequenceOf(r, s[1..])
  }

  /** The devices passing the profile's filter, in batch order; none without a filter. */
  function MatchDevices(devices: seq<Devices.DeviceData>, filter: Option<DetectFilter>,
                        check: (Devices.DeviceData, DetectFilter) -> bool): (r: seq<Devices.DeviceData>)
    ensures SubsequenceOf(r, devices)
    ensures forall d :: d in r <==> d in devices && filter.Some? && check(d, filter.value)
    ensures filter.None? ==> r == []
  {
    if devices == [] then []
    else
      var rest := MatchDevices(devices[1..], filter, check);
      assert forall d :: d in devices <==> d == devices[0] || d in devices[1..];
      if filter.Some? && check(devices[0], filter.value) then
        assert ([devices[0]] + rest)[1..] == rest;
        [devices[0]] + rest
      else
        assert rest == [] || SubsequenceOf(rest, devices[1..]);
        rest
  }

  /** `checkProfile`: a result only for an active, cooled-down profile that matches some device. */
  function CheckProfile(profile: RadarProfile, devices: seq<Devices.DeviceData>, detects: seq<ProfileDetect>, now: int,
                        check: (Devices.DeviceData, DetectFilter) -> bool): (r: Option<ProfileResult>)
    ensures r.Some? <==>
      profile.isActive && IsCooledDown(profile, detects, now) && MatchDevices(devices, profile.detectFilter, check) != []
    ensures r.Some? ==> r.value == ProfileResult(profile, MatchDevices(devices, profile.detectFilter, check))
  {
    if !(profile.isActive && IsCooledDown(profile, detects, now)) then None
    else
      var matched := MatchDevices(devices, profile.detectFilter, check);
      if matched == [] then None else Some(ProfileResult(profile, matched))
  }

  /** `allProfiles.map { checkProfile(...) }.filterNotNull()`. */
  function ProfileResults(profiles: seq<RadarProfile>, devices: seq<Devices.DeviceData>, detects: seq<ProfileDetect>,
                          now: int, check: (Devices.DeviceData, DetectFilter) -> bool): (r: seq<ProfileResult>)
    ensures |r| <= |profiles|
    ensures forall res :: res in r ==>
      && res.profile in profiles
      && res.profile.isActive && IsCooledDown(res.profile, detects, now)
      && res.matched != [] && res.matched == MatchDevices(devices, res.profile.detectFilter, check)
    ensures forall p :: p in profiles && CheckProfile(p, devices, detects, now, check).Some? ==>
      ProfileResult(p, MatchDevices(devices, p.detectFilter, check)) in r
  {
    if profiles == [] then []
    else
      var rest := ProfileResults(profiles[1..], devices, detects, now, check);
      assert forall p :: p in profiles <==> p == profiles[0] || p in profiles[1..];
      match CheckProfile(profiles[0], devices, detects, now, check)
      case Some(res) => [res] + rest
      case None => rest
  }

  // ---------------------------------------------------------------------------
  // Reports
  // ---------------------------------------------------------------------------

  /** `saveReport`'s detect rows: one per matched device at one trigger time, none without a profile id. */
  function DetectRows(result: ProfileResult, detectTime: int): (r: seq<ProfileDetect>)
    ensures result.profile.id.None? ==> r == []
    ensures result.profile.id.Some? ==>
      && |r| == |result.matched|
      && forall i :: 0 <= i < |r| ==>
           r[i] == ProfileDetect(None, result.profile.id.value, detectTime, result.matched[i].address)
  {
    if result.profile.id.None? then []
    else
      seq(|result.matched|, i requires 0 <= i < |result.matched| =>
        ProfileDetect(None, result.profile.id.value, detectTime, result.matched[i].address))
  }

  /** The rows, locations and journal reports written for `results`, result by result. */
  function AllDetectRows(results: seq<ProfileResult>, detectTime: int): seq<ProfileDetect>
  {
    if results == [] then []
    else AllDetectRows(results[..|results| - 1], detectTime) + DetectRows(results[|results| - 1], detectTime)
  }

  /** The location `saveReport` stores for one result. */
  function LocationFor(location: Option<LocationHistory.LocationModel>, detectTime: int): seq<LocationHistory.LocationModel>
  {
    if location.Some? then [location.value.(time := detectTime)] else []
  }

  /** The journal report `saveReport` writes for one result: none without a profile id. */
  function ReportFor(res: ProfileResult, location: Option<LocationHistory.LocationModel>, reportTime: int)
    : (r: seq<ProfileReport>)
    ensures res.profile.id.None? <==> r == []
    ensures r != [] ==>
      && |r| == 1 && r[0].profileId == res.profile.id.value
      && r[0].deviceAddresses == Devices.Addresses(res.matched)
      && (r[0].location.Some? <==> location.Some?)
  {
    if res.profile.id.None? then []
    else [ProfileReport(res.profile.id.value, Devices.Addresses(res.matched),
                        if location.Some? then Some(location.value.(time := reportTime)) else None)]
  }

  function ReportLocations(results: seq<ProfileResult>, location: Option<LocationHistory.LocationModel>, detectTime: int)
    : seq<LocationHistory.LocationModel>
  {
    if results == [] then []
    else ReportLocations(results[..|results| - 1], location, detectTime) + LocationFor(location, detectTime)
  }

  function Reports(results: seq<ProfileResult>, location: Option<LocationHistory.LocationModel>, reportTime: int)
    : seq<ProfileReport>
  {
    if results == [] then []
    else Reports(results[..|results| - 1], location, reportTime) + ReportFor(results[|results| - 1], location, reportTime)
  }

  /**
   * Once a profile with an id has fired at `detectTime`, it is not cooled down
   * again until strictly more than its cooldown has passed since then.
   */
  lemma ReportStartsCooldown(detects: seq<ProfileDetect>, result: ProfileResult, detectTime: int, t: int)
    requires result.profile.id.Some? && result.matched != []
    requires result.profile.cooldownMs.Some? && result.profile.cooldownMs.value > 0
    requires t - detectTime <= result.profile.cooldownMs.value
    ensures !IsCooledDown(result.profile, detects + DetectRows(result, detectTime), t)
  {
    var all := detects + DetectRows(result, detectTime);
    assert all[|detects|] == DetectRows(result, detectTime)[0];
  }

  /** Every matched device of every reported result gets a detect row, and only those. */
  lemma {:induction false} AllDetectRowsCoverMatches(results: seq<ProfileResult>, detectTime: int)
    ensures forall row :: row in AllDetectRows(results, detectTime) <==>
      exists res :: res in results && res.profile.id.Some? && row.profileId == res.profile.id.value
        && row == ProfileDetect(None, res.profile.id.value, detectTime, row.deviceAddress)
        && row.deviceAddress in Devices.Addresses(res.matched)
  {
    if results != [] {
      var init := results[..|results| - 1];
      var res := results[|results| - 1];
      AllDetectRowsCoverMatches(init, detectTime);
      assert forall x :: x in results <==> x in init || x == res;
      if res.profile.id.Some? {
        var rows := DetectRows(res, detectTime);
        forall a | a in Devices.Addresses(res.matched)
          ensures ProfileDetect(None, res.profile.id.value, detectTime, a) in rows
        {
          var i :| 0 <= i < |res.matched| && Devices.Addresses(res.matched)[i] == a;
          assert rows[i] == ProfileDetect(None, res.profile.id.value, detectTime, a);
        }
        forall row | row in rows
          ensures row.deviceAddress in Devices.Addresses(res.matched)
        {
          var i :| 0 <= i < |rows| && rows[i] == row;
          assert Devices.Addresses(res.matched)[i] == row.deviceAddress;
        }
      }
    }
  }

  /** Writing the reports of one more result extends what was written by exactly its own rows. */
  lemma ReportsPrefixStep(results: seq<ProfileResult>, i: nat, location: Option<LocationHistory.LocationModel>, now: int)
    requires i < |results|
    ensures AllDetectRows(results[..i + 1], now) == AllDetectRows(results[..i], now) + DetectRows(results[i], now)
    ensures ReportLocations(results[..i + 1], location, now) == ReportLocations(results[..i], location, now) + LocationFor(location, now)
    ensures Reports(results[..i + 1], location, now) == Reports(results[..i], location, now) + ReportFor(results[i], location, now)
  {
    assert results[..i + 1][..i] == results[..i];
  }

  lemma AppendAssociative<T>(a: seq<T>, b: seq<T>, c: seq<T>)
    ensures (a + b) + c == a + (b + c)
  {
  }

  // ---------------------------------------------------------------------------
  // The interactor
  // ---------------------------------------------------------------------------

  /** `CheckBatchForRadarMatchesInteractor` with the rows it writes. */
  class CheckBatchForRadarMatches {
    /** The profile-detect table. */
    var profileDetects: seq<ProfileDetect>
    var savedLocations: seq<LocationHistory.LocationModel>
    var journal: seq<ProfileReport>

    constructor(profileDetects: seq<ProfileDetect>)
      ensures this.profileDetects == profileDetects && savedLocations == [] && journal == []
    {
      this.profileDetects := profileDetects;
      savedLocations := [];
      journal := [];
    }

    /** `saveReport` for one result. */
    method SaveReport(result: ProfileResult, location: Option<LocationHistory.LocationModel>, detectTime: int)
      modifies this
      ensures profileDetects == old(profileDetects) + DetectRows(result, detectTime)
      ensures savedLocations == old(savedLocations) + LocationFor(location, detectTime)
      ensures journal == old(journal) + ReportFor(result, location, detectTime)
    {
      var deviceDetects := DetectRows(result, detectTime);
      profileDetects := profileDetects + deviceDetects;
      if location.Some? {
        savedLocations := savedLocations + [location.value.(time := detectTime)];
      }
      if result.profile.id.None? {
        return;
      }
      journal := journal + [ProfileReport(result.profile.id.value, Devices.Addresses(result.matched),
                                          if location.Some? then Some(location.value.(time := detectTime)) else None)];
    }

    /**
     * `execute`: every profile is judged against the detect rows as they were
     * before this batch, then the reports are written result by result.
     */
    method Execute(batch: seq<Devices.SavedDeviceHandle>, profiles: seq<RadarProfile>,
                   check: (Devices.DeviceData, DetectFilter) -> bool,
                   location: Option<LocationHistory.LocationModel>, now: int)
      returns (results: seq<ProfileResult>)
      modifies this
      ensures results == ProfileResults(profiles, AdjustBatch(batch), old(profileDetects), now, check)
      ensures profileDetects == old(profileDetects) + AllDetectRows(results, now)
      ensures savedLocations == old(savedLocations) + ReportLocations(results, location, now)
      ensures journal == old(journal) + Reports(results, location, now)
    {
      var adjustedDevices := AdjustBatch(batch);
      results := ProfileResults(profiles, adjustedDevices, profileDetects, now, check);
      SaveReports(results, location, now);
    }

    /** `result.forEach { saveReport(it) }`. */
    method SaveReports(results: seq<ProfileResult>, location: Option<LocationHistory.LocationModel>, now: int)
      modifies this
      ensures profileDetects == old(profileDetects) + AllDetectRows(results, now)
      ensures savedLocations == old(savedLocations) + ReportLocations(results, location, now)
      ensures journal == old(journal) + Reports(results, location, now)
    {
      var i := 0;
      while i < |results|
        invariant 0 <= i <= |results|
        invariant profileDetects == old(profileDetects) + AllDetectRows(results[..i], now)
        invariant savedLocations == old(savedLocations) + ReportLocations(results[..i], location, now)
        invariant journal == old(journal) + Reports(results[..i], location, now)
      {
        ReportsPrefixStep(results, i, location, now);
        AppendAssociative(old(profileDetects), AllDetectRows(results[..i], now), DetectRows(results[i], now));
        AppendAssociative(old(savedLocations), ReportLocations(results[..i], location, now), LocationFor(location, now));
        AppendAssociative(old(journal), Reports(results[..i], location, now), ReportFor(results[i], location, now));
        SaveReport(results[i], location, now);
        i := i + 1;
      }
      assert results[..i] == results;
    }
  }
}
