/**
 * The deep-analysis planner: after each scan batch it picks the devices whose
 * GATT metadata should be (re)read, fetches them strongest signal first across
 * a bounded number of parallel shards, writes the fetched devices back into the
 * batch and any changed metadata into the store, and backs off for a while
 * when most connections fail.
 *
 * The outcome of each single fetch (the GATT session, its 8-second per-device
 * timeout and the 30-second total timeout) is a parameter `outcome`.
 */
module FetchPlanner {
  import opened Wrappers
  import Batches
  import Metadata
  import Devices
  import DeviceStore

  const PARALLEL_BATCH_COUNT: int := 7
  const MIN_PARALLEL_CONNECTIONS: int := 2
  const MAX_PARALLEL_CONNECTIONS: int := 15
  const MINUTE_MS: int := 60 * 1000
  const CHECK_INTERVAL_PER_DEVICE_MS: int := 10 * MINUTE_MS
  const JOURNAL_REPORT_COOLDOWN_MS: int := 30 * MINUTE_MS
  const MIN_COOLDOWN_DURATION_MS: int := 1 * MINUTE_MS

  /** How one device's fetch ended, as seen by the planner. */
  datatype FetchRun =
    | Finished(metadata: Option<Metadata.DeviceMetadata>)  // the GATT fetch returned
    | ConnectionError                                     // a Bluetooth connection error was thrown
    | TimedOut                                            // the per-device timeout fired first
    | MaxConnectionsHit                                   // the fetch threw "max GATT connections reached"
    | Abandoned                                           // the total timeout fired before it finished

  datatype FetchFeedback = TIMEOUT | ERROR | SUCCESS

  datatype DeviceFetchFeedback = DeviceFetchFeedback(device: Option<Devices.DeviceData>, feedback: FetchFeedback)

  /** The journal error entry: too many errors during deep analysis, with the counts. */
  datatype JournalReport = TooManyErrors(errors: int, timeouts: int, updated: int, updateNeeded: int)

  /** A planner call either returns the batch or is aborted by an uncaught exception. */
  datatype PlannerResult = Planned(handles: seq<Devices.SavedDeviceHandle>) | Aborted

  // ---------------------------------------------------------------------------
  // Eligibility and ordering
  // ---------------------------------------------------------------------------

  /**
   * `checkIfMetadataUpdateNeeded`: only connectable devices, and among them
   * new devices, devices without metadata, and devices not seen for 10 minutes.
   */
  function CheckIfMetadataUpdateNeeded(h: Devices.SavedDeviceHandle, now: int): (r: bool)
    ensures !h.device.isConnectable ==> !r
    ensures h.device.isConnectable ==>
      (r <==> h.device.detectCount == 1
              || Metadata.IsNullOrEmpty(h.device.metadata)
              || now - h.previouslySeenAtTime >= CHECK_INTERVAL_PER_DEVICE_MS)
  {
    if !h.device.isConnectable then false
    else
      var recentlyChecked := now - h.previouslySeenAtTime < CHECK_INTERVAL_PER_DEVICE_MS;
      h.device.detectCount == 1 || Metadata.IsNullOrEmpty(h.device.metadata) || !recentlyChecked
  }

  /** The devices of the eligible handles, in batch order. */
  function EligibleDevices(hs: seq<Devices.SavedDeviceHandle>, now: int): (r: seq<Devices.DeviceData>)
    ensures |r| <= |hs|
    ensures forall d :: d in r ==> exists h :: h in hs && h.device == d && CheckIfMetadataUpdateNeeded(h, now)
    ensures forall h :: h in hs && CheckIfMetadataUpdateNeeded(h, now) ==> h.device in r
  {
    if hs == [] then []
    else if CheckIfMetadataUpdateNeeded(hs[0], now) then [hs[0].device] + EligibleDevices(hs[1..], now)
    else EligibleDevices(hs[1..], now)
  }

  /** Kotlin's ordering of `Int?`: null is smallest. */
  predicate RssiAtMost(a: Option<int>, b: Option<int>)
  {
    a.None? || (b.Some? && a.value <= b.value)
  }

  predicate Ascending(s: seq<Devices.DeviceData>)
  {
    forall i, j :: 0 <= i < j < |s| ==> RssiAtMost(s[i].rssi, s[j].rssi)
  }

  predicate Descending(s: seq<Devices.DeviceData>)
  {
    forall i, j :: 0 <= i < j < |s| ==> RssiAtMost(s[j].rssi, s[i].rssi)
  }

  /** A device placed in front of an ascending run it does not exceed keeps the run ascending. */
  lemma AscendingCons(x: Devices.DeviceData, s: seq<Devices.DeviceData>)
    requires Ascending(s)
    requires forall i :: 0 <= i < |s| ==> RssiAtMost(x.rssi, s[i].rssi)
    ensures Ascending([x] + s)
  {
    var r := [x] + s;
    forall i, j | 0 <= i < j < |r| ensures RssiAtMost(r[i].rssi, r[j].rssi) {
      if i == 0 {
        assert r[j] == s[j - 1];
      } else {
        assert r[i] == s[i - 1] && r[j] == s[j - 1];
      }
    }
  }

  /** A lower bound of every element of `tail` and of `d` bounds every element of a permutation of both. */
  lemma BoundCarriesOver(x: Option<int>, tail: seq<Devices.DeviceData>, d: Devices.DeviceData, r: seq<Devices.DeviceData>)
    requires multiset(r) == multiset(tail) + multiset{d}
    requires forall i :: 0 <= i < |tail| ==> RssiAtMost(x, tail[i].rssi)
    requires RssiAtMost(x, d.rssi)
    ensures forall i :: 0 <= i < |r| ==> RssiAtMost(x, r[i].rssi)
  {
    forall i | 0 <= i < |r| ensures RssiAtMost(x, r[i].rssi) {
      assert r[i] in multiset(r);
      if r[i] != d {
        assert r[i] in multiset(tail);
        var m :| 0 <= m < |tail| && tail[m] == r[i];
      }
    }
  }

  /** The head of an ascending run bounds the run. */
  lemma HeadIsLowest(sorted: seq<Devices.DeviceData>, x: Option<int>)
    requires Ascending(sorted) && sorted != [] && RssiAtMost(x, sorted[0].rssi)
    ensures forall i :: 0 <= i < |sorted| ==> RssiAtMost(x, sorted[i].rssi)
  {
    forall i | 0 < i < |sorted| ensures RssiAtMost(x, sorted[i].rssi) {
      assert RssiAtMost(sorted[0].rssi, sorted[i].rssi);
    }
  }

  /** Insert after every element whose signal is not stronger: later equal elements stay later. */
  function InsertByRssi(sorted: seq<Devices.DeviceData>, d: Devices.DeviceData): (r: seq<Devices.DeviceData>)
    requires Ascending(sorted)
    ensures Ascending(r)
    ensures multiset(r) == multiset(sorted) + multiset{d}
  {
    if sorted == [] then [d]
    else if RssiAtMost(sorted[0].rssi, d.rssi) then
      var rest := InsertByRssi(sorted[1..], d);
      assert sorted == [sorted[0]] + sorted[1..];
      HeadIsLowest(sorted, sorted[0].rssi);
      assert forall i :: 0 <= i < |sorted[1..]| ==> sorted[1..][i] == sorted[i + 1];
      BoundCarriesOver(sorted[0].rssi, sorted[1..], d, rest);
      AscendingCons(sorted[0], rest);
      [sorted[0]] + rest
    else
      HeadIsLowest(sorted, d.rssi);
      AscendingCons(d, sorted);
      [d] + sorted
  }

  /** `sortedBy { it.rssi }`: a stable sort, weakest signal (or none) first. */
  function SortByRssi(s: seq<Devices.DeviceData>): (r: seq<Devices.DeviceData>)
    ensures Ascending(r)
    ensures multiset(r) == multiset(s)
  {
    if s == [] then []
    else
      assert s == s[..|s| - 1] + [s[|s| - 1]];
      InsertByRssi(SortByRssi(s[..|s| - 1]), s[|s| - 1])
  }

  /** The devices whose signal is `v`, in their order in `s`. */
  function WithRssi(s: seq<Devices.DeviceData>, v: Option<int>): seq<Devices.DeviceData>
  {
    if s == [] then [] else (if s[0].rssi == v then [s[0]] else []) + WithRssi(s[1..], v)
  }

  lemma {:induction false} WithRssiNone(s: seq<Devices.DeviceData>, v: Option<int>)
    requires forall i :: 0 <= i < |s| ==> s[i].rssi != v
    ensures WithRssi(s, v) == []
    decreases |s|
  {
    if s != [] {
      WithRssiNone(s[1..], v);
    }
  }

  lemma {:induction false} WithRssiAppend(a: seq<Devices.DeviceData>, b: seq<Devices.DeviceData>, v: Option<int>)
    ensures WithRssi(a + b, v) == WithRssi(a, v) + WithRssi(b, v)
    decreases |a|
  {
    if a == [] {
      assert a + b == b;
    } else {
      WithRssiAppend(a[1..], b, v);
      assert a + b == [a[0]] + (a[1..] + b);
      ConsWithRssi(a, a[1..] + b, a + b, WithRssi(b, v), v);
    }
  }

  /** Inserting `d` puts it after every device of equal signal already there. */
  lemma {:induction false} InsertByRssiStable(sorted: seq<Devices.DeviceData>, d: Devices.DeviceData, v: Option<int>)
    requires Ascending(sorted)
    ensures WithRssi(InsertByRssi(sorted, d), v) == WithRssi(sorted, v) + (if d.rssi == v then [d] else [])
    decreases |sorted|
  {
    if sorted != [] {
      if RssiAtMost(sorted[0].rssi, d.rssi) {
        InsertByRssiStable(sorted[1..], d, v);
        assert InsertByRssi(sorted, d) == [sorted[0]] + InsertByRssi(sorted[1..], d);
        ConsWithRssi(sorted, InsertByRssi(sorted[1..], d), InsertByRssi(sorted, d), if d.rssi == v then [d] else [], v);
      } else {
        InsertInFrontStable(sorted, d, v);
      }
    }
  }

  /** Keeping a head in front of a run keeps it in front of that run's elements of any one strength. */
  lemma ConsWithRssi(sorted: seq<Devices.DeviceData>, rest: seq<Devices.DeviceData>, r: seq<Devices.DeviceData>, t: seq<Devices.DeviceData>, v: Option<int>)
    requires sorted != [] && r == [sorted[0]] + rest
    requires WithRssi(rest, v) == WithRssi(sorted[1..], v) + t
    ensures WithRssi(r, v) == WithRssi(sorted, v) + t
  {
    assert r[0] == sorted[0] && r[1..] == rest;
    if sorted[0].rssi == v {
      assert [sorted[0]] + (WithRssi(sorted[1..], v) + t) == ([sorted[0]] + WithRssi(sorted[1..], v)) + t;
    } else {
      assert [] + WithRssi(rest, v) == WithRssi(rest, v);
      assert [] + WithRssi(sorted[1..], v) == WithRssi(sorted[1..], v);
    }
  }

  lemma InsertInFrontStable(sorted: seq<Devices.DeviceData>, d: Devices.DeviceData, v: Option<int>)
    requires Ascending(sorted) && sorted != [] && !RssiAtMost(sorted[0].rssi, d.rssi)
    ensures WithRssi(InsertByRssi(sorted, d), v) == WithRssi(sorted, v) + (if d.rssi == v then [d] else [])
  {
    forall i | 0 <= i < |sorted| ensures sorted[i].rssi != d.rssi {
      assert RssiAtMost(sorted[0].rssi, sorted[i].rssi);
    }
    WithRssiNone(sorted, d.rssi);
    assert InsertByRssi(sorted, d) == [d] + sorted;
    assert ([d] + sorted)[1..] == sorted;
  }

  /** `sortedBy` is stable: devices of equal signal keep their relative order. */
  lemma {:induction false} SortByRssiStable(s: seq<Devices.DeviceData>, v: Option<int>)
    ensures WithRssi(SortByRssi(s), v) == WithRssi(s, v)
    decreases |s|
  {
    if s != [] {
      var init, last := s[..|s| - 1], s[|s| - 1];
      SortByRssiStable(init, v);
      InsertStep(init, last, SortByRssi(init), v);
      assert init + [last] == s;
    }
  }

  lemma InsertStep(init: seq<Devices.DeviceData>, last: Devices.DeviceData, sortedInit: seq<Devices.DeviceData>,
                   v: Option<int>)
    requires Ascending(sortedInit) && WithRssi(sortedInit, v) == WithRssi(init, v)
    ensures WithRssi(InsertByRssi(sortedInit, last), v) == WithRssi(init + [last], v)
  {
    InsertByRssiStable(sortedInit, last, v);
    WithRssiAppend(init, [last], v);
    assert WithRssi([last], v) == if last.rssi == v then [last] else [];
  }

  function Reverse<T>(s: seq<T>): (r: seq<T>)
    ensures |r| == |s|
    ensures forall i :: 0 <= i < |s| ==> r[i] == s[|s| - 1 - i]
  {
    if s == [] then [] else Reverse(s[1..]) + [s[0]]
  }

  lemma {:induction false} ReverseMultiset<T>(s: seq<T>)
    ensures multiset(Reverse(s)) == multiset(s)
    decreases |s|
  {
    if s != [] {
      ReverseMultiset(s[1..]);
      assert s == [s[0]] + s[1..];
    }
  }

  /** `sortedBy { it.rssi }.reversed()`: strongest signal first, devices without a signal last. */
  function ByRssiDescending(s: seq<Devices.DeviceData>): (r: seq<Devices.DeviceData>)
    ensures Descending(r)
    ensures multiset(r) == multiset(s)
  {
    var sorted := SortByRssi(s);
    ReverseMultiset(sorted);
    Reverse(sorted)
  }

  lemma {:induction false} WithRssiReverse(s: seq<Devices.DeviceData>, v: Option<int>)
    ensures WithRssi(Reverse(s), v) == Reverse(WithRssi(s, v))
    decreases |s|
  {
    if s != [] {
      WithRssiReverse(s[1..], v);
      WithRssiAppend(Reverse(s[1..]), [s[0]], v);
      assert WithRssi([s[0]], v) == if s[0].rssi == v then [s[0]] else [];
      var w := WithRssi(s, v);
      if s[0].rssi == v {
        assert w[1..] == WithRssi(s[1..], v);
      } else {
        assert w == WithRssi(s[1..], v);
      }
    }
  }

  /**
   * `sortedBy { it.rssi }.reversed()`: devices of equal signal come out in the
   * reverse of their batch order.
   */
  lemma ByRssiDescendingOrder(s: seq<Devices.DeviceData>, v: Option<int>)
    ensures WithRssi(ByRssiDescending(s), v) == Reverse(WithRssi(s, v))
  {
    SortByRssiStable(s, v);
    WithRssiReverse(SortByRssi(s), v);
  }

  /** The devices to fetch, strongest signal first: exactly the eligible ones, each as often as in the batch. */
  function MetadataNeeded(hs: seq<Devices.SavedDeviceHandle>, now: int): (r: seq<Devices.DeviceData>)
    ensures Descending(r)
    ensures multiset(r) == multiset(EligibleDevices(hs, now))
  {
    ByRssiDescending(EligibleDevices(hs, now))
  }

  /**
   * The order in which fetch feedback is collected: the non-empty round-robin
   * shards one after another.
   */
  function FetchOrder(metadataNeeded: seq<Devices.DeviceData>, k: nat): (r: seq<Devices.DeviceData>)
    requires k > 0
    ensures multiset(r) == multiset(metadataNeeded)
  {
    Batches.FlattenNonEmpty(Batches.SplitToBatchesEqual(metadataNeeded, k));
    Batches.SplitToBatchesEqualPermutation(metadataNeeded, k);
    Batches.Flatten(Batches.NonEmpty(Batches.SplitToBatchesEqual(metadataNeeded, k)))
  }

  /** Only eligible devices, and so only connectable ones, are ever fetched. */
  lemma FetchedDevicesAreEligible(hs: seq<Devices.SavedDeviceHandle>, now: int, k: nat, d: Devices.DeviceData)
    requires k > 0 && d in FetchOrder(MetadataNeeded(hs, now), k)
    ensures d.isConnectable
    ensures exists h :: h in hs && h.device == d && CheckIfMetadataUpdateNeeded(h, now)
  {
    assert d in multiset(FetchOrder(MetadataNeeded(hs, now), k));
    assert d in multiset(MetadataNeeded(hs, now));
    assert multiset(MetadataNeeded(hs, now)) == multiset(EligibleDevices(hs, now));
    assert d in EligibleDevices(hs, now);
    var h :| h in hs && h.device == d && CheckIfMetadataUpdateNeeded(h, now);
  }

  lemma ShardOfDescending(s: seq<Devices.DeviceData>, k: nat, j: nat)
    requires k > 0 && Descending(s)
    ensures Descending(Batches.Shard(s, j, k))
  {
    var shard := Batches.Shard(s, j, k);
    forall m1, m2 | 0 <= m1 < m2 < |shard| ensures RssiAtMost(shard[m2].rssi, shard[m1].rssi) {
      Batches.ShardAt(s, j, k, m1);
      Batches.ShardAt(s, j, k, m2);
      Batches.MulStrictlyIncreasing(m1, m2, k);
    }
  }

  /** Each parallel shard is worked through strongest signal first. */
  lemma ShardsStrongestFirst(hs: seq<Devices.SavedDeviceHandle>, now: int, k: nat, j: nat)
    requires j < k
    ensures Descending(Batches.SplitToBatchesEqual(MetadataNeeded(hs, now), k)[j])
  {
    var s := MetadataNeeded(hs, now);
    assert Batches.SplitToBatchesEqual(s, k)[j] == Batches.Shard(s, j, k);
    ShardOfDescending(s, k, j);
  }

  // ---------------------------------------------------------------------------
  // Fetching and feedback
  // ---------------------------------------------------------------------------

  /**
   * `fetchDevice`: a finished fetch is a SUCCESS, carrying the device with its
   * new metadata when there is some; a connection error is an ERROR and a
   * per-device timeout a TIMEOUT. An abandoned fetch yields no feedback.
   */
  function FetchDevice(d: Devices.DeviceData, run: FetchRun): (r: Option<DeviceFetchFeedback>)
    requires !run.MaxConnectionsHit?
    ensures r.None? <==> run.Abandoned?
    ensures r.Some? && r.value.device.Some? ==> run.Finished? && r.value.device.value == d.(metadata := run.metadata)
    ensures r.Some? ==> (r.value.feedback == SUCCESS <==> run.Finished?)
    ensures r.Some? ==> (r.value.feedback == ERROR <==> run.ConnectionError?)
    ensures run.Finished? ==> r.Some? && r.value.device.Some? == run.metadata.Some?
    ensures run.Finished? && run.metadata.Some? ==> r.value.device == Some(d.(metadata := run.metadata))
  {
    match run
    case Finished(m) =>
      Some(DeviceFetchFeedback(if m.Some? then Some(d.(metadata := m)) else None, SUCCESS))
    case ConnectionError => Some(DeviceFetchFeedback(None, ERROR))
    case TimedOut => Some(DeviceFetchFeedback(None, TIMEOUT))
    case Abandoned => None
  }

  /** A "max GATT connections" failure is not caught: it aborts the whole planner call. */
  predicate Aborts(order: seq<Devices.DeviceData>, outcome: Devices.DeviceData -> FetchRun)
    ensures Aborts(order, outcome) <==> exists i :: 0 <= i < |order| && outcome(order[i]).MaxConnectionsHit?
    ensures order == [] ==> !Aborts(order, outcome)
  {
    exists d :: d in order && outcome(d).MaxConnectionsHit?
  }

  /** `fetchAllDevices`: the feedback of every fetch that finished, in collection order. */
  function FetchAllDevices(order: seq<Devices.DeviceData>, outcome: Devices.DeviceData -> FetchRun): (r: seq<DeviceFetchFeedback>)
    requires !Aborts(order, outcome)
    ensures |r| <= |order|
    ensures forall fb :: fb in r && fb.device.Some? ==>
      exists d :: d in order && fb.device.value == d.(metadata := fb.device.value.metadata)
  {
    if order == [] then []
    else
      var last := order[|order| - 1];
      var rest := FetchAllDevices(order[..|order| - 1], outcome);
      match FetchDevice(last, outcome(last))
      case None => rest
      case Some(fb) => rest + [fb]
  }

  /** The positions of `order` whose fetch was not abandoned, in increasing order. */
  function KeptIndices(order: seq<Devices.DeviceData>, outcome: Devices.DeviceData -> FetchRun): (idx: seq<nat>)
    ensures forall k :: 0 <= k < |idx| ==> idx[k] < |order| && !outcome(order[idx[k]]).Abandoned?
    ensures forall k, l :: 0 <= k < l < |idx| ==> idx[k] < idx[l]
    ensures forall i :: 0 <= i < |order| && !outcome(order[i]).Abandoned? ==> i in idx
    decreases |order|
  {
    if order == [] then []
    else
      var init := KeptIndices(order[..|order| - 1], outcome);
      assert forall k :: 0 <= k < |init| ==> order[..|order| - 1][init[k]] == order[init[k]];
      if outcome(order[|order| - 1]).Abandoned? then init else init + [|order| - 1]
  }

  /**
   * Feedback `k` is the `fetchDevice` result of the `k`-th fetch that was not
   * abandoned: the feedback keeps the fetch order, one entry per such fetch.
   */
  lemma {:induction false} FetchAllDevicesFeedback(order: seq<Devices.DeviceData>, outcome: Devices.DeviceData -> FetchRun)
    requires !Aborts(order, outcome)
    ensures var r := FetchAllDevices(order, outcome);
      var idx := KeptIndices(order, outcome);
      && |r| == |idx|
      && forall k :: 0 <= k < |r| ==> FetchDevice(order[idx[k]], outcome(order[idx[k]])) == Some(r[k])
    decreases |order|
  {
    if order != [] {
      var init := order[..|order| - 1];
      var last := order[|order| - 1];
      assert !Aborts(init, outcome) by {
        forall i | 0 <= i < |init| ensures !outcome(init[i]).MaxConnectionsHit? {
          assert init[i] == order[i];
        }
      }
      FetchAllDevicesFeedback(init, outcome);
      var idx0 := KeptIndices(init, outcome);
      var rest := FetchAllDevices(init, outcome);
      assert forall k :: 0 <= k < |idx0| ==> init[idx0[k]] == order[idx0[k]];
      var r := FetchAllDevices(order, outcome);
      var idx := KeptIndices(order, outcome);
      if outcome(last).Abandoned? {
        assert idx == idx0 && r == rest;
      } else {
        assert idx == idx0 + [|order| - 1];
        assert r == rest + [FetchDevice(last, outcome(last)).value];
        forall k | 0 <= k < |r| ensures FetchDevice(order[idx[k]], outcome(order[idx[k]])) == Some(r[k]) {
          if k < |rest| {
            assert r[k] == rest[k] && idx[k] == idx0[k];
          }
        }
      }
    }
  }

  /** What `execute` writes back for one fetch: the device with the fetched metadata, when that differs. */
  function SaveOf(d: Devices.DeviceData, run: FetchRun): (r: seq<Devices.DeviceData>)
    ensures |r| <= 1
    ensures r != [] <==> run.Finished? && run.metadata != d.metadata
    ensures r != [] ==> r[0] == d.(metadata := run.metadata) && r[0].address == d.address
  {
    if run.Finished? && run.metadata != d.metadata then [d.(metadata := run.metadata)] else []
  }

  /** The records the fetches of `order` write to the store, in fetch order. */
  function MetadataSaves(order: seq<Devices.DeviceData>, outcome: Devices.DeviceData -> FetchRun): (r: seq<Devices.DeviceData>)
    ensures |r| <= |order|
    decreases |order|
  {
    if order == [] then []
    else MetadataSaves(order[..|order| - 1], outcome) + SaveOf(order[|order| - 1], outcome(order[|order| - 1]))
  }

  /**
   * A record is written exactly for each fetched device whose fetch finished
   * with metadata other than the device's own, and it is that device carrying
   * the fetched metadata (possibly none).
   */
  lemma {:induction false} MetadataSavesSpec(order: seq<Devices.DeviceData>, outcome: Devices.DeviceData -> FetchRun)
    ensures forall s :: s in MetadataSaves(order, outcome) <==>
      exists d :: d in order && outcome(d).Finished? && outcome(d).metadata != d.metadata && s == d.(metadata := outcome(d).metadata)
    decreases |order|
  {
    if order != [] {
      var init := order[..|order| - 1];
      var last := order[|order| - 1];
      MetadataSavesSpec(init, outcome);
      assert order == init + [last];
      forall s | s in MetadataSaves(order, outcome)
        ensures exists d :: d in order && outcome(d).Finished? && outcome(d).metadata != d.metadata
                            && s == d.(metadata := outcome(d).metadata)
      {
        if s !in MetadataSaves(init, outcome) {
          assert s == last.(metadata := outcome(last).metadata);
        }
      }
    }
  }

  /** One more fetch of the fetch order: its feedback and its write-back are appended. */
  lemma FetchPrefixStep(order: seq<Devices.DeviceData>, outcome: Devices.DeviceData -> FetchRun, i: nat)
    requires i < |order|
    requires forall j :: 0 <= j <= i ==> !outcome(order[j]).MaxConnectionsHit?
    ensures !Aborts(order[..i], outcome) && !Aborts(order[..i + 1], outcome)
    ensures FetchAllDevices(order[..i + 1], outcome)
      == match FetchDevice(order[i], outcome(order[i]))
         case None => FetchAllDevices(order[..i], outcome)
         case Some(fb) => FetchAllDevices(order[..i], outcome) + [fb]
    ensures MetadataSaves(order[..i + 1], outcome) == MetadataSaves(order[..i], outcome) + SaveOf(order[i], outcome(order[i]))
  {
    assert order[..i + 1][..i] == order[..i];
    assert forall j :: 0 <= j < i + 1 ==> order[..i + 1][j] == order[j];
  }

  /** The fetch order up to the first fetch that hits max connections: what runs before the call escapes. */
  function UntilAbort(order: seq<Devices.DeviceData>, outcome: Devices.DeviceData -> FetchRun): (r: seq<Devices.DeviceData>)
    ensures |r| <= |order| && r == order[..|r|]
    ensures forall i :: 0 <= i < |r| ==> !outcome(r[i]).MaxConnectionsHit?
    ensures |r| < |order| ==> outcome(order[|r|]).MaxConnectionsHit?
    ensures !Aborts(order, outcome) <==> r == order
  {
    if order == [] then []
    else if outcome(order[0]).MaxConnectionsHit? then []
    else [order[0]] + UntilAbort(order[1..], outcome)
  }

  function CountUpdated(fbs: seq<DeviceFetchFeedback>): (n: nat)
    ensures n <= |fbs|
  {
    if fbs == [] then 0
    else CountUpdated(fbs[..|fbs| - 1])
         + (if fbs[|fbs| - 1].feedback == SUCCESS && fbs[|fbs| - 1].device.Some? then 1 else 0)
  }

  function CountEmptySuccess(fbs: seq<DeviceFetchFeedback>): (n: nat)
    ensures n <= |fbs|
  {
    if fbs == [] then 0
    else CountEmptySuccess(fbs[..|fbs| - 1])
         + (if fbs[|fbs| - 1].feedback == SUCCESS && fbs[|fbs| - 1].device.None? then 1 else 0)
  }

  function CountTimeouts(fbs: seq<DeviceFetchFeedback>): (n: nat)
    ensures n <= |fbs|
  {
    if fbs == [] then 0 else CountTimeouts(fbs[..|fbs| - 1]) + (if fbs[|fbs| - 1].feedback == TIMEOUT then 1 else 0)
  }

  function CountErrors(fbs: seq<DeviceFetchFeedback>): (n: nat)
    ensures n <= |fbs|
  {
    if fbs == [] then 0 else CountErrors(fbs[..|fbs| - 1]) + (if fbs[|fbs| - 1].feedback == ERROR then 1 else 0)
  }

  /** Every feedback is counted once: as an update, a timeout, an error, or a success without data. */
  lemma {:induction false} CountsPartitionFeedback(fbs: seq<DeviceFetchFeedback>)
    ensures CountUpdated(fbs) + CountTimeouts(fbs) + CountErrors(fbs) + CountEmptySuccess(fbs) == |fbs|
    decreases |fbs|
  {
    if fbs != [] {
      CountsPartitionFeedback(fbs[..|fbs| - 1]);
    }
  }

  /** The ways a fetch that did not abort the call can end, as the counters see them. */
  datatype RunKind = ReturnedMetadata | ReturnedNothing | TimedOutRun | ConnectionErrorRun | AbandonedRun

  predicate IsKind(run: FetchRun, kind: RunKind)
  {
    match kind
    case ReturnedMetadata => run.Finished? && run.metadata.Some?
    case ReturnedNothing => run.Finished? && run.metadata.None?
    case TimedOutRun => run.TimedOut?
    case ConnectionErrorRun => run.ConnectionError?
    case AbandonedRun => run.Abandoned?
  }

  /** The number of devices of `order` whose fetch ended as `kind`. */
  function RunsOfKind(order: seq<Devices.DeviceData>, outcome: Devices.DeviceData -> FetchRun, kind: RunKind): (n: nat)
    ensures n <= |order|
  {
    if order == [] then 0
    else RunsOfKind(order[..|order| - 1], outcome, kind) + (if IsKind(outcome(order[|order| - 1]), kind) then 1 else 0)
  }

  /**
   * The counters `analyzeFeedback` reads follow the fetches: one update per
   * fetch that returned metadata, one empty success per fetch that returned
   * none, one timeout per timed-out fetch and one error per connection error;
   * only abandoned fetches leave no feedback.
   */
  lemma {:induction false} FetchAllDevicesCounts(order: seq<Devices.DeviceData>, outcome: Devices.DeviceData -> FetchRun)
    requires !Aborts(order, outcome)
    ensures var r := FetchAllDevices(order, outcome);
      && CountUpdated(r) == RunsOfKind(order, outcome, ReturnedMetadata)
      && CountEmptySuccess(r) == RunsOfKind(order, outcome, ReturnedNothing)
      && CountTimeouts(r) == RunsOfKind(order, outcome, TimedOutRun)
      && CountErrors(r) == RunsOfKind(order, outcome, ConnectionErrorRun)
      && |r| == |order| - RunsOfKind(order, outcome, AbandonedRun)
    decreases |order|
  {
    if order != [] {
      var init := order[..|order| - 1];
      var last := order[|order| - 1];
      assert !Aborts(init, outcome) by {
        forall i | 0 <= i < |init| ensures !outcome(init[i]).MaxConnectionsHit? {
          assert init[i] == order[i];
        }
      }
      assert !outcome(last).MaxConnectionsHit?;
      FetchAllDevicesCounts(init, outcome);
      CountsOneMore(FetchAllDevices(init, outcome), last, outcome(last));
    }
  }

  /** The counters after one more fetch, by how that fetch ended. */
  lemma CountsOneMore(rest: seq<DeviceFetchFeedback>, d: Devices.DeviceData, run: FetchRun)
    requires !run.MaxConnectionsHit?
    ensures var r := match FetchDevice(d, run) case None => rest case Some(fb) => rest + [fb];
      && CountUpdated(r) == CountUpdated(rest) + (if IsKind(run, ReturnedMetadata) then 1 else 0)
      && CountEmptySuccess(r) == CountEmptySuccess(rest) + (if IsKind(run, ReturnedNothing) then 1 else 0)
      && CountTimeouts(r) == CountTimeouts(rest) + (if IsKind(run, TimedOutRun) then 1 else 0)
      && CountErrors(r) == CountErrors(rest) + (if IsKind(run, ConnectionErrorRun) then 1 else 0)
      && |r| == |rest| + (if IsKind(run, AbandonedRun) then 0 else 1)
  {
    match FetchDevice(d, run)
    case None =>
    case Some(fb) =>
      CountsStep(rest, fb);
  }

  lemma CountsStep(fbs: seq<DeviceFetchFeedback>, fb: DeviceFetchFeedback)
    ensures CountUpdated(fbs + [fb]) == CountUpdated(fbs) + (if fb.feedback == SUCCESS && fb.device.Some? then 1 else 0)
    ensures CountEmptySuccess(fbs + [fb]) == CountEmptySuccess(fbs) + (if fb.feedback == SUCCESS && fb.device.None? then 1 else 0)
    ensures CountTimeouts(fbs + [fb]) == CountTimeouts(fbs) + (if fb.feedback == TIMEOUT then 1 else 0)
    ensures CountErrors(fbs + [fb]) == CountErrors(fbs) + (if fb.feedback == ERROR then 1 else 0)
  {
    assert (fbs + [fb])[..|fbs|] == fbs;
  }

  /**
   * `analyzeFeedback`'s trigger: more than five candidates and an error rate
   * above 3/4. The Float division `errors / (errors + timeouts + updated)` is
   * compared by cross-multiplication; with no feedback at all the Float rate is
   * NaN and the comparison false, as here.
   */
  function ShouldBackOff(updateNeeded: int, updated: int, timeouts: int, errors: int): (r: bool)
    ensures r <==> updateNeeded >= 6 && errors > 3 * (timeouts + updated)
    ensures updated == 0 && errors == 0 && timeouts >= 0 ==> !r
  {
    updateNeeded > 5 && 4 * errors > 3 * (errors + timeouts + updated)
  }

  // ---------------------------------------------------------------------------
  // The result map: `associateBy { it.device.address }` as a LinkedHashMap
  // ---------------------------------------------------------------------------

  function Addresses(hs: seq<Devices.SavedDeviceHandle>): (r: seq<string>)
    ensures |r| == |hs|
    ensures forall i :: 0 <= i < |hs| ==> r[i] == hs[i].device.address
  {
    if hs == [] then [] else Addresses(hs[..|hs| - 1]) + [hs[|hs| - 1].device.address]
  }

  /** The key order of the LinkedHashMap: each address once, at its first occurrence. */
  function Keys(hs: seq<Devices.SavedDeviceHandle>): (r: seq<string>)
    ensures forall a :: a in r <==> a in Addresses(hs)
    ensures forall i, j :: 0 <= i < j < |r| ==> r[i] != r[j]
  {
    if hs == [] then []
    else
      var rest := Keys(hs[..|hs| - 1]);
      assert Addresses(hs) == Addresses(hs[..|hs| - 1]) + [hs[|hs| - 1].device.address];
      if hs[|hs| - 1].device.address in rest then rest else rest + [hs[|hs| - 1].device.address]
  }

  /** The values of the LinkedHashMap: the last handle with each address. */
  function LastByAddress(hs: seq<Devices.SavedDeviceHandle>): (r: map<string, Devices.SavedDeviceHandle>)
    ensures forall a :: a in r <==> a in Addresses(hs)
    ensures forall a :: a in r ==> r[a].device.address == a && r[a] in hs
  {
    if hs == [] then map[]
    else
      var rest := LastByAddress(hs[..|hs| - 1]);
      assert Addresses(hs) == Addresses(hs[..|hs| - 1]) + [hs[|hs| - 1].device.address];
      rest[hs[|hs| - 1].device.address := hs[|hs| - 1]]
  }

  /** One feedback: a SUCCESS carrying a device replaces the device of the handle with its address. */
  function ApplyOne(m: map<string, Devices.SavedDeviceHandle>, fb: DeviceFetchFeedback): map<string, Devices.SavedDeviceHandle>
  {
    if fb.feedback == SUCCESS && fb.device.Some? && fb.device.value.address in m then
      m[fb.device.value.address := m[fb.device.value.address].(device := fb.device.value)]
    else m
  }

  function ApplyFeedback(m: map<string, Devices.SavedDeviceHandle>, fbs: seq<DeviceFetchFeedback>): (r: map<string, Devices.SavedDeviceHandle>)
    ensures r.Keys == m.Keys
  {
    if fbs == [] then m else ApplyOne(ApplyFeedback(m, fbs[..|fbs| - 1]), fbs[|fbs| - 1])
  }

  /** The device of the last SUCCESS with data for `address`, if any. */
  function LastUpdate(fbs: seq<DeviceFetchFeedback>, address: string): (r: Option<Devices.DeviceData>)
    ensures r.Some? ==> r.value.address == address
    ensures r.Some? ==> exists fb :: fb in fbs && fb.feedback == SUCCESS && fb.device == r
  {
    if fbs == [] then None
    else
      var fb := fbs[|fbs| - 1];
      if fb.feedback == SUCCESS && fb.device.Some? && fb.device.value.address == address then fb.device
      else LastUpdate(fbs[..|fbs| - 1], address)
  }

  /** Applying the feedback replaces, per address, exactly the device of the latest successful fetch. */
  lemma {:induction false} ApplyFeedbackAt(m: map<string, Devices.SavedDeviceHandle>, fbs: seq<DeviceFetchFeedback>, a: string)
    requires a in m
    ensures ApplyFeedback(m, fbs)[a] == match LastUpdate(fbs, a)
                                         case None => m[a]
                                         case Some(d) => m[a].(device := d)
    decreases |fbs|
  {
    if fbs != [] {
      ApplyFeedbackAt(m, fbs[..|fbs| - 1], a);
    }
  }

  /** `result.values.toList()` after the feedback loop. */
  function PlannerOutput(hs: seq<Devices.SavedDeviceHandle>, fbs: seq<DeviceFetchFeedback>): (r: seq<Devices.SavedDeviceHandle>)
    ensures |r| == |Keys(hs)|
  {
    var keys := Keys(hs);
    var m := ApplyFeedback(LastByAddress(hs), fbs);
    seq(|keys|, i requires 0 <= i < |keys| => m[keys[i]])
  }

  /**
   * The planner's output holds each input address exactly once, in order of
   * first appearance, with the last handle for that address; only a successful
   * fetch that returned metadata changes a handle, and only its device.
   */
  lemma PlannerOutputHandles(hs: seq<Devices.SavedDeviceHandle>, fbs: seq<DeviceFetchFeedback>)
    ensures var r := PlannerOutput(hs, fbs);
      var keys := Keys(hs);
      var last := LastByAddress(hs);
      && (forall a :: a in keys <==> a in Addresses(hs))
      && (forall i, j :: 0 <= i < j < |r| ==> r[i].device.address != r[j].device.address)
      && forall i :: 0 <= i < |r| ==>
        && r[i].previouslySeenAtTime == last[keys[i]].previouslySeenAtTime
        && r[i].airdrop == last[keys[i]].airdrop
        && r[i].device == LastUpdate(fbs, keys[i]).GetOr(last[keys[i]].device)
        && r[i].device.address == keys[i]
  {
    var r := PlannerOutput(hs, fbs);
    var keys := Keys(hs);
    var last := LastByAddress(hs);
    forall i | 0 <= i < |r|
      ensures r[i].previouslySeenAtTime == last[keys[i]].previouslySeenAtTime
      ensures r[i].airdrop == last[keys[i]].airdrop
      ensures r[i].device == LastUpdate(fbs, keys[i]).GetOr(last[keys[i]].device)
      ensures r[i].device.address == keys[i]
    {
      ApplyFeedbackAt(last, fbs, keys[i]);
    }
  }

  predicate DistinctAddresses(hs: seq<Devices.SavedDeviceHandle>)
  {
    forall i, j :: 0 <= i < j < |hs| ==> hs[i].device.address != hs[j].device.address
  }

  /** With distinct addresses the key order is the batch order. */
  lemma {:induction false} DistinctKeys(hs: seq<Devices.SavedDeviceHandle>)
    requires DistinctAddresses(hs)
    ensures Keys(hs) == Addresses(hs)
    decreases |hs|
  {
    if hs != [] {
      var init := hs[..|hs| - 1];
      assert DistinctAddresses(init);
      DistinctKeys(init);
      var a := hs[|hs| - 1].device.address;
      assert Addresses(hs) == Addresses(init) + [a];
      assert a !in Addresses(init);
    }
  }

  /** With distinct addresses every handle is the one kept for its address. */
  lemma {:induction false} DistinctLast(hs: seq<Devices.SavedDeviceHandle>)
    requires DistinctAddresses(hs)
    ensures forall i :: 0 <= i < |hs| ==> LastByAddress(hs)[hs[i].device.address] == hs[i]
    decreases |hs|
  {
    if hs != [] {
      var init := hs[..|hs| - 1];
      assert DistinctAddresses(init);
      DistinctLast(init);
      forall i | 0 <= i < |hs| ensures LastByAddress(hs)[hs[i].device.address] == hs[i] {
        if i < |hs| - 1 {
          assert hs[i] == init[i];
        }
      }
    }
  }

  /** No feedback, no change: a batch of distinct devices with nothing fetched comes back as is. */
  lemma NoFeedbackNoChange(hs: seq<Devices.SavedDeviceHandle>)
    requires DistinctAddresses(hs)
    ensures PlannerOutput(hs, []) == hs
  {
    DistinctKeys(hs);
    DistinctLast(hs);
  }

  // ---------------------------------------------------------------------------
  // One planner call as a function of the planner's state
  // ---------------------------------------------------------------------------

  /** The fields of the planner object, as a value. */
  datatype PlannerState = PlannerState(parallelProcessingBatches: int, cooldownStartedAt: Option<int>,
                                       lastJournalReportTime: int, journal: seq<JournalReport>, hardResets: nat)

  /** Less than a minute since the backoff started. */
  predicate CoolingDown(cooldownStartedAt: Option<int>, now: int)
  {
    cooldownStartedAt.Some? && now - cooldownStartedAt.value < MIN_COOLDOWN_DURATION_MS
  }

  /**
   * `analyzeFeedback` on the planner's state at `now`: a backoff restarts the
   * cooldown, counts a hard reset and, at most once per 30 minutes, reports
   * the counts to the journal.
   */
  function Analyze(st: PlannerState, updateNeeded: int, updated: int, timeouts: int, errors: int, now: int): (r: PlannerState)
    ensures r == st <==> !ShouldBackOff(updateNeeded, updated, timeouts, errors)
    ensures r.parallelProcessingBatches == st.parallelProcessingBatches
    ensures r.journal == st.journal || r.journal == st.journal + [TooManyErrors(errors, timeouts, updated, updateNeeded)]
  {
    var backOff := ShouldBackOff(updateNeeded, updated, timeouts, errors);
    var report := backOff && now - st.lastJournalReportTime >= JOURNAL_REPORT_COOLDOWN_MS;
    st.(cooldownStartedAt := if backOff then Some(now) else st.cooldownStartedAt,
        hardResets := st.hardResets + (if backOff then 1 else 0),
        journal := st.journal + (if report then [TooManyErrors(errors, timeouts, updated, updateNeeded)] else []),
        lastJournalReportTime := if report then now else st.lastJournalReportTime)
  }

  /**
   * `scheduleFetchServiceInfo` from the state `st` before it to the result and
   * the state after it. Only a call that ends in a backoff changes the state:
   * it restarts the cooldown, counts one hard reset and may add one journal
   * report; the connection limit is never changed here.
   */
  function Schedule(st: PlannerState, devices: seq<Devices.SavedDeviceHandle>, now: int, finishedAt: int,
                    outcome: Devices.DeviceData -> FetchRun): (out: (PlannerResult, PlannerState))
    requires st.parallelProcessingBatches > 0
    ensures out.1.parallelProcessingBatches == st.parallelProcessingBatches
    ensures CoolingDown(st.cooldownStartedAt, now) ==> out == (Planned(devices), st)
    ensures out.0.Aborted? ==> out.1 == st
    ensures out.1 == st || (out.1.cooldownStartedAt == Some(finishedAt) && out.1.hardResets == st.hardResets + 1)
    ensures out.1.journal == st.journal || (|out.1.journal| == |st.journal| + 1 && out.1.journal[..|st.journal|] == st.journal
                                            && out.1.lastJournalReportTime == finishedAt)
  {
    if CoolingDown(st.cooldownStartedAt, now) then (Planned(devices), st)
    else
      var needed := MetadataNeeded(devices, now);
      var order := FetchOrder(needed, st.parallelProcessingBatches);
      if Aborts(order, outcome) then (Aborted, st)
      else
        var fbs := FetchAllDevices(order, outcome);
        (Planned(PlannerOutput(devices, fbs)),
         Analyze(st, |needed|, CountUpdated(fbs), CountTimeouts(fbs), CountErrors(fbs), finishedAt))
  }

  /** A prefix that runs without an abort up to an abort or the end is exactly what runs. */
  lemma UntilAbortAt(order: seq<Devices.DeviceData>, outcome: Devices.DeviceData -> FetchRun, i: nat)
    requires i <= |order|
    requires forall j :: 0 <= j < i ==> !outcome(order[j]).MaxConnectionsHit?
    requires i < |order| ==> outcome(order[i]).MaxConnectionsHit?
    ensures UntilAbort(order, outcome) == order[..i]
  {
  }

  /**
   * The records one `scheduleFetchServiceInfo` call writes back to the store
   * through `execute`: none on cooldown; otherwise those of the fetches that
   * ran before the call escaped, if it did.
   */
  function FetchSaves(st: PlannerState, devices: seq<Devices.SavedDeviceHandle>, now: int,
                      outcome: Devices.DeviceData -> FetchRun): (r: seq<Devices.DeviceData>)
    requires st.parallelProcessingBatches > 0
    ensures CoolingDown(st.cooldownStartedAt, now) ==> r == []
  {
    if CoolingDown(st.cooldownStartedAt, now) then []
    else MetadataSaves(UntilAbort(FetchOrder(MetadataNeeded(devices, now), st.parallelProcessingBatches), outcome), outcome)
  }

  /**
   * Every record the planner writes is an eligible device of the batch whose
   * fetch finished with different metadata, written with that metadata; so a
   * device whose fetch timed out, failed or was abandoned is never written.
   */
  lemma FetchSavesWriteBack(st: PlannerState, devices: seq<Devices.SavedDeviceHandle>, now: int,
                            outcome: Devices.DeviceData -> FetchRun)
    requires st.parallelProcessingBatches > 0
    ensures forall s :: s in FetchSaves(st, devices, now, outcome) ==>
      exists h :: h in devices && CheckIfMetadataUpdateNeeded(h, now)
                  && outcome(h.device).Finished? && outcome(h.device).metadata != h.device.metadata
                  && s == h.device.(metadata := outcome(h.device).metadata)
  {
    var order := FetchOrder(MetadataNeeded(devices, now), st.parallelProcessingBatches);
    var ran := UntilAbort(order, outcome);
    MetadataSavesSpec(ran, outcome);
    forall s | s in FetchSaves(st, devices, now, outcome)
      ensures exists h :: h in devices && CheckIfMetadataUpdateNeeded(h, now)
                          && outcome(h.device).Finished? && outcome(h.device).metadata != h.device.metadata
                          && s == h.device.(metadata := outcome(h.device).metadata)
    {
      assert s in MetadataSaves(ran, outcome);
      var d :| d in ran && outcome(d).Finished? && outcome(d).metadata != d.metadata && s == d.(metadata := outcome(d).metadata);
      assert d in order by {
        assert ran == order[..|ran|];
      }
      FetchedDevicesAreEligible(devices, now, st.parallelProcessingBatches, d);
      var h :| h in devices && h.device == d && CheckIfMetadataUpdateNeeded(h, now);
    }
  }

  // ---------------------------------------------------------------------------
  // The planner object
  // ---------------------------------------------------------------------------

  class DeviceServicesFetchingPlanner {
    /** The repository `fetchDeviceServiceInfo` writes fetched metadata back to. */
    const store: DeviceStore.DevicesRepository
    var parallelProcessingBatches: int
    var cooldownStartedAt: Option<int>
    var lastJournalReportTime: int
    /** The error reports written to the journal. */
    var journal: seq<JournalReport>
    /** How many times all Bluetooth connections were hard-closed. */
    var hardResets: nat

    ghost predicate Valid()
      reads this
    {
      MIN_PARALLEL_CONNECTIONS <= parallelProcessingBatches <= MAX_PARALLEL_CONNECTIONS
    }

    constructor(store: DeviceStore.DevicesRepository)
      ensures Valid() && this.store == store
      ensures parallelProcessingBatches == PARALLEL_BATCH_COUNT
      ensures cooldownStartedAt == None && lastJournalReportTime == 0
      ensures journal == [] && hardResets == 0
    {
      this.store := store;
      parallelProcessingBatches := PARALLEL_BATCH_COUNT;
      cooldownStartedAt := None;
      lastJournalReportTime := 0;
      journal := [];
      hardResets := 0;
    }

    /** The planner's fields as a value. */
    function State(): PlannerState
      reads this
    {
      PlannerState(parallelProcessingBatches, cooldownStartedAt, lastJournalReportTime, journal, hardResets)
    }

    /** A backoff that started at `t` holds off every call from `t` until a minute later. */
    predicate OnCooldown(now: int)
      reads this
      ensures OnCooldown(now) ==> cooldownStartedAt.Some? && now < cooldownStartedAt.value + MIN_COOLDOWN_DURATION_MS
      ensures cooldownStartedAt.Some? && cooldownStartedAt.value <= now < cooldownStartedAt.value + MIN_COOLDOWN_DURATION_MS
              ==> OnCooldown(now)
    {
      CoolingDown(cooldownStartedAt, now)
    }

    /**
     * `scheduleFetchServiceInfo`. Eligibility and the cooldown are judged at
     * `now`, the feedback analysis happens at `finishedAt`.
     */
    method ScheduleFetchServiceInfo(devices: seq<Devices.SavedDeviceHandle>, now: int, finishedAt: int,
                                    outcome: Devices.DeviceData -> FetchRun) returns (r: PlannerResult)
      requires Valid()
      modifies this, store
      ensures Valid() && parallelProcessingBatches == old(parallelProcessingBatches)
      ensures old(OnCooldown(now)) ==> r == Planned(devices) && unchanged(this) && unchanged(store)
      ensures !old(OnCooldown(now)) ==>
        var needed := MetadataNeeded(devices, now);
        var order := FetchOrder(needed, old(parallelProcessingBatches));
        if Aborts(order, outcome) then r == Aborted && unchanged(this)
        else
          var fbs := FetchAllDevices(order, outcome);
          var backOff := ShouldBackOff(|needed|, CountUpdated(fbs), CountTimeouts(fbs), CountErrors(fbs));
          var report := backOff && finishedAt - old(lastJournalReportTime) >= JOURNAL_REPORT_COOLDOWN_MS;
          && r == Planned(PlannerOutput(devices, fbs))
          && cooldownStartedAt == (if backOff then Some(finishedAt) else old(cooldownStartedAt))
          && hardResets == old(hardResets) + (if backOff then 1 else 0)
          && journal == old(journal)
                        + (if report then [TooManyErrors(CountErrors(fbs), CountTimeouts(fbs), CountUpdated(fbs), |needed|)]
                           else [])
          && lastJournalReportTime == (if report then finishedAt else old(lastJournalReportTime))
      ensures (r, State()) == Schedule(old(State()), devices, now, finishedAt, outcome)
      ensures store.devices == DeviceStore.InsertAll(old(store.devices), FetchSaves(old(State()), devices, now, outcome))
      ensures store.contacts == old(store.contacts)
    {
      ghost var st0 := State();
      if OnCooldown(now) {
        assert Schedule(st0, devices, now, finishedAt, outcome) == (Planned(devices), st0);
        assert FetchSaves(st0, devices, now, outcome) == [];
        assert store.devices == DeviceStore.InsertAll(old(store.devices), FetchSaves(st0, devices, now, outcome));
        return Planned(devices);
      }
      var metadataNeeded := MetadataNeeded(devices, now);
      var order := FetchOrder(metadataNeeded, parallelProcessingBatches);
      var updated, aborted := FetchAllDevicesAndSave(order, outcome);
      assert FetchSaves(st0, devices, now, outcome) == MetadataSaves(UntilAbort(order, outcome), outcome);
      ghost var devices1 := store.devices;
      assert devices1 == DeviceStore.InsertAll(old(store.devices), FetchSaves(st0, devices, now, outcome));
      if aborted {
        assert Schedule(st0, devices, now, finishedAt, outcome) == (Aborted, st0);
        assert State() == st0;
        return Aborted;
      }
      r := Complete(devices, |metadataNeeded|, updated, finishedAt);
      assert store.devices == devices1;
      assert (r, State()) == Schedule(st0, devices, now, finishedAt, outcome);
    }

    /** The rest of a call that ran every fetch: apply and count the feedback, analyse it, return the batch. */
    method Complete(devices: seq<Devices.SavedDeviceHandle>, updateNeeded: int, updated: seq<DeviceFetchFeedback>,
                    finishedAt: int) returns (r: PlannerResult)
      modifies this
      ensures parallelProcessingBatches == old(parallelProcessingBatches)
      ensures r == Planned(PlannerOutput(devices, updated))
      ensures State() == Analyze(old(State()), updateNeeded, CountUpdated(updated), CountTimeouts(updated), CountErrors(updated), finishedAt)
      ensures var backOff := ShouldBackOff(updateNeeded, CountUpdated(updated), CountTimeouts(updated), CountErrors(updated));
        var report := backOff && finishedAt - old(lastJournalReportTime) >= JOURNAL_REPORT_COOLDOWN_MS;
        && cooldownStartedAt == (if backOff then Some(finishedAt) else old(cooldownStartedAt))
        && hardResets == old(hardResets) + (if backOff then 1 else 0)
        && journal == old(journal)
                      + (if report then [TooManyErrors(CountErrors(updated), CountTimeouts(updated), CountUpdated(updated), updateNeeded)]
                         else [])
        && lastJournalReportTime == (if report then finishedAt else old(lastJournalReportTime))
    {
      var keys := Keys(devices);
      var result := LastByAddress(devices);
      var updatedCount, timeouts, errors;
      result, updatedCount, timeouts, errors := CollectFeedback(result, updated);
      AnalyzeFeedback(updateNeeded, updatedCount, timeouts, errors, finishedAt);
      r := Planned(seq(|keys|, j requires 0 <= j < |keys| => result[keys[j]]));
    }

    /**
     * `fetchAllDevices` with the store writes of `execute`: the devices are
     * fetched in the fetch order, and a "max connections" failure ends the
     * run (`aborted`) after the writes of the fetches before it.
     */
    method FetchAllDevicesAndSave(order: seq<Devices.DeviceData>, outcome: Devices.DeviceData -> FetchRun)
      returns (updated: seq<DeviceFetchFeedback>, aborted: bool)
      modifies store
      ensures aborted == Aborts(order, outcome)
      ensures !aborted ==> updated == FetchAllDevices(order, outcome)
      ensures store.devices == DeviceStore.InsertAll(old(store.devices), MetadataSaves(UntilAbort(order, outcome), outcome))
      ensures store.contacts == old(store.contacts)
    {
      updated := [];
      var i := 0;
      while i < |order| && !outcome(order[i]).MaxConnectionsHit?
        invariant 0 <= i <= |order|
        invariant forall j :: 0 <= j < i ==> !outcome(order[j]).MaxConnectionsHit?
        invariant !Aborts(order[..i], outcome) && updated == FetchAllDevices(order[..i], outcome)
        invariant store.devices == DeviceStore.InsertAll(old(store.devices), MetadataSaves(order[..i], outcome))
        invariant store.contacts == old(store.contacts)
      {
        var device := order[i];
        FetchPrefixStep(order, outcome, i);
        DeviceStore.InsertAllOneMore(old(store.devices), MetadataSaves(order[..i], outcome), SaveOf(device, outcome(device)));
        var fb := FetchDeviceAndSave(device, outcome(device));
        if fb.Some? {
          updated := updated + [fb.value];
        }
        i := i + 1;
      }
      aborted := i < |order|;
      UntilAbortAt(order, outcome, i);
      if !aborted {
        assert order[..i] == order;
      }
    }

    /**
     * `fetchDevice` around `execute`: the feedback of one fetch, and the
     * write-back of a finished fetch whose metadata differs from the device's.
     */
    method FetchDeviceAndSave(device: Devices.DeviceData, run: FetchRun) returns (fb: Option<DeviceFetchFeedback>)
      requires !run.MaxConnectionsHit?
      modifies store
      ensures fb == FetchDevice(device, run)
      ensures run.Finished? && run.metadata != device.metadata ==>
        store.devices == old(store.devices)[device.address := device.(metadata := run.metadata)]
      ensures !(run.Finished? && run.metadata != device.metadata) ==> store.devices == old(store.devices)
      ensures store.contacts == old(store.contacts)
    {
      if run.Finished? && run.metadata != device.metadata {
        store.SaveDevice(device.(metadata := run.metadata));
      }
      fb := FetchDevice(device, run);
    }

    /** The `updated.forEach` loop: apply each feedback and count the outcomes. */
    static method CollectFeedback(start: map<string, Devices.SavedDeviceHandle>, updated: seq<DeviceFetchFeedback>)
      returns (result: map<string, Devices.SavedDeviceHandle>, updatedCount: int, timeouts: int, errors: int)
      ensures result == ApplyFeedback(start, updated)
      ensures updatedCount == CountUpdated(updated) && timeouts == CountTimeouts(updated)
      ensures errors == CountErrors(updated)
    {
      result := start;
      updatedCount, errors, timeouts := 0, 0, 0;
      var i := 0;
      while i < |updated|
        invariant 0 <= i <= |updated|
        invariant result == ApplyFeedback(start, updated[..i])
        invariant updatedCount == CountUpdated(updated[..i])
        invariant timeouts == CountTimeouts(updated[..i])
        invariant errors == CountErrors(updated[..i])
      {
        var fetchFeedback := updated[i];
        assert updated[..i + 1][..i] == updated[..i];
        match fetchFeedback.feedback {
          case SUCCESS =>
            if fetchFeedback.device.Some? {
              var device := fetchFeedback.device.value;
              if device.address in result {
                result := result[device.address := result[device.address].(device := device)];
              }
              updatedCount := updatedCount + 1;
            }
          case TIMEOUT =>
            timeouts := timeouts + 1;
          case ERROR =>
            errors := errors + 1;
        }
        i := i + 1;
      }
      assert updated[..|updated|] == updated;
    }

    /**
     * `analyzeFeedback`: on backoff, report to the journal (rate-limited),
     * hard-close every connection and start the cooldown.
     */
    method AnalyzeFeedback(updateNeeded: int, updated: int, timeouts: int, errors: int, now: int)
      modifies this
      ensures State() == Analyze(old(State()), updateNeeded, updated, timeouts, errors, now)
      ensures parallelProcessingBatches == old(parallelProcessingBatches)
      ensures var backOff := ShouldBackOff(updateNeeded, updated, timeouts, errors);
        var report := backOff && now - old(lastJournalReportTime) >= JOURNAL_REPORT_COOLDOWN_MS;
        && cooldownStartedAt == (if backOff then Some(now) else old(cooldownStartedAt))
        && hardResets == old(hardResets) + (if backOff then 1 else 0)
        && journal == old(journal) + (if report then [TooManyErrors(errors, timeouts, updated, updateNeeded)] else [])
        && lastJournalReportTime == (if report then now else old(lastJournalReportTime))
    {
      if ShouldBackOff(updateNeeded, updated, timeouts, errors) {
        ReportJournalEntity(updateNeeded, updated, timeouts, errors, now);
        hardResets := hardResets + 1;
        cooldownStartedAt := Some(now);
      }
    }

    /** `reportJournalEntity`: at most one report per 30 minutes. */
    method ReportJournalEntity(updateNeeded: int, updated: int, timeouts: int, errors: int, now: int)
      modifies this
      ensures parallelProcessingBatches == old(parallelProcessingBatches)
      ensures cooldownStartedAt == old(cooldownStartedAt) && hardResets == old(hardResets)
      ensures now - old(lastJournalReportTime) < JOURNAL_REPORT_COOLDOWN_MS ==>
        journal == old(journal) && lastJournalReportTime == old(lastJournalReportTime)
      ensures now - old(lastJournalReportTime) >= JOURNAL_REPORT_COOLDOWN_MS ==>
        journal == old(journal) + [TooManyErrors(errors, timeouts, updated, updateNeeded)]
        && lastJournalReportTime == now
    {
      if now - lastJournalReportTime < JOURNAL_REPORT_COOLDOWN_MS {
        return;
      }
      journal := journal + [TooManyErrors(errors, timeouts, updated, updateNeeded)];
      lastJournalReportTime := now;
    }

    /** `decreaseMaxConnections`: one fewer shard, never below the minimum. */
    method DecreaseMaxConnections()
      requires Valid()
      modifies this
      ensures Valid()
      ensures parallelProcessingBatches ==
        if old(parallelProcessingBatches) - 1 < MIN_PARALLEL_CONNECTIONS then MIN_PARALLEL_CONNECTIONS
        else old(parallelProcessingBatches) - 1
      ensures cooldownStartedAt == old(cooldownStartedAt) && lastJournalReportTime == old(lastJournalReportTime)
      ensures journal == old(journal) && hardResets == old(hardResets)
    {
      parallelProcessingBatches :=
        if MIN_PARALLEL_CONNECTIONS > parallelProcessingBatches - 1 then MIN_PARALLEL_CONNECTIONS
        else parallelProcessingBatches - 1;
    }

    /** `increaseConnections`: one more shard, never above the maximum. */
    method IncreaseConnections()
      requires Valid()
      modifies this
      ensures Valid()
      ensures parallelProcessingBatches ==
        if old(parallelProcessingBatches) + 1 > MAX_PARALLEL_CONNECTIONS then MAX_PARALLEL_CONNECTIONS
        else old(parallelProcessingBatches) + 1
      ensures cooldownStartedAt == old(cooldownStartedAt) && lastJournalReportTime == old(lastJournalReportTime)
      ensures journal == old(journal) && hardResets == old(hardResets)
    {
      parallelProcessingBatches :=
        if parallelProcessingBatches + 1 < MAX_PARALLEL_CONNECTIONS then parallelProcessingBatches + 1
        else MAX_PARALLEL_CONNECTIONS;
    }
  }
}
