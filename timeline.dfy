/** A record of the positions and directions of a group of dancers over time. */
module Timelines {
  import opened Geometry
  import opened Dancers
  import opened Wrappers

  /** DancerSnapshot: where a dancer stood and which way it faced at a time; a copy, not a view. */
  datatype Snapshot = Snapshot(time: int, dancer: Dancer, position: Position, direction: Direction)

  /** Whether a snapshot is of dancer d at a time in [start, end). */
  predicate InWindow(s: Snapshot, d: Dancer, start: int, end: int)
  {
    s.dancer == d && start <= s.time < end
  }

  /** The snapshots of the dancers at the given time, in the dancers' order. */
  function Captured(ds: seq<Dancer>, time: int): (r: seq<Snapshot>)
    reads ds
    ensures |r| == |ds|
    ensures forall i :: 0 <= i < |ds| ==> r[i].dancer == ds[i] && r[i].time == time
    ensures forall i :: 0 <= i < |ds| ==> r[i].position == ds[i].position && r[i].direction == ds[i].direction
  {
    if ds == [] then []
    else Captured(ds[..|ds| - 1], time) + [Snapshot(time, ds[|ds| - 1], ds[|ds| - 1].position, ds[|ds| - 1].direction)]
  }

  /** The first snapshot of d at the given time, in recording order. */
  function FirstMatch(ss: seq<Snapshot>, d: Dancer, time: int): (r: Option<Snapshot>)
    ensures r.None? <==> forall i :: 0 <= i < |ss| ==> !(ss[i].dancer == d && ss[i].time == time)
    ensures r.Some? ==> exists i :: (0 <= i < |ss| && ss[i] == r.value && ss[i].dancer == d && ss[i].time == time
      && forall j :: 0 <= j < i ==> !(ss[j].dancer == d && ss[j].time == time))
  {
    if ss == [] then None
    else if ss[0].dancer == d && ss[0].time == time then Some(ss[0])
    else
      var r := FirstMatch(ss[1..], d, time);
      assert forall i :: 1 <= i < |ss| ==> ss[i] == ss[1..][i - 1];
      r
  }

  /** d's snapshots with start <= time < end, in recording order. */
  function InWindowOf(ss: seq<Snapshot>, d: Dancer, start: int, end: int): (r: seq<Snapshot>)
    ensures forall i :: 0 <= i < |r| ==> r[i] in ss && InWindow(r[i], d, start, end)
    ensures forall i :: 0 <= i < |ss| && InWindow(ss[i], d, start, end) ==> ss[i] in r
    ensures |r| <= |ss|
  {
    if ss == [] then []
    else InWindowOf(ss[..|ss| - 1], d, start, end) + (if InWindow(ss[|ss| - 1], d, start, end) then [ss[|ss| - 1]] else [])
  }

  /** The window filter works snapshot by snapshot: the window of a concatenation is the concatenation of the windows. */
  lemma {:induction false} InWindowOfAppend(a: seq<Snapshot>, b: seq<Snapshot>, d: Dancer, start: int, end: int)
    ensures InWindowOf(a + b, d, start, end) == InWindowOf(a, d, start, end) + InWindowOf(b, d, start, end)
  {
    if b == [] {
      assert a + b == a;
    } else {
      var init := b[..|b| - 1];
      InWindowOfAppend(a, init, d, start, end);
      assert (a + b)[..|a + b| - 1] == a + init;
      assert (a + b)[|a + b| - 1] == b[|b| - 1];
    }
  }

  /** A snapshot in the window is kept as often as it was recorded, any other one never. */
  lemma {:induction false} InWindowOfCounts(ss: seq<Snapshot>, d: Dancer, start: int, end: int, s: Snapshot)
    ensures multiset(InWindowOf(ss, d, start, end))[s] == if InWindow(s, d, start, end) then multiset(ss)[s] else 0
  {
    if ss != [] {
      var init := ss[..|ss| - 1];
      InWindowOfCounts(init, d, start, end, s);
      assert ss == init + [ss[|ss| - 1]];
    }
  }

  /** implTimeline: the tracked dancers, the latest time recorded, and every snapshot taken. */
  class Timeline {
    const dancers: seq<Dancer>
    var mostRecent: int
    var snapshots: seq<Snapshot>

    /** NewTimeline: tracks the dancers, with no snapshots yet and MostRecent 0. */
    constructor(ds: seq<Dancer>)
      ensures dancers == ds && mostRecent == 0 && snapshots == []
    {
      dancers := ds;
      mostRecent := 0;
      snapshots := [];
    }

    /**
     * MakeSnapshot: appends a snapshot of every tracked dancer at the
     * given time, and raises MostRecent to that time if it is later.
     */
    method MakeSnapshot(time: int)
      modifies this`snapshots, this`mostRecent
      ensures snapshots == old(snapshots) + Captured(dancers, time)
      ensures mostRecent == if time > old(mostRecent) then time else old(mostRecent)
      ensures mostRecent >= old(mostRecent) && mostRecent >= time
    {
      var captured: seq<Snapshot> := [];
      for i := 0 to |dancers|
        invariant captured == Captured(dancers[..i], time)
      {
        var d := dancers[i];
        assert dancers[..i + 1][..i] == dancers[..i];
        captured := captured + [Snapshot(time, d, d.position, d.direction)];
      }
      assert dancers[..|dancers|] == dancers;
      snapshots := snapshots + captured;
      if time > mostRecent {
        mostRecent := time;
      }
    }

    /** FindSnapshot: the first snapshot of d at the time, or None. */
    method FindSnapshot(d: Dancer, time: int) returns (r: Option<Snapshot>)
      ensures r == FirstMatch(snapshots, d, time)
    {
      for i := 0 to |snapshots|
        invariant forall j :: 0 <= j < i ==> !(snapshots[j].dancer == d && snapshots[j].time == time)
      {
        if d == snapshots[i].dancer && time == snapshots[i].time {
          var k :| 0 <= k < |snapshots| && snapshots[k] == FirstMatch(snapshots, d, time).value
            && snapshots[k].dancer == d && snapshots[k].time == time
            && forall j :: 0 <= j < k ==> !(snapshots[j].dancer == d && snapshots[j].time == time);
          assert k == i;
          return Some(snapshots[i]);
        }
      }
      return None;
    }

    /** FindSnapshots: d's snapshots with start <= time < end, in recording order. */
    method FindSnapshots(d: Dancer, start: int, end: int) returns (found: seq<Snapshot>)
      ensures found == InWindowOf(snapshots, d, start, end)
    {
      found := [];
      for i := 0 to |snapshots|
        invariant found == InWindowOf(snapshots[..i], d, start, end)
      {
        assert snapshots[..i + 1][..i] == snapshots[..i];
        if InWindow(snapshots[i], d, start, end) {
          found := found + [snapshots[i]];
        }
      }
      assert snapshots[..|snapshots|] == snapshots;
    }
  }

  /**
   * Once a snapshot has been taken at a time, FindSnapshot finds every
   * tracked dancer at that time, however many snapshots came before.
   */
  lemma SnapshotFindsTracked(before: seq<Snapshot>, ds: seq<Dancer>, time: int, d: Dancer)
    requires d in ds
    ensures FirstMatch(before + Captured(ds, time), d, time).Some?
  {
    var k :| 0 <= k < |ds| && ds[k] == d;
    var ss := before + Captured(ds, time);
    assert ss[|before| + k] == Captured(ds, time)[k];
  }

  /** FindSnapshot at a time finds something exactly when FindSnapshots over that one time does. */
  lemma FindOneAgreesWithWindow(ss: seq<Snapshot>, d: Dancer, time: int)
    ensures FirstMatch(ss, d, time).Some? <==> InWindowOf(ss, d, time, time + 1) != []
  {
    var w := InWindowOf(ss, d, time, time + 1);
    if w != [] {
      assert w[0] in ss;
    }
  }
}
