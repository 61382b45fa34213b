/**
 * The pure part of the page's playback engine (pages/piano.tsx): the end
 * time of a recording, the start/end timeline built from its events and
 * sorted by time, the timers that Play hands to `setTimeout`, the order in
 * which the browser fires them, and what each fired action does to the set
 * of sounding pitches.
 */
module Timeline {
  import opened Types
  import Sorting

  // ---------------------------------------------------------------------
  // getRecordingEndTime

  function MaxReal(a: real, b: real): real {
    if a >= b then a else b
  }

  /** The latest `endTime` among the events, or 0 for an empty recording. */
  function RecordingEndTime(events: seq<RecordingEvent>): (r: real)
    ensures events == [] ==> r == 0.0
    ensures forall i :: 0 <= i < |events| ==> events[i].endTime <= r
    ensures events != [] ==> exists i :: 0 <= i < |events| && events[i].endTime == r
  {
    if |events| == 0 then 0.0
    else if |events| == 1 then events[0].endTime
    else
      var rest := RecordingEndTime(events[1..]);
      assert forall i :: 1 <= i < |events| ==> events[i] == events[1..][i - 1];
      var r := MaxReal(events[0].endTime, rest);
      assert r != events[0].endTime ==> exists i :: 1 <= i < |events| && events[i].endTime == r;
      r
  }

  /** The end time depends only on which events there are, not on their order. */
  lemma EndTimePermutation(a: seq<RecordingEvent>, b: seq<RecordingEvent>)
    requires multiset(a) == multiset(b)
    ensures RecordingEndTime(a) == RecordingEndTime(b)
  {
    if a != [] {
      assert |b| == |multiset(b)| == |multiset(a)| == |a|;
      var i :| 0 <= i < |a| && a[i].endTime == RecordingEndTime(a);
      var j :| 0 <= j < |b| && b[j].endTime == RecordingEndTime(b);
      assert a[i] in multiset(b);
      assert b[j] in multiset(a);
    }
  }

  lemma EndTimeAppendBelow(a: seq<RecordingEvent>, b: seq<RecordingEvent>)
    requires a != [] && b != []
    ensures RecordingEndTime(a) <= RecordingEndTime(a + b) && RecordingEndTime(b) <= RecordingEndTime(a + b)
  {
    var ab := a + b;
    var i :| 0 <= i < |a| && a[i].endTime == RecordingEndTime(a);
    var j :| 0 <= j < |b| && b[j].endTime == RecordingEndTime(b);
    assert ab[i] == a[i] && ab[|a| + j] == b[j];
  }

  lemma EndTimeAppendAttained(a: seq<RecordingEvent>, b: seq<RecordingEvent>)
    requires a != [] && b != []
    ensures RecordingEndTime(a + b) <= RecordingEndTime(a) || RecordingEndTime(a + b) <= RecordingEndTime(b)
  {
    var ab := a + b;
    var k :| 0 <= k < |ab| && ab[k].endTime == RecordingEndTime(ab);
    if k < |a| {
      assert ab[k] == a[k];
    } else {
      assert ab[k] == b[k - |a|];
    }
  }

  /** Appending a non-empty batch gives the larger of the two end times. */
  lemma EndTimeAppend(a: seq<RecordingEvent>, b: seq<RecordingEvent>)
    requires a != [] && b != []
    ensures RecordingEndTime(a + b) == MaxReal(RecordingEndTime(a), RecordingEndTime(b))
  {
    EndTimeAppendBelow(a, b);
    EndTimeAppendAttained(a, b);
  }

  // ---------------------------------------------------------------------
  // The timeline of start and end entries

  datatype EntryKind = Start | End

  /**
   * One entry of `timelineEvents`. `pushIndex` is the position at which the
   * entry was pushed; it stands for the identity of the JavaScript object
   * and is what a stable sort preserves among equal times.
   */
  datatype TimelineEntry = TimelineEntry(time: real, kind: EntryKind, midiNumber: int, event: RecordingEvent, pushIndex: nat)

  function EntryTime(x: TimelineEntry): real { x.time }

  function EntryRank(x: TimelineEntry): int { x.pushIndex }

  /** The start entry of an event, pushed at position `k`. */
  function StartEntry(e: RecordingEvent, k: nat): TimelineEntry {
    TimelineEntry(e.startTime, Start, e.midiNumber, e, k)
  }

  /** The end entry of an event, pushed at position `k`. */
  function EndEntry(e: RecordingEvent, k: nat): TimelineEntry {
    TimelineEntry(e.endTime, End, e.midiNumber, e, k)
  }

  /** The `k`-th push of the `forEach`: the start entry and then the end entry of each event in turn. */
  function EntryAt(events: seq<RecordingEvent>, k: nat): TimelineEntry
    requires k < 2 * |events|
  {
    if k % 2 == 0 then StartEntry(events[k / 2], k) else EndEntry(events[k / 2], k)
  }

  /** `timelineEvents` after the `forEach` and before the sort. */
  function TimelineOf(events: seq<RecordingEvent>): (r: seq<TimelineEntry>)
    ensures |r| == 2 * |events|
  {
    seq(2 * |events|, k requires 0 <= k < 2 * |events| => EntryAt(events, k))
  }

  /** The unsorted timeline holds exactly one start and one end entry per event, in event order. */
  lemma TimelineShape(events: seq<RecordingEvent>, i: int)
    requires 0 <= i < |events|
    ensures |TimelineOf(events)| == 2 * |events|
    ensures TimelineOf(events)[2 * i] == StartEntry(events[i], 2 * i)
    ensures TimelineOf(events)[2 * i + 1] == EndEntry(events[i], 2 * i + 1)
  {
    assert (2 * i) / 2 == i && (2 * i) % 2 == 0;
    assert (2 * i + 1) / 2 == i && (2 * i + 1) % 2 == 1;
  }

  /** The `forEach` loop that pushes two entries per event. */
  method BuildTimeline(events: seq<RecordingEvent>) returns (timeline: seq<TimelineEntry>)
    ensures timeline == TimelineOf(events)
    ensures |timeline| == 2 * |events|
    ensures forall i :: 0 <= i < |events| ==>
              timeline[2 * i] == StartEntry(events[i], 2 * i) && timeline[2 * i + 1] == EndEntry(events[i], 2 * i + 1)
  {
    timeline := [];
    var i := 0;
    while i < |events|
      invariant 0 <= i <= |events|
      invariant |timeline| == 2 * i
      invariant forall k :: 0 <= k < 2 * i ==> timeline[k] == EntryAt(events, k)
    {
      assert (2 * i) / 2 == i && (2 * i) % 2 == 0;
      assert (2 * i + 1) / 2 == i && (2 * i + 1) % 2 == 1;
      timeline := timeline + [StartEntry(events[i], 2 * i)];
      timeline := timeline + [EndEntry(events[i], 2 * i + 1)];
      i := i + 1;
    }
    forall i | 0 <= i < |events|
      ensures timeline[2 * i] == StartEntry(events[i], 2 * i) && timeline[2 * i + 1] == EndEntry(events[i], 2 * i + 1)
    {
      TimelineShape(events, i);
    }
  }

  /** `timelineEvents.sort((a, b) => a.time - b.time)`. */
  function SortedTimeline(events: seq<RecordingEvent>): (r: seq<TimelineEntry>)
    ensures |r| == 2 * |events|
  {
    Sorting.SortBy(TimelineOf(events), EntryTime)
  }

  /** Builds `timelineEvents` and sorts it by time, as Play does. */
  method BuildSortedTimeline(events: seq<RecordingEvent>) returns (timeline: seq<TimelineEntry>)
    ensures timeline == SortedTimeline(events)
  {
    timeline := BuildTimeline(events);
    timeline := Sorting.SortBy(timeline, EntryTime);
  }

  /**
   * The sorted timeline has two entries per event, is a rearrangement of the
   * pushed entries, is non-decreasing in time, and entries with equal times
   * stay in push order.
   */
  lemma SortedTimelineOrder(events: seq<RecordingEvent>)
    ensures |SortedTimeline(events)| == 2 * |events|
    ensures multiset(SortedTimeline(events)) == multiset(TimelineOf(events))
    ensures Sorting.StableOrder(SortedTimeline(events), EntryTime, EntryRank)
    ensures forall i, j :: 0 <= i < j < |SortedTimeline(events)| ==>
              SortedTimeline(events)[i].time <= SortedTimeline(events)[j].time
  {
    var t := TimelineOf(events);
    Sorting.SortByElements(t, EntryTime);
    assert Sorting.RankIncreasing(t, EntryRank);
    Sorting.SortByStable(t, EntryTime, EntryRank);
    var s := SortedTimeline(events);
    forall i, j | 0 <= i < j < |s| ensures s[i].time <= s[j].time {
      assert Sorting.Precedes(s[i], s[j], EntryTime, EntryRank);
    }
  }

  /** Every entry of the sorted timeline is the start or end entry of one of the events. */
  lemma SortedTimelineEntries(events: seq<RecordingEvent>, x: TimelineEntry)
    requires x in SortedTimeline(events)
    ensures exists i :: 0 <= i < |events| && x.event == events[i] && x.midiNumber == events[i].midiNumber &&
              (x.kind == Start ==> x.time == events[i].startTime) && (x.kind == End ==> x.time == events[i].endTime)
  {
    Sorting.SortByElements(TimelineOf(events), EntryTime);
    assert x in multiset(SortedTimeline(events));
    assert x in multiset(TimelineOf(events));
    var k :| 0 <= k < |TimelineOf(events)| && TimelineOf(events)[k] == x;
    assert 0 <= k / 2 < |events|;
  }

  // ---------------------------------------------------------------------
  // Timers

  /**
   * The delay `setTimeout` actually uses for a requested delay of `ms`
   * milliseconds: the WebIDL `long` conversion truncates the fraction, and a
   * negative delay is treated as 0.
   */
  function DelayMs(ms: real): (d: int)
    ensures d >= 0
  {
    if ms < 0.0 then 0 else ms.Floor
  }

  lemma DelayMonotone(a: real, b: real)
    requires a <= b
    ensures DelayMs(a) <= DelayMs(b)
  {
  }

  /** What a scheduled callback does when it fires. */
  datatype Action =
    | StartNote(midiNumber: int, velocity: Option<int>)
    | EndNote(midiNumber: int)
    | AutoStop

  /** A pending timer: its handle, the clock reading at which it is due, and its callback. */
  datatype Timer = Timer(handle: nat, due: int, action: Action)

  /** The callback Play schedules for a timeline entry. */
  function ActionOf(x: TimelineEntry): (a: Action)
    ensures !a.AutoStop? && a.midiNumber == x.midiNumber
    ensures a.StartNote? <==> x.kind == Start
    ensures a.StartNote? ==> a.velocity == x.event.velocity
  {
    if x.kind == Start then StartNote(x.midiNumber, x.event.velocity) else EndNote(x.midiNumber)
  }

  /** The browser fires `a` before `b`: earlier due time, or the same due time and scheduled earlier. */
  predicate FiresBefore(a: Timer, b: Timer) {
    a.due < b.due || (a.due == b.due && a.handle < b.handle)
  }

  /** A pending-timer queue in firing order. */
  predicate QueueOrdered(q: seq<Timer>) {
    forall i, j {:trigger FiresBefore(q[i], q[j])} :: 0 <= i < j < |q| ==> FiresBefore(q[i], q[j])
  }

  /** `setTimeout`: the new timer fires after every pending timer due no later than it. */
  function Enqueue(q: seq<Timer>, t: Timer): (r: seq<Timer>)
    ensures |r| == |q| + 1
  {
    if |q| == 0 || t.due < q[0].due then [t] + q
    else [q[0]] + Enqueue(q[1..], t)
  }

  /** Scheduling adds exactly the new timer to the pending ones. */
  lemma {:induction false} EnqueueElements(q: seq<Timer>, t: Timer)
    ensures multiset(Enqueue(q, t)) == multiset(q) + multiset{t}
  {
    if q != [] && !(t.due < q[0].due) {
      EnqueueElements(q[1..], t);
      assert q == [q[0]] + q[1..];
    }
  }

  /** The queue after scheduling the first `k` timers of `ts`, one after another, on an empty queue. */
  function QueueAfter(ts: seq<Timer>, k: nat): seq<Timer>
    requires k <= |ts|
  {
    if k == 0 then [] else Enqueue(QueueAfter(ts, k - 1), ts[k - 1])
  }

  /** The handles `h0`, `h0 + 1`, ..., `h0 + n - 1`. */
  function HandleRange(h0: nat, n: nat): (r: seq<nat>)
    ensures |r| == n
  {
    if n == 0 then [] else HandleRange(h0, n - 1) + [h0 + n - 1]
  }

  /** The `j`-th handle of the range is `h0 + j`. */
  lemma {:induction false} HandleRangeElements(h0: nat, n: nat)
    ensures forall j :: 0 <= j < n ==> HandleRange(h0, n)[j] == h0 + j
  {
    if n > 0 {
      HandleRangeElements(h0, n - 1);
      assert forall j :: 0 <= j < n - 1 ==> HandleRange(h0, n)[j] == HandleRange(h0, n - 1)[j];
    }
  }

  /** `clearTimeout(h)`: the timer with handle `h`, if pending, is dropped. */
  function Cancel(q: seq<Timer>, h: nat): (r: seq<Timer>)
    ensures forall t :: t in r <==> t in q && t.handle != h
    ensures |r| <= |q|
  {
    if |q| == 0 then []
    else
      assert q == [q[0]] + q[1..];
      (if q[0].handle == h then [] else [q[0]]) + Cancel(q[1..], h)
  }

  /** The pending timers left after `clearTimeout` of every handle in `hs`. */
  function CancelAll(q: seq<Timer>, hs: seq<nat>): seq<Timer> {
    if |q| == 0 then []
    else (if q[0].handle in hs then [] else [q[0]]) + CancelAll(q[1..], hs)
  }

  lemma {:induction false} CancelStep(q: seq<Timer>, hs: seq<nat>, h: nat)
    ensures Cancel(CancelAll(q, hs), h) == CancelAll(q, hs + [h])
  {
    if q != [] {
      CancelStep(q[1..], hs, h);
      var rest := CancelAll(q[1..], hs);
      var hs' := hs + [h];
      assert q[0].handle in hs' <==> q[0].handle in hs || q[0].handle == h;
      if q[0].handle in hs {
        assert CancelAll(q, hs) == rest;
        assert CancelAll(q, hs') == CancelAll(q[1..], hs');
      } else {
        var c := [q[0]] + rest;
        assert CancelAll(q, hs) == c;
        assert c[0] == q[0] && c[1..] == rest;
        assert Cancel(c, h) == (if q[0].handle == h then [] else [q[0]]) + Cancel(rest, h);
        assert CancelAll(q, hs') == (if q[0].handle == h then [] else [q[0]]) + CancelAll(q[1..], hs');
      }
    }
  }

  /** Cancelling the handles of `hs` one after another, up to the `i`-th. */
  lemma CancelNext(q: seq<Timer>, hs: seq<nat>, i: nat)
    requires i < |hs|
    ensures Cancel(CancelAll(q, hs[..i]), hs[i]) == CancelAll(q, hs[..i + 1])
  {
    CancelStep(q, hs[..i], hs[i]);
    assert hs[..i + 1] == hs[..i] + [hs[i]];
  }

  lemma {:induction false} CancelAllNone(q: seq<Timer>)
    ensures CancelAll(q, []) == q
  {
    if q != [] {
      CancelAllNone(q[1..]);
      assert q == [q[0]] + q[1..];
    }
  }

  /** Cancelling every handle of the pending timers leaves none pending. */
  lemma {:induction false} CancelAllCovered(q: seq<Timer>, hs: seq<nat>)
    requires forall k :: 0 <= k < |q| ==> q[k].handle in hs
    ensures CancelAll(q, hs) == []
  {
    if q != [] {
      CancelAllCovered(q[1..], hs);
    }
  }

  /** Scheduling depends only on the timers scheduled so far. */
  lemma {:induction false} QueueAfterPrefix(a: seq<Timer>, b: seq<Timer>, k: nat)
    requires k <= |a|
    ensures QueueAfter(a + b, k) == QueueAfter(a, k)
  {
    if k > 0 {
      QueueAfterPrefix(a, b, k - 1);
      var q := QueueAfter(a, k - 1);
      var t := a[k - 1];
      assert (a + b)[k - 1] == t;
      assert QueueAfter(a + b, k) == Enqueue(q, t);
    }
  }

  /** Scheduling one more timer after the timers `a`. */
  lemma QueueAfterLast(a: seq<Timer>, t: Timer)
    ensures QueueAfter(a + [t], |a| + 1) == Enqueue(QueueAfter(a, |a|), t)
  {
    var b := a + [t];
    assert b[|a|] == t;
    assert QueueAfter(b, |a| + 1) == Enqueue(QueueAfter(b, |a|), t);
    QueueAfterPrefix(a, [t], |a|);
  }

  lemma QueueTail(q: seq<Timer>)
    requires q != [] && QueueOrdered(q)
    ensures QueueOrdered(q[1..])
  {
    forall i, j | 0 <= i < j < |q[1..]| ensures FiresBefore(q[1..][i], q[1..][j]) {
      assert q[1..][i] == q[i + 1] && q[1..][j] == q[j + 1];
    }
  }

  /** A timer that fires before every timer of an ordered queue can go in front of it. */
  lemma QueueCons(y: Timer, s: seq<Timer>)
    requires QueueOrdered(s)
    requires forall j :: 0 <= j < |s| ==> FiresBefore(y, s[j])
    ensures QueueOrdered([y] + s)
  {
    var r := [y] + s;
    forall i, j | 0 <= i < j < |r| ensures FiresBefore(r[i], r[j]) {
      assert r[j] == s[j - 1];
      if i > 0 {
        assert r[i] == s[i - 1];
      }
    }
  }

  lemma {:induction false} EnqueueOrdered(q: seq<Timer>, t: Timer)
    requires QueueOrdered(q)
    requires forall x :: x in q ==> x.handle < t.handle
    ensures QueueOrdered(Enqueue(q, t))
  {
    if q == [] || t.due < q[0].due {
      forall j | 0 <= j < |q| ensures FiresBefore(t, q[j]) {
        assert j == 0 || FiresBefore(q[0], q[j]);
      }
      QueueCons(t, q);
    } else {
      QueueTail(q);
      EnqueueOrdered(q[1..], t);
      var s := Enqueue(q[1..], t);
      EnqueueElements(q[1..], t);
      forall j | 0 <= j < |s| ensures FiresBefore(q[0], s[j]) {
        assert s[j] in multiset(s);
        if s[j] != t {
          assert s[j] in multiset(q[1..]);
          var k :| 0 <= k < |q[1..]| && q[1..][k] == s[j];
          assert q[k + 1] == s[j];
        } else {
          assert q[0] in q;
        }
      }
      QueueCons(q[0], s);
    }
  }

  /** Scheduling keeps the queue ordered and adds exactly the new timer. */
  lemma ScheduleStep(q: seq<Timer>, handles: seq<nat>, nextHandle: nat, now: int, t: Timer)
    requires QueueOrdered(q)
    requires forall k :: 0 <= k < |q| ==> q[k].handle in handles && q[k].handle < nextHandle && q[k].due >= now
    requires t.handle == nextHandle && t.due >= now
    ensures QueueOrdered(Enqueue(q, t))
    ensures var r := Enqueue(q, t);
      forall k :: 0 <= k < |r| ==> r[k].handle in handles + [nextHandle] && r[k].handle < nextHandle + 1 && r[k].due >= now
  {
    forall x | x in q ensures x.handle < t.handle {
      var k :| 0 <= k < |q| && q[k] == x;
    }
    EnqueueOrdered(q, t);
    var r := Enqueue(q, t);
    EnqueueElements(q, t);
    forall k | 0 <= k < |r|
      ensures r[k].handle in handles + [nextHandle] && r[k].handle < nextHandle + 1 && r[k].due >= now
    {
      assert r[k] in multiset(r);
      if r[k] != t {
        assert r[k] in multiset(q);
        var j :| 0 <= j < |q| && q[j] == r[k];
      }
    }
  }

  /** A timer due no earlier than every pending one goes to the back of the queue. */
  lemma {:induction false} EnqueueLast(q: seq<Timer>, t: Timer)
    requires forall x :: x in q ==> x.due <= t.due
    ensures Enqueue(q, t) == q + [t]
  {
    if q != [] {
      assert q[0] in q;
      EnqueueLast(q[1..], t);
      assert q == [q[0]] + q[1..];
    }
  }

  /** Timers scheduled in firing order stay in that order in the queue. */
  lemma {:induction false} QueueInOrder(ts: seq<Timer>, k: nat)
    requires QueueOrdered(ts) && k <= |ts|
    ensures QueueAfter(ts, k) == ts[..k]
  {
    if k > 0 {
      QueueInOrder(ts, k - 1);
      forall x | x in ts[..k - 1] ensures x.due <= ts[k - 1].due {
        var j :| 0 <= j < k - 1 && ts[..k - 1][j] == x;
        assert FiresBefore(ts[j], ts[k - 1]);
      }
      EnqueueLast(ts[..k - 1], ts[k - 1]);
      assert ts[..k - 1] + [ts[k - 1]] == ts[..k];
    }
  }

  lemma {:induction false} CancelOrdered(q: seq<Timer>, h: nat)
    requires QueueOrdered(q)
    ensures QueueOrdered(Cancel(q, h))
  {
    if q != [] {
      QueueTail(q);
      CancelOrdered(q[1..], h);
      var s := Cancel(q[1..], h);
      if q[0].handle != h {
        forall j | 0 <= j < |s| ensures FiresBefore(q[0], s[j]) {
          assert s[j] in s;
          var k :| 0 <= k < |q[1..]| && q[1..][k] == s[j];
          assert q[k + 1] == s[j];
        }
        QueueCons(q[0], s);
      }
    }
  }

  // ---------------------------------------------------------------------
  // The timers Play schedules

  /** One timer per sorted timeline entry, due `time * 1000` ms after `now`, with consecutive handles from `h0`. */
  function EntryTimers(timeline: seq<TimelineEntry>, now: int, h0: nat): seq<Timer> {
    seq(|timeline|, k requires 0 <= k < |timeline| =>
      Timer(h0 + k, now + DelayMs(timeline[k].time * 1000.0), ActionOf(timeline[k])))
  }

  /** The auto-stop timer, scheduled only when the recording ends after time 0. */
  function StopTimers(endTime: real, now: int, h: nat): seq<Timer> {
    if endTime > 0.0 then [Timer(h, now + DelayMs(endTime * 1000.0), AutoStop)] else []
  }

  /** The timers scheduled for a sorted timeline and an end time, in the order they are scheduled. */
  function PlanFor(timeline: seq<TimelineEntry>, endTime: real, now: int, h0: nat): seq<Timer> {
    EntryTimers(timeline, now, h0) + StopTimers(endTime, now, h0 + |timeline|)
  }

  /** Every timer Play schedules, in the order it schedules them. */
  function PlaybackPlan(events: seq<RecordingEvent>, now: int, h0: nat): (r: seq<Timer>)
    ensures |r| == 2 * |events| + (if RecordingEndTime(events) > 0.0 then 1 else 0)
  {
    PlanFor(SortedTimeline(events), RecordingEndTime(events), now, h0)
  }

  /**
   * Scheduling the whole plan is scheduling the entry timers and then, when
   * the end time is positive, the auto-stop.
   */
  lemma PlanQueue(timeline: seq<TimelineEntry>, endTime: real, now: int, h0: nat)
    ensures var plan := PlanFor(timeline, endTime, now, h0);
      var entries := EntryTimers(timeline, now, h0);
      var n := |timeline|;
      && (endTime > 0.0 ==>
            && |plan| == n + 1
            && QueueAfter(plan, |plan|) == Enqueue(QueueAfter(entries, n), Timer(h0 + n, now + DelayMs(endTime * 1000.0), AutoStop))
            && HandleRange(h0, |plan|) == HandleRange(h0, n) + [h0 + n])
      && (endTime <= 0.0 ==> plan == entries)
  {
    var entries := EntryTimers(timeline, now, h0);
    var n := |timeline|;
    var plan := PlanFor(timeline, endTime, now, h0);
    if endTime > 0.0 {
      var t := Timer(h0 + n, now + DelayMs(endTime * 1000.0), AutoStop);
      assert plan == entries + [t];
      QueueAfterLast(entries, t);
      assert HandleRange(h0, n + 1) == HandleRange(h0, n) + [h0 + n];
    } else {
      assert plan == entries;
    }
  }

  /**
   * The plan: one timer per timeline entry, in sorted timeline order, at
   * `time * 1000` ms with the entry's callback, followed by one auto-stop at
   * the end time exactly when that end time is positive; handles are
   * consecutive.
   */
  lemma PlanShape(events: seq<RecordingEvent>, now: int, h0: nat)
    ensures var plan := PlaybackPlan(events, now, h0);
      && var tl := SortedTimeline(events);
      && |plan| == 2 * |events| + (if RecordingEndTime(events) > 0.0 then 1 else 0)
      && (forall k :: 0 <= k < |tl| ==>
            plan[k] == Timer(h0 + k, now + DelayMs(tl[k].time * 1000.0), ActionOf(tl[k])))
      && (RecordingEndTime(events) > 0.0 ==>
            plan[2 * |events|] == Timer(h0 + 2 * |events|, now + DelayMs(RecordingEndTime(events) * 1000.0), AutoStop))
  {
    SortedTimelineOrder(events);
  }

  /** Entries sorted by time give entry timers in firing order. */
  lemma EntryTimersOrdered(tl: seq<TimelineEntry>, now: int, h0: nat)
    requires forall i, j :: 0 <= i < j < |tl| ==> tl[i].time <= tl[j].time
    ensures QueueOrdered(EntryTimers(tl, now, h0))
  {
    var es := EntryTimers(tl, now, h0);
    forall i, j | 0 <= i < j < |es| ensures FiresBefore(es[i], es[j]) {
      DelayMonotone(tl[i].time * 1000.0, tl[j].time * 1000.0);
    }
  }

  /** With no entry after the end time, the auto-stop fires after every entry timer. */
  lemma PlanForOrdered(tl: seq<TimelineEntry>, endTime: real, now: int, h0: nat)
    requires forall i, j :: 0 <= i < j < |tl| ==> tl[i].time <= tl[j].time
    requires forall k :: 0 <= k < |tl| ==> tl[k].time <= endTime
    ensures QueueOrdered(PlanFor(tl, endTime, now, h0))
  {
    var es := EntryTimers(tl, now, h0);
    EntryTimersOrdered(tl, now, h0);
    var plan := PlanFor(tl, endTime, now, h0);
    forall i, j | 0 <= i < j < |plan| ensures FiresBefore(plan[i], plan[j]) {
      assert plan[i] == es[i];
      if j < |tl| {
        assert plan[j] == es[j];
      } else {
        DelayMonotone(tl[i].time * 1000.0, endTime * 1000.0);
      }
    }
  }

  /**
   * When every event ends no earlier than it starts, the plan is already in
   * firing order: the browser fires the timeline entries in sorted order and
   * the auto-stop last.
   */
  lemma PlanInFiringOrder(events: seq<RecordingEvent>, now: int, h0: nat)
    requires forall i :: 0 <= i < |events| ==> events[i].startTime <= events[i].endTime
    ensures QueueOrdered(PlaybackPlan(events, now, h0))
    ensures QueueAfter(PlaybackPlan(events, now, h0), |PlaybackPlan(events, now, h0)|) == PlaybackPlan(events, now, h0)
  {
    var tl := SortedTimeline(events);
    SortedTimelineOrder(events);
    var endTime := RecordingEndTime(events);
    forall k | 0 <= k < |tl| ensures tl[k].time <= endTime {
      assert tl[k] in tl;
      SortedTimelineEntries(events, tl[k]);
    }
    PlanForOrdered(tl, endTime, now, h0);
    var plan := PlaybackPlan(events, now, h0);
    QueueInOrder(plan, |plan|);
    assert plan[..|plan|] == plan;
  }

  // ---------------------------------------------------------------------
  // What the callbacks do

  /** `event.velocity || 100`: an absent or zero velocity plays at 100. */
  function PlaybackVelocity(v: Option<int>): (r: int)
    ensures v.Some? && v.value != 0 ==> r == v.value
    ensures v.None? || v.value == 0 ==> r == 100
    ensures ValidVelocity(v) ==> 0 < r <= 127
  {
    if v.None? || v.value == 0 then 100 else v.value
  }

  /** `events.filter(e => currentlyPlaying.has(e.midiNumber))`. */
  function CurrentEventsOf(events: seq<RecordingEvent>, playing: set<int>): (r: seq<RecordingEvent>)
    ensures |r| <= |events|
  {
    if |events| == 0 then []
    else
      assert events == [events[0]] + events[1..];
      (if events[0].midiNumber in playing then [events[0]] else []) + CurrentEventsOf(events[1..], playing)
  }

  /**
   * The filter keeps event order and multiplicity: no events give none, one
   * event is kept exactly when its pitch sounds, and filtering two event
   * lists joined is joining their filtered lists.
   */
  lemma {:induction false} CurrentEventsAppend(a: seq<RecordingEvent>, b: seq<RecordingEvent>, playing: set<int>)
    ensures CurrentEventsOf(a + b, playing) == CurrentEventsOf(a, playing) + CurrentEventsOf(b, playing)
  {
    if a == [] {
      assert a + b == b;
    } else {
      CurrentEventsAppend(a[1..], b, playing);
      assert a == [a[0]] + a[1..];
      assert a + b == [a[0]] + (a[1..] + b);
      CurrentEventsCons(a[0], a[1..], playing);
      CurrentEventsCons(a[0], a[1..] + b, playing);
    }
  }

  /** The current events are exactly the recorded events whose pitch sounds. */
  lemma {:induction false} CurrentEventsMembers(events: seq<RecordingEvent>, playing: set<int>)
    ensures forall e :: e in CurrentEventsOf(events, playing) <==> e in events && e.midiNumber in playing
  {
    if events != [] {
      CurrentEventsMembers(events[1..], playing);
      assert events == [events[0]] + events[1..];
      CurrentEventsCons(events[0], events[1..], playing);
    }
  }

  lemma CurrentEventsCons(e: RecordingEvent, rest: seq<RecordingEvent>, playing: set<int>)
    ensures CurrentEventsOf([e] + rest, playing) == (if e.midiNumber in playing then [e] else []) + CurrentEventsOf(rest, playing)
  {
    assert ([e] + rest)[0] == e && ([e] + rest)[1..] == rest;
  }

  lemma CurrentEventsSingle(e: RecordingEvent, playing: set<int>)
    ensures CurrentEventsOf([], playing) == []
    ensures CurrentEventsOf([e], playing) == (if e.midiNumber in playing then [e] else [])
  {
    assert [e][1..] == [];
  }

  /** The sounding set after a callback: a start adds its pitch, an end removes its pitch. */
  function ApplyAction(a: Action, playing: set<int>): (r: set<int>)
    ensures a.StartNote? ==> a.midiNumber in r
    ensures a.EndNote? ==> a.midiNumber !in r
    ensures !a.AutoStop? ==> r - {a.midiNumber} == playing - {a.midiNumber}
    ensures a.AutoStop? ==> r == playing
  {
    match a
    case StartNote(p, _) => playing + {p}
    case EndNote(p) => playing - {p}
    case AutoStop => playing
  }

  /** The sounding set after a sequence of callbacks, starting from `start`. */
  function SoundingAfter(start: set<int>, actions: seq<Action>): set<int>
    decreases |actions|
  {
    if |actions| == 0 then start else ApplyAction(actions[|actions| - 1], SoundingAfter(start, actions[..|actions| - 1]))
  }

  /** `actions` holds no end of pitch `p` from position `from` on. */
  predicate NoEndFrom(actions: seq<Action>, p: int, from: nat) {
    forall j :: from <= j < |actions| ==> !(actions[j].EndNote? && actions[j].midiNumber == p)
  }

  /**
   * A pitch sounds after a sequence of callbacks exactly when some start of
   * it came later than every end of it, or it was sounding before and no
   * end of it came.
   */
  lemma {:induction false} SoundingAfterLastAction(start: set<int>, actions: seq<Action>, p: int)
    ensures p in SoundingAfter(start, actions) <==>
      || (exists i :: 0 <= i < |actions| && actions[i].StartNote? && actions[i].midiNumber == p && NoEndFrom(actions, p, i + 1))
      || (p in start && NoEndFrom(actions, p, 0))
    decreases |actions|
  {
    if actions != [] {
      var n := |actions| - 1;
      var init := actions[..n];
      SoundingAfterLastAction(start, init, p);
      assert forall i :: 0 <= i < n ==> init[i] == actions[i];
      var a := actions[n];
      if p in SoundingAfter(start, actions) {
        if !(a.StartNote? && a.midiNumber == p) {
          if exists i :: 0 <= i < n && init[i].StartNote? && init[i].midiNumber == p && NoEndFrom(init, p, i + 1) {
            var i :| 0 <= i < n && init[i].StartNote? && init[i].midiNumber == p && NoEndFrom(init, p, i + 1);
            assert actions[i] == init[i];
          }
        }
      }
    }
  }

  /** One more callback acts on the sounding set the earlier ones left. */
  lemma SoundingAfterAppend(start: set<int>, actions: seq<Action>, a: Action)
    ensures SoundingAfter(start, actions + [a]) == ApplyAction(a, SoundingAfter(start, actions))
  {
    assert (actions + [a])[..|actions|] == actions;
  }

  /** The callbacks of a sequence of timers, in the order of the timers. */
  function ActionsOf(ts: seq<Timer>): (r: seq<Action>)
    ensures |r| == |ts|
  {
    seq(|ts|, k requires 0 <= k < |ts| => ts[k].action)
  }

  lemma ActionsOfAppend(ts: seq<Timer>, t: Timer)
    ensures ActionsOf(ts + [t]) == ActionsOf(ts) + [t.action]
  {
    assert forall k :: 0 <= k < |ts| ==> ActionsOf(ts + [t])[k] == ActionsOf(ts)[k];
  }

  /** The last of the timers `fired` is the auto-stop, which ends playback. */
  predicate EndsPlayback(fired: seq<Timer>) {
    fired != [] && fired[|fired| - 1].action.AutoStop?
  }

  /**
   * `fired` are the first timers of the queue `q`, all due by `t`, with an
   * auto-stop at most as the last of them; `rest` is what is still pending:
   * nothing after an auto-stop, otherwise the rest of `q`.
   */
  predicate FiredPrefix(q: seq<Timer>, fired: seq<Timer>, rest: seq<Timer>, t: int) {
    && |fired| <= |q| && fired == q[..|fired|]
    && (forall k :: 0 <= k < |fired| ==> fired[k].due <= t)
    && (forall k :: 0 <= k < |fired| - 1 ==> !fired[k].action.AutoStop?)
    && rest == if EndsPlayback(fired) then [] else q[|fired|..]
  }

  /** Firing the first pending timer, when it is due by `t`, extends the fired prefix. */
  lemma FiredPrefixStep(q: seq<Timer>, fired: seq<Timer>, rest: seq<Timer>, t: int)
    requires FiredPrefix(q, fired, rest, t) && rest != [] && rest[0].due <= t
    ensures FiredPrefix(q, fired + [rest[0]], if rest[0].action.AutoStop? then [] else rest[1..], t)
  {
    var x := rest[0];
    assert !EndsPlayback(fired);
    assert x == q[|fired|];
    assert fired + [x] == q[..|fired| + 1];
    assert rest[1..] == q[|fired| + 1..];
  }

  // ---------------------------------------------------------------------
  // Worked examples

  /** The entries of two notes, in push order. */
  lemma TwoNoteTimeline(a: RecordingEvent, b: RecordingEvent)
    ensures TimelineOf([a, b]) == [StartEntry(a, 0), EndEntry(a, 1), StartEntry(b, 2), EndEntry(b, 3)]
  {
    TimelineShape([a, b], 0);
    TimelineShape([a, b], 1);
  }

  /** Any arrangement of a timeline's entries that is in stable order is the sorted timeline. */
  lemma SortedTimelineIs(events: seq<RecordingEvent>, expected: seq<TimelineEntry>)
    requires multiset(expected) == multiset(TimelineOf(events))
    requires Sorting.StableOrder(expected, EntryTime, EntryRank)
    ensures SortedTimeline(events) == expected
  {
    SortedTimelineOrder(events);
    Sorting.StableOrderUnique(SortedTimeline(events), expected, EntryTime, EntryRank);
  }

  lemma StableOrderOfFour(x0: TimelineEntry, x1: TimelineEntry, x2: TimelineEntry, x3: TimelineEntry)
    requires x0.time <= x1.time <= x2.time <= x3.time
    requires x0.pushIndex < x1.pushIndex || x0.time < x1.time
    requires x1.time < x2.time && x2.pushIndex < x3.pushIndex
    ensures Sorting.StableOrder([x0, x1, x2, x3], EntryTime, EntryRank)
  {
    var r := [x0, x1, x2, x3];
    forall i, j | 0 <= i < j < 4 ensures Sorting.Precedes(r[i], r[j], EntryTime, EntryRank) {
    }
  }

  /**
   * Notes A (0 s to 1 s) and B (0.5 s to 1.5 s) play in the order A start,
   * B start, A end, B end.
   */
  lemma OverlappingNotesOrder(a: RecordingEvent, b: RecordingEvent)
    requires a.startTime == 0.0 && a.endTime == 1.0 && b.startTime == 0.5 && b.endTime == 1.5
    ensures SortedTimeline([a, b]) == [StartEntry(a, 0), StartEntry(b, 2), EndEntry(a, 1), EndEntry(b, 3)]
  {
    var x0, x1, x2, x3 := StartEntry(a, 0), EndEntry(a, 1), StartEntry(b, 2), EndEntry(b, 3);
    TwoNoteTimeline(a, b);
    StableOrderOfFour(x0, x2, x1, x3);
    assert multiset([x0, x2, x1, x3]) == multiset([x0, x1, x2, x3]);
    SortedTimelineIs([a, b], [x0, x2, x1, x3]);
  }

  /**
   * The timers Play schedules for A (0 s to 1 s) and B (0.5 s to 1.5 s):
   * both starts, both ends, and the auto-stop at 1.5 s, all in firing order.
   */
  lemma OverlappingPlan(a: RecordingEvent, b: RecordingEvent, now: int, h0: nat)
    requires a.startTime == 0.0 && a.endTime == 1.0 && b.startTime == 0.5 && b.endTime == 1.5
    ensures PlaybackPlan([a, b], now, h0) ==
      [Timer(h0, now, StartNote(a.midiNumber, a.velocity)),
       Timer(h0 + 1, now + 500, StartNote(b.midiNumber, b.velocity)),
       Timer(h0 + 2, now + 1000, EndNote(a.midiNumber)),
       Timer(h0 + 3, now + 1500, EndNote(b.midiNumber)),
       Timer(h0 + 4, now + 1500, AutoStop)]
    ensures QueueAfter(PlaybackPlan([a, b], now, h0), 5) == PlaybackPlan([a, b], now, h0)
  {
    OverlappingNotesOrder(a, b);
    assert RecordingEndTime([a, b]) == 1.5;
    assert DelayMs(0.0 * 1000.0) == 0 && DelayMs(0.5 * 1000.0) == 500;
    assert DelayMs(1.0 * 1000.0) == 1000 && DelayMs(1.5 * 1000.0) == 1500;
    PlanInFiringOrder([a, b], now, h0);
  }

  /**
   * Two overlapping notes of the same pitch: the first note's end silences
   * the pitch although the second note has not ended yet.
   */
  lemma SamePitchEndSilences(p: int, v1: Option<int>, v2: Option<int>)
    ensures SoundingAfter({}, [StartNote(p, v1), StartNote(p, v2)]) == {p}
    ensures SoundingAfter({}, [StartNote(p, v1), StartNote(p, v2), EndNote(p)]) == {}
  {
    var s1 := [StartNote(p, v1)];
    var s2 := [StartNote(p, v1), StartNote(p, v2)];
    var s3 := [StartNote(p, v1), StartNote(p, v2), EndNote(p)];
    assert s1[..0] == [];
    assert SoundingAfter({}, s1) == {p};
    assert s2[..1] == s1;
    assert SoundingAfter({}, s2) == {p};
    assert s3[..2] == s2;
  }
}
