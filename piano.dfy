/**
 * The piano page (pages/piano.tsx): it owns the recording aggregate, merges
 * partial updates into it, runs the transport (Play, Stop, Clear) and the
 * playback timers, and lists the recorded notes.
 *
 * `setTimeout` and `clearTimeout` act on a simulated timer queue and clock
 * (`timers`, `now`); the audio provider's `playNote`/`stopNote` are recorded
 * in the trace `calls`.
 */
module Piano {
  import opened Types
  import opened Timeline
  import Sorting

  // ---------------------------------------------------------------------
  // setRecording and the states the transport produces

  /** A recording whose metadata, if any, carries the recording's end time as its total duration. */
  predicate MetadataConsistent(rec: Recording) {
    rec.recordingMetadata.Some? ==> rec.recordingMetadata.value.totalDuration == RecordingEndTime(rec.events)
  }

  /**
   * `Object.assign({}, recording, value)` followed by recomputing
   * `recordingMetadata.totalDuration` from the merged events.
   */
  function SetRecordingValue(rec: Recording, p: Partial): (r: Recording)
    ensures r.mode == (if p.mode.Some? then p.mode.value else rec.mode)
    ensures r.events == (if p.events.Some? then p.events.value else rec.events)
    ensures r.currentTime == (if p.currentTime.Some? then p.currentTime.value else rec.currentTime)
    ensures r.currentEvents == (if p.currentEvents.Some? then p.currentEvents.value else rec.currentEvents)
    ensures r.recordingMetadata.Some? <==> p.recordingMetadata.Some? || rec.recordingMetadata.Some?
    ensures r.recordingMetadata.Some? ==>
      var m := if p.recordingMetadata.Some? then p.recordingMetadata.value else rec.recordingMetadata.value;
      r.recordingMetadata.value == m.(totalDuration := RecordingEndTime(r.events))
    ensures MetadataConsistent(r)
  {
    var merged := Recording(
      p.mode.GetOr(rec.mode),
      p.events.GetOr(rec.events),
      p.currentTime.GetOr(rec.currentTime),
      p.currentEvents.GetOr(rec.currentEvents),
      if p.recordingMetadata.Some? then p.recordingMetadata else rec.recordingMetadata);
    if merged.recordingMetadata.Some? then
      merged.(recordingMetadata := Some(merged.recordingMetadata.value.(totalDuration := RecordingEndTime(merged.events))))
    else merged
  }

  /** The update `onClickStop` makes. */
  const StopUpdate: Partial := Partial(mode := Some(RECORDING), currentEvents := Some([]))

  /** The update `onClickClear` makes, stamped with the clock reading `now`. */
  function ClearUpdate(now: int): Partial {
    Partial(events := Some([]), mode := Some(RECORDING), currentEvents := Some([]), currentTime := Some(0.0),
            recordingMetadata := Some(FreshMetadata(now)))
  }

  /** The recording after `onClickStop`: back to RECORDING with nothing current, the notes kept. */
  function Stopped(rec: Recording): (r: Recording)
    ensures r.mode == RECORDING && r.currentEvents == []
    ensures r.events == rec.events && r.currentTime == rec.currentTime
  {
    SetRecordingValue(rec, StopUpdate)
  }

  /** The recording after `onClickClear`: empty, at time 0, with fresh metadata stamped `now`. */
  function Cleared(rec: Recording, now: int): (r: Recording)
    ensures r.mode == RECORDING && r.events == [] && r.currentEvents == [] && r.currentTime == 0.0
    ensures r.recordingMetadata == Some(FreshMetadata(now).(totalDuration := 0.0))
  {
    SetRecordingValue(Stopped(rec), ClearUpdate(now))
  }

  /** Setting only `currentEvents` on a consistent recording changes that field alone. */
  lemma SetCurrentEvents(rec: Recording, current: seq<RecordingEvent>)
    requires MetadataConsistent(rec)
    ensures SetRecordingValue(rec, Partial(currentEvents := Some(current))) == rec.(currentEvents := current)
  {
  }

  /**
   * Stop returns to RECORDING with nothing sounding, keeps the events and
   * `currentTime`, and a second Stop changes nothing.
   */
  lemma StopEffect(rec: Recording)
    ensures Stopped(rec).mode == RECORDING && Stopped(rec).currentEvents == []
    ensures Stopped(rec).events == rec.events && Stopped(rec).currentTime == rec.currentTime
    ensures MetadataConsistent(rec) ==> Stopped(rec) == rec.(mode := RECORDING, currentEvents := [])
    ensures Stopped(Stopped(rec)) == Stopped(rec)
  {
  }

  /**
   * Clear leaves an empty recording in RECORDING mode with zero time and
   * fresh metadata of total duration 0, and clearing again at the same
   * clock reading changes nothing.
   */
  lemma ClearEffect(rec: Recording, now: int)
    ensures Cleared(rec, now) == Recording(RECORDING, [], 0.0, [], Some(FreshMetadata(now)))
    ensures Cleared(Cleared(rec, now), now) == Cleared(rec, now)
  {
  }

  // ---------------------------------------------------------------------
  // The button guards

  /** The Play button is enabled when there are events and playback is not running. */
  predicate PlayEnabled(rec: Recording) {
    |rec.events| > 0 && rec.mode != PLAYING
  }

  /** The Stop button is enabled only while playing. */
  predicate StopEnabled(rec: Recording) {
    rec.mode == PLAYING
  }

  /** The Clear button is enabled when there are events. */
  predicate ClearEnabled(rec: Recording) {
    |rec.events| > 0
  }

  datatype Button = PlayButton | StopButton | ClearButton

  predicate Enabled(b: Button, rec: Recording) {
    match b
    case PlayButton => PlayEnabled(rec)
    case StopButton => StopEnabled(rec)
    case ClearButton => ClearEnabled(rec)
  }

  /**
   * The guards as a state machine: an enabled Play leads to a state where only
   * Stop and Clear are enabled; Stop and Clear disable Stop; after Clear no
   * button is enabled.
   */
  lemma GuardTransitions(rec: Recording, now: int)
    ensures PlayEnabled(rec) ==>
      var playing := SetRecordingValue(rec, Partial(mode := Some(PLAYING)));
      StopEnabled(playing) && !PlayEnabled(playing) && ClearEnabled(playing)
    ensures !StopEnabled(Stopped(rec)) && PlayEnabled(Stopped(rec)) == ClearEnabled(rec)
    ensures !Enabled(PlayButton, Cleared(rec, now)) && !Enabled(StopButton, Cleared(rec, now)) &&
            !Enabled(ClearButton, Cleared(rec, now))
  {
  }

  // ---------------------------------------------------------------------
  // formatRecordedNotes

  function EventStart(e: RecordingEvent): real { e.startTime }

  /** One numbered line of the listing; the two-decimal and percentage formatting is not modelled. */
  datatype NoteLine = NoteLine(number: nat, noteName: string, startTime: real, duration: real, endTime: real,
                               velocity: int, keyPressSource: KeyPressSource)

  datatype Listing = Placeholder(message: string) | Notes(lines: seq<NoteLine>)

  const NoNotesMessage: string := "No notes recorded yet. Start playing!"

  function LineOf(number: nat, e: RecordingEvent): NoteLine {
    NoteLine(number, e.noteName, e.startTime, e.duration, e.endTime, PlaybackVelocity(e.velocity), e.keyPressSource)
  }

  /** The listing of events that are already in display order. */
  function NumberedLines(sorted: seq<RecordingEvent>): seq<NoteLine> {
    seq(|sorted|, i requires 0 <= i < |sorted| => LineOf(i + 1, sorted[i]))
  }

  /** What `formatRecordedNotes` shows for the given events. */
  function NoteListing(events: seq<RecordingEvent>): (r: Listing)
    ensures r.Placeholder? <==> events == []
    ensures r.Notes? ==> |r.lines| == |events|
  {
    if events == [] then Placeholder(NoNotesMessage)
    else Notes(NumberedLines(Sorting.SortBy(events, EventStart)))
  }

  /**
   * The listing is the placeholder exactly when there are no events;
   * otherwise it has one line per event, numbered from 1, in ascending start
   * time, and the lines are the events rearranged.
   */
  lemma ListingOrder(events: seq<RecordingEvent>)
    ensures NoteListing(events).Placeholder? <==> events == []
    ensures NoteListing(events).Placeholder? ==> NoteListing(events).message == NoNotesMessage
    ensures NoteListing(events).Notes? ==>
      var lines := NoteListing(events).lines;
      && |lines| == |events|
      && (forall i :: 0 <= i < |lines| ==> lines[i].number == i + 1)
      && (forall i, j :: 0 <= i < j < |lines| ==> lines[i].startTime <= lines[j].startTime)
      && exists sorted :: multiset(sorted) == multiset(events) && NumberedLines(sorted) == lines
  {
    if events != [] {
      var sorted := Sorting.SortBy(events, EventStart);
      Sorting.SortBySorted(events, EventStart);
      NumberedLinesOrder(sorted);
      assert NoteListing(events).lines == NumberedLines(sorted);
    }
  }

  lemma NumberedLinesOrder(sorted: seq<RecordingEvent>)
    requires Sorting.SortedBy(sorted, EventStart)
    ensures var lines := NumberedLines(sorted);
      && |lines| == |sorted|
      && (forall i :: 0 <= i < |lines| ==> lines[i].number == i + 1)
      && (forall i, j :: 0 <= i < j < |lines| ==> lines[i].startTime <= lines[j].startTime)
  {
    var lines := NumberedLines(sorted);
    forall i, j | 0 <= i < j < |lines| ensures lines[i].startTime <= lines[j].startTime {
      assert lines[i].startTime == EventStart(sorted[i]) && lines[j].startTime == EventStart(sorted[j]);
    }
  }

  // ---------------------------------------------------------------------
  // The page

  /** A call made on the audio provider. */
  datatype AudioCall = PlayNote(midiNumber: int, velocity: int) | StopNote(midiNumber: int)

  /** The audio call one callback makes: a start plays its pitch, an end stops it, the auto-stop calls nothing. */
  function CallOf(a: Action): seq<AudioCall> {
    match a
    case StartNote(p, v) => [PlayNote(p, PlaybackVelocity(v))]
    case EndNote(p) => [StopNote(p)]
    case AutoStop => []
  }

  /** The audio calls a sequence of callbacks makes, in order. */
  function AudioCallsOf(actions: seq<Action>): seq<AudioCall>
    decreases |actions|
  {
    if |actions| == 0 then [] else AudioCallsOf(actions[..|actions| - 1]) + CallOf(actions[|actions| - 1])
  }

  /** The calls the provider receives from a sequence of callbacks: none until its callbacks are bound. */
  function CallsMade(bound: bool, actions: seq<Action>): seq<AudioCall> {
    if bound then AudioCallsOf(actions) else []
  }

  /** One more callback adds its own call after those of the earlier ones. */
  lemma CallsMadeAppend(calls: seq<AudioCall>, bound: bool, actions: seq<Action>, a: Action)
    ensures calls + CallsMade(bound, actions) + CallsMade(bound, [a]) == calls + CallsMade(bound, actions + [a])
  {
    assert (actions + [a])[..|actions|] == actions;
    CallsMadeOne(bound, a);
  }

  lemma CallsMadeOne(bound: bool, a: Action)
    ensures CallsMade(bound, [a]) == if bound then CallOf(a) else []
  {
    if bound {
      assert [a][..0] == [] && [a][0] == a;
      assert AudioCallsOf([a]) == AudioCallsOf([]) + CallOf(a);
    }
  }

  /**
   * The recording after the callbacks of `fired` ran on `rec` and left the
   * sounding set `playing`: unchanged when none ran, stopped when the last
   * was the auto-stop, and otherwise showing the events whose pitch sounds.
   */
  function AfterCallbacks(rec: Recording, fired: seq<Timer>, playing: set<int>): Recording {
    if fired == [] then rec else AfterCallback(rec, fired[|fired| - 1].action, playing)
  }

  /**
   * The recording after one callback that left the sounding set `playing`:
   * the auto-stop stops playback, any other callback shows the events whose
   * pitch sounds.
   */
  function AfterCallback(rec: Recording, a: Action, playing: set<int>): Recording {
    if a.AutoStop? then rec.(mode := RECORDING, currentEvents := [])
    else rec.(currentEvents := CurrentEventsOf(rec.events, playing))
  }

  /** Each callback overwrites what the earlier ones set, so only the last one shows. */
  lemma AfterCallbacksStep(rec: Recording, before: seq<Timer>, x: Timer, s: set<int>, playing: set<int>)
    requires !EndsPlayback(before)
    ensures AfterCallback(AfterCallbacks(rec, before, s), x.action, playing) == AfterCallbacks(rec, before + [x], playing)
  {
    assert (before + [x])[|before|] == x;
  }

  /**
   * The invariants the transport keeps: timers are pending only while
   * playing, nothing is current while recording, and the metadata's total
   * duration follows the events.
   */
  predicate RecordingInvariant(rec: Recording, timersPending: bool) {
    && (timersPending ==> rec.mode == PLAYING)
    && (rec.mode == RECORDING ==> rec.currentEvents == [])
    && MetadataConsistent(rec)
  }

  class PianoPage {
    var recording: Recording
    /** The handles Play pushed into `scheduledEvents`. */
    var scheduledEvents: seq<nat>
    /** The browser's pending timers, in firing order. */
    var timers: seq<Timer>
    var nextHandle: nat
    /** The simulated clock, in milliseconds. */
    var now: int
    /** `currentlyPlaying` of the latest Play. */
    var sounding: set<int>
    /** Whether the audio provider's callbacks have been stored by a render. */
    var callbacksBound: bool
    /** Every `playNote`/`stopNote` the playback made, in order. */
    var calls: seq<AudioCall>

    ghost predicate Valid()
      reads this
    {
      && QueueOrdered(timers)
      && (forall k :: 0 <= k < |timers| ==> timers[k].handle in scheduledEvents && timers[k].handle < nextHandle && timers[k].due >= now)
      && RecordingInvariant(recording, timers != [])
    }

    /** The page's initial state, with the clock reading `now` as the recording's start timestamp. */
    constructor (now: int)
      ensures Valid()
      ensures recording == Recording(RECORDING, [], 0.0, [], Some(FreshMetadata(now)))
      ensures timers == [] && scheduledEvents == [] && calls == [] && sounding == {}
      ensures this.now == now && !callbacksBound
    {
      recording := Recording(RECORDING, [], 0.0, [], Some(FreshMetadata(now)));
      scheduledEvents := [];
      timers := [];
      nextHandle := 0;
      this.now := now;
      sounding := {};
      callbacksBound := false;
      calls := [];
    }

    /** A render stores the audio provider's `playNote` and `stopNote`. */
    method BindCallbacks()
      modifies this`callbacksBound
      ensures callbacksBound
    {
      callbacksBound := true;
    }

    method SetRecording(p: Partial)
      requires Valid()
      requires RecordingInvariant(SetRecordingValue(recording, p), timers != [])
      modifies this`recording
      ensures Valid()
      ensures recording == SetRecordingValue(old(recording), p)
    {
      recording := SetRecordingValue(recording, p);
    }

    /** `setTimeout(callback, ms)`. */
    method SetTimeout(ms: real, action: Action) returns (h: nat)
      modifies this`timers, this`nextHandle
      ensures h == old(nextHandle) && nextHandle == h + 1
      ensures timers == Enqueue(old(timers), Timer(h, now + DelayMs(ms), action))
    {
      h := nextHandle;
      timers := Enqueue(timers, Timer(h, now + DelayMs(ms), action));
      nextHandle := nextHandle + 1;
    }

    /** `clearTimeout(h)`. */
    method ClearTimeout(h: nat)
      requires Valid()
      modifies this`timers
      ensures Valid()
      ensures timers == Cancel(old(timers), h)
    {
      CancelOrdered(timers, h);
      timers := Cancel(timers, h);
    }

    /** `this.scheduledEvents.forEach(clearTimeout)`: afterwards no timer is pending. */
    method CancelScheduled()
      requires Valid()
      modifies this`timers
      ensures Valid()
      ensures timers == []
    {
      ghost var q := timers;
      ghost var hs := scheduledEvents;
      CancelAllNone(q);
      var i := 0;
      while i < |scheduledEvents|
        invariant 0 <= i <= |hs| && scheduledEvents == hs
        invariant Valid()
        invariant timers == CancelAll(q, hs[..i])
      {
        CancelNext(q, hs, i);
        ClearTimeout(scheduledEvents[i]);
        i := i + 1;
      }
      assert hs[..i] == hs;
      CancelAllCovered(q, hs);
    }

    /** `onClickStop`. */
    method Stop()
      requires Valid()
      modifies this`timers, this`recording
      ensures Valid()
      ensures timers == [] && recording == Stopped(old(recording))
    {
      CancelScheduled();
      SetRecording(StopUpdate);
    }

    /** `onClickClear`: Stop, then reset the aggregate. */
    method Clear()
      requires Valid()
      modifies this`timers, this`recording
      ensures Valid()
      ensures timers == [] && recording == Cleared(old(recording), now)
    {
      Stop();
      SetRecording(ClearUpdate(now));
    }

    /**
     * `onClickPlay`: switch to PLAYING, cancel every earlier timer, and
     * schedule the playback plan of the current events.
     */
    method Play()
      requires Valid()
      modifies this
      ensures Valid()
      ensures recording == SetRecordingValue(old(recording), Partial(mode := Some(PLAYING)))
      ensures var plan := PlaybackPlan(old(recording).events, old(now), old(nextHandle));
        && timers == QueueAfter(plan, |plan|)
        && scheduledEvents == HandleRange(old(nextHandle), |plan|)
        && nextHandle == old(nextHandle) + |plan|
      ensures sounding == {} && now == old(now) && calls == old(calls) && callbacksBound == old(callbacksBound)
    {
      ResetForPlay();
      var timeline := BuildSortedTimeline(recording.events);
      var endTime := RecordingEndTime(recording.events);
      SchedulePlan(timeline, endTime);
    }

    /** The first steps of Play: switch to PLAYING, cancel every earlier timer and forget their handles. */
    method ResetForPlay()
      requires Valid()
      modifies this`recording, this`timers, this`scheduledEvents, this`sounding
      ensures Valid()
      ensures recording == SetRecordingValue(old(recording), Partial(mode := Some(PLAYING)))
      ensures timers == [] && scheduledEvents == [] && sounding == {}
    {
      SetRecording(Partial(mode := Some(PLAYING)));
      CancelScheduled();
      scheduledEvents := [];
      sounding := {};
    }

    /**
     * The timers Play sets up once the earlier ones are cancelled: one per
     * entry of the sorted timeline, then the auto-stop when the end time is
     * positive.
     */
    method SchedulePlan(timeline: seq<TimelineEntry>, endTime: real)
      requires Valid() && timers == [] && scheduledEvents == [] && recording.mode == PLAYING
      modifies this`timers, this`nextHandle, this`scheduledEvents
      ensures Valid()
      ensures var plan := PlanFor(timeline, endTime, now, old(nextHandle));
        && timers == QueueAfter(plan, |plan|)
        && scheduledEvents == HandleRange(old(nextHandle), |plan|)
        && nextHandle == old(nextHandle) + |plan|
    {
      PlanQueue(timeline, endTime, now, nextHandle);
      ScheduleEntries(timeline);
      if endTime > 0.0 {
        ScheduleTimer(endTime * 1000.0, AutoStop);
      }
    }

    /** The `forEach` that schedules one timer per sorted timeline entry. */
    method ScheduleEntries(timeline: seq<TimelineEntry>)
      requires Valid() && timers == [] && scheduledEvents == [] && recording.mode == PLAYING
      modifies this`timers, this`nextHandle, this`scheduledEvents
      ensures Valid()
      ensures timers == QueueAfter(EntryTimers(timeline, now, old(nextHandle)), |timeline|)
      ensures nextHandle == old(nextHandle) + |timeline|
      ensures scheduledEvents == HandleRange(old(nextHandle), |timeline|)
    {
      ghost var entries := EntryTimers(timeline, now, nextHandle);
      var k := 0;
      while k < |timeline|
        invariant 0 <= k <= |timeline|
        invariant nextHandle == old(nextHandle) + k
        invariant timers == QueueAfter(entries, k)
        invariant scheduledEvents == HandleRange(old(nextHandle), k)
        invariant Valid() && recording.mode == PLAYING
      {
        assert Timer(nextHandle, now + DelayMs(timeline[k].time * 1000.0), ActionOf(timeline[k])) == entries[k];
        ghost var q := Enqueue(timers, entries[k]);
        ghost var hs := scheduledEvents + [nextHandle];
        assert q == QueueAfter(entries, k + 1);
        assert hs == HandleRange(old(nextHandle), k + 1);
        ScheduleTimer(timeline[k].time * 1000.0, ActionOf(timeline[k]));
        assert timers == q && scheduledEvents == hs;
        k := k + 1;
      }
    }

    /** `scheduledEvents.push(setTimeout(callback, ms))`. */
    method ScheduleTimer(ms: real, action: Action)
      requires Valid() && recording.mode == PLAYING
      modifies this`timers, this`nextHandle, this`scheduledEvents
      ensures Valid()
      ensures timers == Enqueue(old(timers), Timer(old(nextHandle), now + DelayMs(ms), action))
      ensures nextHandle == old(nextHandle) + 1
      ensures scheduledEvents == old(scheduledEvents) + [old(nextHandle)]
    {
      var t := Timer(nextHandle, now + DelayMs(ms), action);
      ScheduleStep(timers, scheduledEvents, nextHandle, now, t);
      ghost var q := Enqueue(timers, t);
      var h := SetTimeout(ms, action);
      assert timers == q;
      scheduledEvents := scheduledEvents + [h];
    }

    /** Runs the callback of the earliest pending timer, with the clock at its due time. */
    method FireNext()
      requires Valid() && timers != []
      modifies this
      ensures Valid()
      ensures now == old(timers[0].due)
      ensures sounding == ApplyAction(old(timers[0].action), old(sounding))
      ensures timers == if old(timers[0].action).AutoStop? then [] else old(timers[1..])
      ensures calls == old(calls) + CallsMade(callbacksBound, [old(timers[0].action)])
      ensures recording == AfterCallback(old(recording), old(timers[0].action), sounding)
      ensures scheduledEvents == old(scheduledEvents) && nextHandle == old(nextHandle)
      ensures callbacksBound == old(callbacksBound)
    {
      ghost var rec := recording;
      var t := PopTimer();
      RunCallback(t.action);
      CallsMadeOne(callbacksBound, t.action);
      if t.action.AutoStop? {
        StopEffect(rec);
      } else {
        SetCurrentEvents(rec, CurrentEventsOf(rec.events, sounding));
      }
    }

    /** Takes the earliest pending timer off the queue and moves the clock to its due time. */
    method PopTimer() returns (t: Timer)
      requires Valid() && timers != []
      modifies this`timers, this`now
      ensures Valid() && recording.mode == PLAYING
      ensures t == old(timers[0]) && timers == old(timers[1..]) && now == t.due
    {
      t := timers[0];
      assert QueueOrdered(timers[1..]) by {
        forall i, j | 0 <= i < j < |timers[1..]| ensures FiresBefore(timers[1..][i], timers[1..][j]) {
          assert timers[1..][i] == timers[i + 1] && timers[1..][j] == timers[j + 1];
        }
      }
      forall k | 0 <= k < |timers[1..]| ensures timers[1..][k].due >= t.due {
        assert FiresBefore(timers[0], timers[k + 1]);
      }
      timers := timers[1..];
      now := t.due;
    }

    /** What a fired callback does: a start plays its pitch, an end stops it, the auto-stop runs Stop. */
    method RunCallback(a: Action)
      requires Valid() && recording.mode == PLAYING
      modifies this
      ensures Valid()
      ensures now == old(now) && sounding == ApplyAction(a, old(sounding))
      ensures recording.events == old(recording.events)
      ensures scheduledEvents == old(scheduledEvents) && nextHandle == old(nextHandle)
      ensures callbacksBound == old(callbacksBound)
      ensures match a
        case StartNote(p, v) =>
          && timers == old(timers)
          && calls == old(calls) + (if callbacksBound then [PlayNote(p, PlaybackVelocity(v))] else [])
          && recording == SetRecordingValue(old(recording), Partial(currentEvents := Some(CurrentEventsOf(old(recording).events, sounding))))
        case EndNote(p) =>
          && timers == old(timers)
          && calls == old(calls) + (if callbacksBound then [StopNote(p)] else [])
          && recording == SetRecordingValue(old(recording), Partial(currentEvents := Some(CurrentEventsOf(old(recording).events, sounding))))
        case AutoStop =>
          && timers == []
          && calls == old(calls)
          && recording == Stopped(old(recording))
    {
      match a {
        case StartNote(p, v) =>
          sounding := sounding + {p};
          if callbacksBound {
            calls := calls + [PlayNote(p, PlaybackVelocity(v))];
          }
          SetRecording(Partial(currentEvents := Some(CurrentEventsOf(recording.events, sounding))));
        case EndNote(p) =>
          sounding := sounding - {p};
          if callbacksBound {
            calls := calls + [StopNote(p)];
          }
          SetRecording(Partial(currentEvents := Some(CurrentEventsOf(recording.events, sounding))));
        case AutoStop =>
          Stop();
      }
    }

    /**
     * Lets the clock run to `t`, firing in order the pending timers due by
     * then: `fired` are the timers whose callbacks ran, a prefix of the
     * queue that stops early only at the auto-stop, which cancels the rest.
     * The sounding set, the audio calls and the recording are what those
     * callbacks leave.
     */
    method AdvanceTo(t: int) returns (fired: seq<Timer>)
      requires Valid() && t >= now
      modifies this
      ensures Valid() && now == t
      ensures FiredPrefix(old(timers), fired, timers, t)
      ensures forall x :: x in timers ==> x.due > t
      ensures sounding == SoundingAfter(old(sounding), ActionsOf(fired))
      ensures calls == old(calls) + CallsMade(callbacksBound, ActionsOf(fired))
      ensures recording == AfterCallbacks(old(recording), fired, sounding)
      ensures scheduledEvents == old(scheduledEvents) && nextHandle == old(nextHandle) && callbacksBound == old(callbacksBound)
    {
      fired := [];
      while timers != [] && timers[0].due <= t
        invariant Valid() && now <= t
        invariant FiredPrefix(old(timers), fired, timers, t)
        invariant sounding == SoundingAfter(old(sounding), ActionsOf(fired))
        invariant calls == old(calls) + CallsMade(callbacksBound, ActionsOf(fired))
        invariant recording == AfterCallbacks(old(recording), fired, sounding)
        invariant scheduledEvents == old(scheduledEvents) && nextHandle == old(nextHandle) && callbacksBound == old(callbacksBound)
        decreases |timers|
      {
        ghost var before := fired;
        ghost var s := sounding;
        var x := timers[0];
        FiredPrefixStep(old(timers), fired, timers, t);
        FireNext();
        fired := fired + [x];
        ActionsOfAppend(before, x);
        SoundingAfterAppend(old(sounding), ActionsOf(before), x.action);
        CallsMadeAppend(old(calls), callbacksBound, ActionsOf(before), x.action);
        AfterCallbacksStep(old(recording), before, x, s, sounding);
      }
      if timers != [] {
        forall x | x in timers ensures x.due > t {
          var k :| 0 <= k < |timers| && timers[k] == x;
          assert k == 0 || FiresBefore(timers[0], timers[k]);
        }
      }
      now := t;
    }

    /**
     * `formatRecordedNotes`: sorts the recording's events in place by start
     * time (without going through `setRecording`) and lists them.
     */
    method FormatRecordedNotes() returns (listing: Listing)
      requires Valid()
      modifies this`recording
      ensures Valid()
      ensures listing == NoteListing(old(recording).events)
      ensures recording == old(recording).(events := Sorting.SortBy(old(recording).events, EventStart))
    {
      if |recording.events| == 0 {
        listing := Placeholder(NoNotesMessage);
        return;
      }
      var sorted := Sorting.SortBy(recording.events, EventStart);
      Sorting.SortByElements(recording.events, EventStart);
      EndTimePermutation(sorted, recording.events);
      recording := recording.(events := sorted);
      listing := Notes(NumberedLines(sorted));
    }

    /**
     * A click on a button: the handler runs only when the button is enabled;
     * Stop and Clear touch only the timers and the recording, Play as its
     * contract says, and a click on a disabled button changes nothing.
     */
    method Click(b: Button) returns (handled: bool)
      requires Valid()
      modifies this
      ensures Valid()
      ensures handled == Enabled(b, old(recording))
      ensures !handled || b != PlayButton ==>
        && scheduledEvents == old(scheduledEvents) && nextHandle == old(nextHandle) && sounding == old(sounding)
        && calls == old(calls) && now == old(now) && callbacksBound == old(callbacksBound)
      ensures !handled ==> recording == old(recording) && timers == old(timers)
      ensures handled && b == StopButton ==> timers == [] && recording == Stopped(old(recording))
      ensures handled && b == ClearButton ==> timers == [] && recording == Cleared(old(recording), now)
      ensures handled && b == PlayButton ==>
        && recording == SetRecordingValue(old(recording), Partial(mode := Some(PLAYING)))
        && var plan := PlaybackPlan(old(recording).events, old(now), old(nextHandle));
        && timers == QueueAfter(plan, |plan|)
        && scheduledEvents == HandleRange(old(nextHandle), |plan|)
        && nextHandle == old(nextHandle) + |plan|
        && sounding == {} && now == old(now) && calls == old(calls) && callbacksBound == old(callbacksBound)
    {
      handled := Enabled(b, recording);
      if handled {
        match b {
          case PlayButton => Play();
          case StopButton => Stop();
          case ClearButton => Clear();
        }
      }
    }
  }

  /**
   * The overlapping notes A (0 s to 1 s) and B (0.5 s to 1.5 s): 700 ms
   * after Play both have started and neither has ended, so both are
   * current, both pitches sound, and the provider was asked to play A and
   * then B.
   */
  method OverlappingPlayback(page: PianoPage, a: RecordingEvent, b: RecordingEvent)
    requires page.Valid() && page.recording.events == [a, b]
    requires a.startTime == 0.0 && a.endTime == 1.0 && b.startTime == 0.5 && b.endTime == 1.5
    modifies page
    ensures page.Valid() && page.recording.mode == PLAYING
    ensures page.recording.currentEvents == [a, b]
    ensures page.sounding == {a.midiNumber, b.midiNumber}
    ensures page.calls == old(page.calls) + CallsMade(page.callbacksBound, [StartNote(a.midiNumber, a.velocity), StartNote(b.midiNumber, b.velocity)])
  {
    var start := page.now;
    var h0 := page.nextHandle;
    page.Play();
    OverlappingPlan(a, b, start, h0);
    var fired := page.AdvanceTo(start + 700);
    OverlappingFired(PlaybackPlan([a, b], start, h0), fired, page.timers, start);
    TwoStartsEffect(a, b);
  }

  /** Of a plan whose timers are due at 0, 500, 1000 and 1500 ms, exactly the first two fire by 700 ms. */
  lemma OverlappingFired(plan: seq<Timer>, fired: seq<Timer>, rest: seq<Timer>, start: int)
    requires |plan| == 5
    requires plan[0].due == start && plan[1].due == start + 500 && plan[2].due == start + 1000
    requires !plan[0].action.AutoStop? && !plan[1].action.AutoStop? && !plan[2].action.AutoStop?
    requires FiredPrefix(plan, fired, rest, start + 700)
    requires forall x :: x in rest ==> x.due > start + 700
    ensures fired == plan[..2] && !EndsPlayback(fired)
    ensures ActionsOf(fired) == [plan[0].action, plan[1].action]
  {
    assert fired == plan[..2];
  }

  /** Two starts from silence: both pitches sound, both events are current, and both notes are played. */
  lemma TwoStartsEffect(a: RecordingEvent, b: RecordingEvent)
    ensures var actions := [StartNote(a.midiNumber, a.velocity), StartNote(b.midiNumber, b.velocity)];
      && SoundingAfter({}, actions) == {a.midiNumber, b.midiNumber}
      && CurrentEventsOf([a, b], {a.midiNumber, b.midiNumber}) == [a, b]
  {
    var actions := [StartNote(a.midiNumber, a.velocity), StartNote(b.midiNumber, b.velocity)];
    assert actions[..1][..0] == [];
    assert actions[..1] == [actions[0]];
    assert SoundingAfter({}, actions[..1]) == {a.midiNumber};
    CurrentEventsAppend([a], [b], {a.midiNumber, b.midiNumber});
    CurrentEventsSingle(a, {a.midiNumber, b.midiNumber});
    CurrentEventsSingle(b, {a.midiNumber, b.midiNumber});
    assert [a] + [b] == [a, b];
  }
}
