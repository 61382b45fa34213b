/**
 * The older capture component (components/PianoWithRecording.js): a single
 * pending press time and a flag that lets a release record at most once
 * per press. Recorded notes are not placed at the time they were played:
 * each batch starts where the previous note ended.
 *
 * `Date.now()` is the parameter `now`; the recording this component is
 * handed is assumed to be merged as `Object.assign` does, with no metadata.
 */
module LegacyCapture {
  import opened Types

  /** A note as this component records it. `time` and `duration` are seconds. */
  datatype LegacyEvent = LegacyEvent(midiNumber: int, time: real, duration: real)

  datatype LegacyRecording = LegacyRecording(mode: Mode, events: seq<LegacyEvent>, currentTime: real, currentEvents: seq<LegacyEvent>)

  /** The time a new batch gets: where the last note ended, or 0 for an empty recording. */
  function NextTime(events: seq<LegacyEvent>): real {
    if |events| > 0 then events[|events| - 1].time + events[|events| - 1].duration else 0.0
  }

  /** The recording after `recordNotes(pitches, duration)`. */
  function LegacyRecordValue(rec: LegacyRecording, pitches: seq<int>, duration: real): (r: LegacyRecording)
    ensures r.mode == rec.mode && r.currentEvents == rec.currentEvents
    ensures |r.events| == |rec.events| + (if rec.mode == RECORDING then |pitches| else 0)
  {
    if rec.mode != RECORDING then rec
    else
      var t := NextTime(rec.events);
      var added := seq(|pitches|, i requires 0 <= i < |pitches| => LegacyEvent(pitches[i], t, duration));
      rec.(events := rec.events + added, currentTime := rec.currentTime + duration)
  }

  /**
   * Outside RECORDING nothing changes. In RECORDING the old events stay an
   * unchanged prefix, followed by one note per pitch in order, all at the
   * end of the last note (0 when there is none) and with the batch's
   * duration; `currentTime` grows by exactly that duration.
   */
  lemma LegacyRecordEffect(rec: LegacyRecording, pitches: seq<int>, duration: real)
    ensures var r := LegacyRecordValue(rec, pitches, duration);
      && (rec.mode != RECORDING ==> r == rec)
      && (rec.mode == RECORDING ==>
        && |r.events| == |rec.events| + |pitches|
        && r.events[..|rec.events|] == rec.events
        && (forall i :: 0 <= i < |pitches| ==>
              r.events[|rec.events| + i] == LegacyEvent(pitches[i], if rec.events == [] then 0.0 else rec.events[|rec.events| - 1].time + rec.events[|rec.events| - 1].duration, duration))
        && r.currentTime == rec.currentTime + duration
        && r.mode == rec.mode && r.currentEvents == rec.currentEvents)
  {
    if rec.mode == RECORDING {
      var r := LegacyRecordValue(rec, pitches, duration);
      var t := NextTime(rec.events);
      var added := seq(|pitches|, i requires 0 <= i < |pitches| => LegacyEvent(pitches[i], t, duration));
      assert r.events == rec.events + added;
      forall i | 0 <= i < |pitches|
        ensures r.events[|rec.events| + i] == LegacyEvent(pitches[i], t, duration)
      {
        assert r.events[|rec.events| + i] == added[i];
      }
    }
  }

  /** The recording's `currentTime` is where its last note ends (0 with no notes). */
  predicate ChainedAtCurrentTime(rec: LegacyRecording) {
    NextTime(rec.events) == rec.currentTime
  }

  /**
   * Starting from an empty recording at time 0, each batch begins at
   * `currentTime` and the chain is kept by every batch that records at
   * least one note; a batch of no pitches still advances `currentTime`,
   * after which later notes start before `currentTime`.
   */
  lemma LegacyChain(rec: LegacyRecording, pitches: seq<int>, duration: real)
    requires rec.mode == RECORDING && ChainedAtCurrentTime(rec)
    ensures var r := LegacyRecordValue(rec, pitches, duration);
      && (forall i :: |rec.events| <= i < |r.events| ==> r.events[i].time == rec.currentTime)
      && (pitches != [] ==> ChainedAtCurrentTime(r))
      && (pitches == [] && duration != 0.0 ==> !ChainedAtCurrentTime(r))
  {
    var r := LegacyRecordValue(rec, pitches, duration);
    LegacyRecordEffect(rec, pitches, duration);
    if pitches != [] {
      assert r.events[|r.events| - 1] == r.events[|rec.events| + (|pitches| - 1)];
    }
    forall i | |rec.events| <= i < |r.events| ensures r.events[i].time == rec.currentTime {
      assert r.events[i] == r.events[|rec.events| + (i - |rec.events|)];
    }
  }

  /** `activeNotes`: the pitches of `currentEvents` while playing, `null` otherwise. */
  function LegacyActiveNotes(rec: LegacyRecording): (r: Option<seq<int>>)
    ensures r.Some? <==> rec.mode == PLAYING
    ensures r.Some? ==> |r.value| == |rec.currentEvents|
    ensures r.Some? ==> forall i :: 0 <= i < |rec.currentEvents| ==> r.value[i] == rec.currentEvents[i].midiNumber
  {
    if rec.mode == PLAYING then Some(seq(|rec.currentEvents|, i requires 0 <= i < |rec.currentEvents| => rec.currentEvents[i].midiNumber))
    else None
  }

  /**
   * Capturing never changes the keys shown as held: recording touches
   * neither the mode nor `currentEvents`, and while recording no key is
   * shown at all.
   */
  lemma LegacyCaptureKeepsKeys(rec: LegacyRecording, pitches: seq<int>, duration: real)
    ensures LegacyActiveNotes(LegacyRecordValue(rec, pitches, duration)) == LegacyActiveNotes(rec)
    ensures rec.mode == RECORDING ==> LegacyActiveNotes(LegacyRecordValue(rec, pitches, duration)).None?
  {
  }

  class LegacyPiano {
    /** Whether the current press has already been recorded. */
    var notesRecorded: bool
    /** The time of the latest press, `null` before the first one. */
    var noteStartTime: Option<int>
    /** The recording the component is handed, updated through `setRecording`. */
    var recording: LegacyRecording

    constructor (recording: LegacyRecording)
      ensures !notesRecorded && noteStartTime.None? && this.recording == recording
    {
      notesRecorded := false;
      noteStartTime := None;
      this.recording := recording;
    }

    /** `onPlayNoteInput` at clock reading `now`: a new press, not yet recorded. */
    method Press(now: int, pitch: int)
      modifies this`notesRecorded, this`noteStartTime
      ensures !notesRecorded && noteStartTime == Some(now)
    {
      notesRecorded := false;
      noteStartTime := Some(now);
    }

    /**
     * `onStopNoteInput` at clock reading `now`: the first release after a
     * press records the held time `(now - noteStartTime) / 1000`, where a
     * missing press time counts as 0 (`null` coerces to 0); any later
     * release before the next press changes nothing.
     */
    method Release(now: int, pitch: int, prevActiveNotes: seq<int>)
      modifies this`notesRecorded, this`recording
      ensures notesRecorded
      ensures old(notesRecorded) ==> recording == old(recording)
      ensures !old(notesRecorded) ==>
        recording == LegacyRecordValue(old(recording), prevActiveNotes, (now - noteStartTime.GetOr(0)) as real / 1000.0)
      ensures noteStartTime == old(noteStartTime)
    {
      if !notesRecorded {
        var noteDuration := (now - noteStartTime.GetOr(0)) as real / 1000.0;
        RecordNotes(prevActiveNotes, noteDuration);
        notesRecorded := true;
      }
    }

    /** `recordNotes`: appends the batch at the end of the last note, in RECORDING only. */
    method RecordNotes(pitches: seq<int>, duration: real)
      modifies this`recording
      ensures recording == LegacyRecordValue(old(recording), pitches, duration)
    {
      if recording.mode != RECORDING {
        return;
      }
      var time := if |recording.events| > 0
        then recording.events[|recording.events| - 1].time + recording.events[|recording.events| - 1].duration
        else 0.0;
      var newEvents := seq(|pitches|, i requires 0 <= i < |pitches| => LegacyEvent(pitches[i], time, duration));
      recording := recording.(events := recording.events + newEvents, currentTime := recording.currentTime + duration);
    }
  }
}
