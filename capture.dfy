/**
 * The capture engine (components/PianoWithRecording.tsx): it turns key
 * presses and releases into recorded notes relative to a session anchor,
 * and derives the keys the keyboard shows as held during playback.
 *
 * `Date.now()` is the clock reading `page.now` of the page whose recording
 * the engine feeds; the document's input listeners become `InputDetected`.
 */
module Capture {
  import opened Types
  import opened Timeline
  import opened Piano

  // ---------------------------------------------------------------------
  // midiToNoteName

  datatype NoteInfo = NoteInfo(noteName: string, octave: int)

  const NoteNames: seq<string> := ["C", "C#", "D", "D#", "E", "F", "F#", "G", "G#", "A", "A#", "B"]

  /** The quotient of `a / 12` truncated toward zero, as `Math.trunc` gives it. */
  function JsQuot12(a: int): int {
    if a >= 0 then a / 12 else -((-a) / 12)
  }

  /**
   * JavaScript's `a % 12` on integers: the remainder of the division
   * truncated toward zero, so it takes the sign of the dividend.
   */
  function JsRem12(a: int): (r: int)
    ensures -12 < r < 12
    ensures a >= 0 ==> r >= 0
    ensures a <= 0 ==> r <= 0
    ensures a == 12 * JsQuot12(a) + r
  {
    if a >= 0 then a % 12 else -((-a) % 12)
  }

  /** What JavaScript prints for a missing array element. */
  const Undefined: string := "undefined"

  /**
   * `noteNames[i]` as a string: an index outside the array reads
   * `undefined`. (`-0`, which `%` yields for a dividend that is a negative
   * multiple of 12, reads element 0, as the integer 0 does here.)
   */
  function NoteLetter(i: int): string {
    if 0 <= i < |NoteNames| then NoteNames[i] else Undefined
  }

  function Digit(d: int): char
    requires 0 <= d < 10
  {
    ('0' as int + d) as char
  }

  /** The decimal digits of `n`, as a template literal prints it. */
  function NatToString(n: nat): (s: string)
    ensures |s| >= 1
  {
    if n < 10 then [Digit(n)] else NatToString(n / 10) + [Digit(n % 10)]
  }

  function IntToString(i: int): string {
    if i < 0 then "-" + NatToString(-i) else NatToString(i)
  }

  /** `midiToNoteName` as written: `Math.floor` for the octave, JavaScript's `%` for the index. */
  function MidiToNoteName(m: int): (r: NoteInfo)
    ensures 12 * r.octave <= m - 12 < 12 * r.octave + 12
  {
    var octave := (m - 12) / 12;
    NoteInfo(NoteLetter(JsRem12(m - 12)) + IntToString(octave), octave)
  }

  // A reading of note names back into MIDI numbers, the inverse the names encode.

  /** The value of a string of decimal digits. */
  function DigitsValue(s: string): int {
    if |s| == 0 then 0 else DigitsValue(s[..|s| - 1]) * 10 + (s[|s| - 1] as int - '0' as int)
  }

  /** The pitch class of a letter, sharpened or not; E and B have no sharp among the names. */
  function LetterIndex(letter: char, sharp: bool): Option<int> {
    match letter
    case 'C' => Some(if sharp then 1 else 0)
    case 'D' => Some(if sharp then 3 else 2)
    case 'E' => if sharp then None else Some(4)
    case 'F' => Some(if sharp then 6 else 5)
    case 'G' => Some(if sharp then 8 else 7)
    case 'A' => Some(if sharp then 10 else 9)
    case 'B' => if sharp then None else Some(11)
    case _ => None
  }

  predicate AllDigits(s: string) {
    forall i :: 0 <= i < |s| ==> '0' <= s[i] <= '9'
  }

  /** The MIDI number a name such as "C#4" stands for: a letter, an optional sharp, then the octave. */
  function ParseNoteName(s: string): Option<int> {
    var split := if |s| >= 2 && s[1] == '#' then 2 else 1;
    if |s| <= split || !AllDigits(s[split..]) then None
    else
      match LetterIndex(s[0], split == 2)
      case None => None
      case Some(i) => Some(12 + 12 * DigitsValue(s[split..]) + i)
  }

  /** The decimal form of `n` is made of digits only and reads back as `n`. */
  lemma {:induction false} NatToStringValue(n: nat)
    ensures AllDigits(NatToString(n))
    ensures DigitsValue(NatToString(n)) == n
  {
    if n >= 10 {
      NatToStringValue(n / 10);
      var s := NatToString(n);
      assert s[..|s| - 1] == NatToString(n / 10);
      assert forall i :: 0 <= i < |s| - 1 ==> s[i] == NatToString(n / 10)[i];
    }
  }

  lemma LetterIndexOfNames(i: int)
    requires 0 <= i < 12
    ensures LetterIndex(NoteNames[i][0], |NoteNames[i]| == 2) == Some(i)
    ensures 1 <= |NoteNames[i]| <= 2 && NoteNames[i][0] != '#'
    ensures |NoteNames[i]| == 2 ==> NoteNames[i][1] == '#'
  {
  }

  /** A name made of a letter (with its optional sharp) and a string of digits reads back as letter and digits. */
  lemma ParseLetterDigits(letter: string, digits: string, i: int)
    requires 1 <= |letter| <= 2 && (|letter| == 2 ==> letter[1] == '#') && LetterIndex(letter[0], |letter| == 2) == Some(i)
    requires |digits| >= 1 && AllDigits(digits)
    ensures ParseNoteName(letter + digits) == Some(12 + 12 * DigitsValue(digits) + i)
  {
    var s := letter + digits;
    var split := if |s| >= 2 && s[1] == '#' then 2 else 1;
    assert split == |letter| by {
      if |letter| == 1 {
        assert s[1] == digits[0];
      }
    }
    assert s[0] == letter[0] && s[split..] == digits;
  }

  /**
   * For every MIDI number from 12 up, the name is the letter at
   * `(m - 12) mod 12` followed by the octave `floor((m - 12) / 12)`.
   */
  lemma NoteNameParts(m: int)
    requires m >= 12
    ensures MidiToNoteName(m).octave == (m - 12) / 12 >= 0
    ensures MidiToNoteName(m).noteName == NoteNames[(m - 12) % 12] + NatToString((m - 12) / 12)
    ensures 12 + 12 * MidiToNoteName(m).octave + (m - 12) % 12 == m
  {
    assert JsRem12(m - 12) == (m - 12) % 12;
  }

  /** From 12 up, a note's name reads back as its MIDI number: the names of distinct notes differ. */
  lemma NoteNameRoundTrip(m: int)
    requires m >= 12
    ensures ParseNoteName(MidiToNoteName(m).noteName) == Some(m)
  {
    var i := (m - 12) % 12;
    var o := (m - 12) / 12;
    NoteNameParts(m);
    LetterIndexOfNames(i);
    NatToStringValue(o);
    ParseLetterDigits(NoteNames[i], NatToString(o), i);
  }

  lemma NoteNameExamples()
    ensures MidiToNoteName(60) == NoteInfo("C4", 4)
    ensures MidiToNoteName(61) == NoteInfo("C#4", 4)
    ensures MidiToNoteName(48) == NoteInfo("C3", 3)
    ensures MidiToNoteName(65) == NoteInfo("F4", 4)
  {
    assert NatToString(4) == "4" && NatToString(3) == "3";
  }

  /** Below 12 the octave is negative, and JavaScript's `%` makes the index negative unless `m` is 0. */
  lemma NoteNameBelowTwelve()
    ensures MidiToNoteName(0) == NoteInfo("C-1", -1)
    ensures MidiToNoteName(5) == NoteInfo("undefined-1", -1)
  {
    assert NatToString(1) == "1";
  }

  // ---------------------------------------------------------------------
  // recordNotes and the captured times

  /** JavaScript truthiness of a clock reading that may be missing: `undefined`, `null` and `0` are false. */
  predicate Truthy(t: Option<int>) {
    t.Some? && t.value != 0
  }

  /** `noteStartTimes[pitch]`: `undefined` when no press is pending for the pitch. */
  function Lookup(m: map<int, int>, pitch: int): Option<int> {
    if pitch in m then Some(m[pitch]) else None
  }

  /** The seconds from clock reading `from` to clock reading `to`. */
  function Seconds(from: int, to: int): real {
    (to - from) as real / 1000.0
  }

  /** The note `recordNotes` builds for one pitch. */
  function CapturedEvent(pitch: int, relStart: real, relEnd: real, duration: real, absStart: int, absEnd: int,
                         source: KeyPressSource, instrument: Option<InstrumentInfo>): RecordingEvent {
    var info := MidiToNoteName(pitch);
    RecordingEvent(pitch, relStart, duration, Some(100), relStart, relEnd, info.noteName, info.octave,
                   source, Some(absStart), Some(absEnd), instrument)
  }

  function CapturedEvents(pitches: seq<int>, relStart: real, relEnd: real, duration: real, absStart: int, absEnd: int,
                          source: KeyPressSource, instrument: Option<InstrumentInfo>): seq<RecordingEvent> {
    seq(|pitches|, i requires 0 <= i < |pitches| =>
      CapturedEvent(pitches[i], relStart, relEnd, duration, absStart, absEnd, source, instrument))
  }

  /** The recording after `recordNotes(pitches, ...)`. */
  function RecordNotesValue(rec: Recording, pitches: seq<int>, relStart: real, relEnd: real, duration: real,
                            absStart: int, absEnd: int, source: KeyPressSource,
                            instrument: Option<InstrumentInfo>): (r: Recording)
    ensures r.mode == rec.mode
    ensures |r.events| == |rec.events| + (if rec.mode == RECORDING then |pitches| else 0)
  {
    if rec.mode != RECORDING then rec
    else
      var added := CapturedEvents(pitches, relStart, relEnd, duration, absStart, absEnd, source, instrument);
      SetRecordingValue(rec, Partial(events := Some(rec.events + added), currentTime := Some(MaxReal(rec.currentTime, relEnd))))
  }

  /**
   * The recording after a release at clock reading `end` of notes pressed at
   * `start`, with the recording anchored at `anchor`: the times are seconds
   * from the anchor and the duration is their difference.
   */
  function ReleaseValue(rec: Recording, pitches: seq<int>, anchor: int, start: int, end: int,
                        source: KeyPressSource, instrument: Option<InstrumentInfo>): (r: Recording)
    ensures |r.events| == |rec.events| + (if rec.mode == RECORDING then |pitches| else 0)
    ensures rec.mode == RECORDING ==> r.currentTime >= (end - anchor) as real / 1000.0
  {
    RecordNotesValue(rec, pitches, Seconds(anchor, start), Seconds(anchor, end), Seconds(anchor, end) - Seconds(anchor, start),
                     start, end, source, instrument)
  }

  /**
   * Outside RECORDING nothing changes. In RECORDING `currentTime` becomes
   * the larger of its old value and the end time, and nothing else changes
   * but the events and the total duration, which follows the events.
   */
  lemma RecordNotesEffect(rec: Recording, pitches: seq<int>, relStart: real, relEnd: real, duration: real,
                          absStart: int, absEnd: int, source: KeyPressSource, instrument: Option<InstrumentInfo>)
    ensures var r := RecordNotesValue(rec, pitches, relStart, relEnd, duration, absStart, absEnd, source, instrument);
      && (rec.mode != RECORDING ==> r == rec)
      && (rec.mode == RECORDING ==>
        && r.currentTime >= rec.currentTime && r.currentTime >= relEnd
        && (r.currentTime == rec.currentTime || r.currentTime == relEnd)
        && r.mode == RECORDING && r.currentEvents == rec.currentEvents
        && r.recordingMetadata.Some? == rec.recordingMetadata.Some?
        && MetadataConsistent(r))
  {
    if rec.mode == RECORDING {
      var r := RecordNotesValue(rec, pitches, relStart, relEnd, duration, absStart, absEnd, source, instrument);
      assert r.currentTime == MaxReal(rec.currentTime, relEnd);
    }
  }

  /** In RECORDING the old events stay an unchanged prefix, followed by one new note per pitch. */
  lemma RecordNotesEvents(rec: Recording, pitches: seq<int>, relStart: real, relEnd: real, duration: real,
                          absStart: int, absEnd: int, source: KeyPressSource, instrument: Option<InstrumentInfo>)
    requires rec.mode == RECORDING
    ensures var r := RecordNotesValue(rec, pitches, relStart, relEnd, duration, absStart, absEnd, source, instrument);
      |r.events| == |rec.events| + |pitches| && r.events[..|rec.events|] == rec.events
  {
    var added := CapturedEvents(pitches, relStart, relEnd, duration, absStart, absEnd, source, instrument);
    var r := RecordNotesValue(rec, pitches, relStart, relEnd, duration, absStart, absEnd, source, instrument);
    RecordNotesValueEvents(rec, pitches, relStart, relEnd, duration, absStart, absEnd, source, instrument);
    AppendedAt(rec.events, added, r.events);
  }

  /**
   * The new notes follow `pitches` in order and all carry the same times,
   * velocity 100, the name and octave of their pitch, the input modality
   * and the instrument.
   */
  lemma RecordNotesAdded(rec: Recording, pitches: seq<int>, relStart: real, relEnd: real, duration: real,
                         absStart: int, absEnd: int, source: KeyPressSource, instrument: Option<InstrumentInfo>)
    requires rec.mode == RECORDING
    ensures var r := RecordNotesValue(rec, pitches, relStart, relEnd, duration, absStart, absEnd, source, instrument);
      |r.events| == |rec.events| + |pitches| &&
      forall i :: 0 <= i < |pitches| ==>
        var e := r.events[|rec.events| + i];
        && e.midiNumber == pitches[i] && e.velocity == Some(100) && e.keyPressSource == source
        && e.time == relStart && e.startTime == relStart && e.endTime == relEnd && e.duration == duration
        && e.noteName == MidiToNoteName(pitches[i]).noteName && e.octave == MidiToNoteName(pitches[i]).octave
        && e.absoluteStartTime == Some(absStart) && e.absoluteEndTime == Some(absEnd)
        && e.instrumentSettings == instrument
  {
    var added := CapturedEvents(pitches, relStart, relEnd, duration, absStart, absEnd, source, instrument);
    var r := RecordNotesValue(rec, pitches, relStart, relEnd, duration, absStart, absEnd, source, instrument);
    RecordNotesValueEvents(rec, pitches, relStart, relEnd, duration, absStart, absEnd, source, instrument);
    AppendedAt(rec.events, added, r.events);
    forall i | 0 <= i < |pitches|
      ensures r.events[|rec.events| + i] == CapturedEvent(pitches[i], relStart, relEnd, duration, absStart, absEnd, source, instrument)
    {
      assert r.events[|rec.events| + i] == added[i];
    }
  }

  lemma RecordNotesValueEvents(rec: Recording, pitches: seq<int>, relStart: real, relEnd: real, duration: real,
                               absStart: int, absEnd: int, source: KeyPressSource, instrument: Option<InstrumentInfo>)
    requires rec.mode == RECORDING
    ensures RecordNotesValue(rec, pitches, relStart, relEnd, duration, absStart, absEnd, source, instrument).events
            == rec.events + CapturedEvents(pitches, relStart, relEnd, duration, absStart, absEnd, source, instrument)
  {
  }

  lemma AppendedAt(a: seq<RecordingEvent>, b: seq<RecordingEvent>, c: seq<RecordingEvent>)
    requires c == a + b
    ensures |c| == |a| + |b| && c[..|a|] == a
    ensures forall i :: 0 <= i < |b| ==> c[|a| + i] == b[i]
  {
    assert c[..|a|] == a;
  }

  /**
   * With at least one pitch and an earlier note, the recording's end time
   * becomes the larger of the old end time and the new note's end; a
   * capture into an empty recording makes the new note's end the end time.
   */
  lemma RecordNotesEndTime(rec: Recording, pitches: seq<int>, relStart: real, relEnd: real, duration: real,
                           absStart: int, absEnd: int, source: KeyPressSource, instrument: Option<InstrumentInfo>)
    requires rec.mode == RECORDING && pitches != []
    ensures var r := RecordNotesValue(rec, pitches, relStart, relEnd, duration, absStart, absEnd, source, instrument);
      RecordingEndTime(r.events) == (if rec.events == [] then relEnd else MaxReal(RecordingEndTime(rec.events), relEnd))
  {
    var added := CapturedEvents(pitches, relStart, relEnd, duration, absStart, absEnd, source, instrument);
    assert added[0].endTime == relEnd;
    assert RecordingEndTime(added) == relEnd;
    if rec.events == [] {
      assert rec.events + added == added;
    } else {
      EndTimeAppend(rec.events, added);
    }
  }

  /** `currentTime` is the latest end time of the recording's notes, and 0 while that is negative or there are none. */
  predicate WatermarkAtEnd(rec: Recording) {
    rec.currentTime == MaxReal(0.0, RecordingEndTime(rec.events))
  }

  /**
   * Every capture of at least one pitch keeps `currentTime` at the
   * recording's end time (a fresh or cleared recording starts there); a
   * capture of no pitch can raise `currentTime` past every note's end.
   */
  lemma WatermarkKept(rec: Recording, pitches: seq<int>, relStart: real, relEnd: real, duration: real,
                      absStart: int, absEnd: int, source: KeyPressSource, instrument: Option<InstrumentInfo>)
    requires rec.mode == RECORDING && WatermarkAtEnd(rec)
    ensures pitches != [] ==>
      WatermarkAtEnd(RecordNotesValue(rec, pitches, relStart, relEnd, duration, absStart, absEnd, source, instrument))
    ensures pitches == [] && relEnd > rec.currentTime ==>
      !WatermarkAtEnd(RecordNotesValue(rec, pitches, relStart, relEnd, duration, absStart, absEnd, source, instrument))
  {
    if pitches != [] {
      RecordNotesEndTime(rec, pitches, relStart, relEnd, duration, absStart, absEnd, source, instrument);
    } else {
      var added := CapturedEvents(pitches, relStart, relEnd, duration, absStart, absEnd, source, instrument);
      assert rec.events + added == rec.events;
    }
  }

  /** A capture of at least one pitch in RECORDING enables Play and Clear. */
  lemma RecordNotesEnablesTransport(rec: Recording, pitches: seq<int>, relStart: real, relEnd: real, duration: real,
                                    absStart: int, absEnd: int, source: KeyPressSource, instrument: Option<InstrumentInfo>)
    requires rec.mode == RECORDING && pitches != []
    ensures var r := RecordNotesValue(rec, pitches, relStart, relEnd, duration, absStart, absEnd, source, instrument);
      PlayEnabled(r) && ClearEnabled(r) && !StopEnabled(r)
  {
    var r := RecordNotesValue(rec, pitches, relStart, relEnd, duration, absStart, absEnd, source, instrument);
    assert |r.events| == |rec.events| + |pitches|;
  }

  /**
   * The times a release computes against the anchor `a`, for a press at `p`
   * and a release at `q`: the duration is the time the key was held, and
   * playback's delay `time * 1000` gives back the press's offset from the
   * anchor in whole milliseconds, so a WellFormedEvent is recorded when the
   * key was held for a non-negative time.
   */
  lemma CaptureTiming(a: int, p: int, q: int, pitch: int, source: KeyPressSource, instrument: Option<InstrumentInfo>)
    requires a <= p
    ensures Seconds(a, q) - Seconds(a, p) == Seconds(p, q)
    ensures DelayMs(Seconds(a, p) * 1000.0) == p - a
    ensures a <= q ==> DelayMs(Seconds(a, q) * 1000.0) == q - a
    ensures p <= q <==> Seconds(a, p) <= Seconds(a, q)
    ensures p <= q ==> 
      WellFormedEvent(CapturedEvent(pitch, Seconds(a, p), Seconds(a, q), Seconds(a, q) - Seconds(a, p), p, q, source, instrument))
  {
    assert Seconds(a, p) * 1000.0 == (p - a) as real;
    assert Seconds(a, q) * 1000.0 == (q - a) as real;
  }

  // ---------------------------------------------------------------------
  // activeNotes

  /** The keys the keyboard shows as held: the pitches of `currentEvents` while playing, `null` otherwise. */
  function ActiveNotes(rec: Recording): (r: Option<seq<int>>)
    ensures r.Some? <==> rec.mode == PLAYING
    ensures r.Some? ==> |r.value| == |rec.currentEvents|
  {
    if rec.mode == PLAYING then Some(Pitches(rec.currentEvents)) else None
  }

  /**
   * While a playback callback has set `currentEvents` from the sounding set,
   * every shown key is sounding and every sounding pitch of a recorded note
   * is shown; after Stop nothing is shown.
   */
  lemma ActiveNotesShowSounding(rec: Recording, playing: set<int>)
    requires rec.mode == PLAYING
    ensures var shown := ActiveNotes(rec.(currentEvents := CurrentEventsOf(rec.events, playing)));
      && shown.Some?
      && (forall p :: p in shown.value ==> p in playing)
      && (forall i :: 0 <= i < |rec.events| && rec.events[i].midiNumber in playing ==> rec.events[i].midiNumber in shown.value)
    ensures ActiveNotes(Stopped(rec)).None?
  {
    var cur := CurrentEventsOf(rec.events, playing);
    CurrentEventsMembers(rec.events, playing);
    var shown := Pitches(cur);
    forall p | p in shown ensures p in playing {
      var k :| 0 <= k < |shown| && shown[k] == p;
      assert cur[k] in cur;
    }
    forall i | 0 <= i < |rec.events| && rec.events[i].midiNumber in playing ensures rec.events[i].midiNumber in shown {
      var e := rec.events[i];
      assert e in rec.events;
      var k :| 0 <= k < |cur| && cur[k] == e;
      assert shown[k] == e.midiNumber;
    }
  }

  // ---------------------------------------------------------------------
  // The component's state

  /** The dependencies `[recording.mode, recording.events.length]` of the anchor-reset effect. */
  function EffectDeps(rec: Recording): (Mode, int) {
    (rec.mode, |rec.events|)
  }

  /** The anchor-reset effect runs (its dependencies changed) and its condition holds. */
  predicate AnchorResets(lastDeps: Option<(Mode, int)>, rec: Recording) {
    lastDeps != Some(EffectDeps(rec)) && rec.mode == RECORDING && |rec.events| == 0
  }

  /**
   * An enabled Clear changes the effect's dependencies and leaves RECORDING
   * with no events, so the effect resets the anchor; Stop of a recording
   * that has notes never does.
   */
  lemma ClearResetsAnchor(rec: Recording, now: int)
    requires ClearEnabled(rec)
    ensures AnchorResets(Some(EffectDeps(rec)), Cleared(rec, now))
    ensures !AnchorResets(Some(EffectDeps(rec)), Stopped(rec))
  {
  }

  class CaptureEngine {
    /** `noteStartTimes`: the press time of each pitch whose release is pending. */
    var noteStartTimes: map<int, int>
    /** The last input modality. */
    var keyPressSource: KeyPressSource
    /** The session anchor, `null` until the first press in RECORDING. */
    var recordingStartTime: Option<int>
    /** The dependencies the anchor-reset effect last ran with, `None` before the first render. */
    var lastDeps: Option<(Mode, int)>
    /** The `instrumentInfo` prop. */
    const instrumentInfo: Option<InstrumentInfo>

    constructor (instrumentInfo: Option<InstrumentInfo>)
      ensures noteStartTimes == map[] && keyPressSource == Keyboard && recordingStartTime.None? && lastDeps.None?
      ensures this.instrumentInfo == instrumentInfo
    {
      noteStartTimes := map[];
      keyPressSource := Keyboard;
      recordingStartTime := None;
      lastDeps := None;
      this.instrumentInfo := instrumentInfo;
    }

    /** A `keydown`, `mousedown` or `touchstart` on the document. */
    method InputDetected(source: KeyPressSource)
      modifies this`keyPressSource
      ensures keyPressSource == source
    {
      keyPressSource := source;
    }

    /** After a render: the anchor-reset effect runs when its dependencies changed. */
    method SyncEffects(rec: Recording)
      modifies this`recordingStartTime, this`lastDeps
      ensures lastDeps == Some(EffectDeps(rec))
      ensures recordingStartTime == if AnchorResets(old(lastDeps), rec) then None else old(recordingStartTime)
    {
      if lastDeps != Some(EffectDeps(rec)) {
        lastDeps := Some(EffectDeps(rec));
        if rec.mode == RECORDING && |rec.events| == 0 {
          recordingStartTime := None;
        }
      }
    }

    /** `onPlayNoteInput(pitch)` at the clock reading `page.now`. */
    method Press(page: PianoPage, pitch: int)
      modifies this`noteStartTimes, this`recordingStartTime
      ensures noteStartTimes == old(noteStartTimes)[pitch := page.now]
      ensures recordingStartTime ==
        if old(recordingStartTime).None? && page.recording.mode == RECORDING then Some(page.now) else old(recordingStartTime)
    {
      var absoluteStartTime := page.now;
      if recordingStartTime.None? && page.recording.mode == RECORDING {
        recordingStartTime := Some(absoluteStartTime);
      }
      noteStartTimes := noteStartTimes[pitch := absoluteStartTime];
    }

    /**
     * `onStopNoteInput(pitch, { prevActiveNotes })` at the clock reading
     * `page.now`: unless the pitch's press time and the anchor are both
     * truthy nothing happens; otherwise the notes are recorded (in
     * RECORDING only) and the pending press is dropped in every mode.
     */
    method Release(page: PianoPage, pitch: int, prevActiveNotes: seq<int>)
      requires page.Valid()
      modifies this`noteStartTimes, page`recording
      ensures page.Valid()
      ensures var start := Lookup(old(noteStartTimes), pitch);
        if Truthy(start) && Truthy(recordingStartTime) then
          var a := recordingStartTime.value;
          && noteStartTimes == old(noteStartTimes) - {pitch}
          && page.recording == ReleaseValue(old(page.recording), prevActiveNotes, a, start.value, page.now,
                                            keyPressSource, instrumentInfo)
        else noteStartTimes == old(noteStartTimes) && page.recording == old(page.recording)
    {
      var absoluteStartTime := Lookup(noteStartTimes, pitch);
      if Truthy(absoluteStartTime) && Truthy(recordingStartTime) {
        var absoluteEndTime := page.now;
        var relativeStartTime := Seconds(recordingStartTime.value, absoluteStartTime.value);
        var relativeEndTime := Seconds(recordingStartTime.value, absoluteEndTime);
        var noteDuration := relativeEndTime - relativeStartTime;
        RecordNotes(page, prevActiveNotes, relativeStartTime, relativeEndTime, noteDuration,
                    absoluteStartTime.value, absoluteEndTime);
        noteStartTimes := noteStartTimes - {pitch};
      }
    }

    /** `recordNotes`: appends the notes and raises `currentTime`, in RECORDING only. */
    method RecordNotes(page: PianoPage, pitches: seq<int>, relStart: real, relEnd: real, duration: real,
                       absStart: int, absEnd: int)
      requires page.Valid()
      modifies page`recording
      ensures page.Valid()
      ensures page.recording ==
        RecordNotesValue(old(page.recording), pitches, relStart, relEnd, duration, absStart, absEnd, keyPressSource, instrumentInfo)
    {
      if page.recording.mode != RECORDING {
        return;
      }
      var newEvents := CapturedEvents(pitches, relStart, relEnd, duration, absStart, absEnd, keyPressSource, instrumentInfo);
      page.SetRecording(Partial(events := Some(page.recording.events + newEvents),
                                currentTime := Some(MaxReal(page.recording.currentTime, relEnd))));
    }
  }
}
