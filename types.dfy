/**
 * The shared data model of the piano recorder: a recorded note, the
 * recording aggregate owned by the page, the partial update accepted by
 * `setRecording`, and a saved recording.
 *
 * Wall-clock readings (`Date.now()`) are integer milliseconds; times
 * relative to the start of a recording are exact `real` seconds.
 */
module Types {

  datatype Option<T> = None | Some(value: T) {
    function GetOr(default: T): T {
      match this
      case Some(v) => v
      case None => default
    }
  }

  /** The recording mode is exactly one of two values. */
  datatype Mode = RECORDING | PLAYING

  /** How a note was triggered. */
  datatype KeyPressSource = Keyboard | Mouse | Touch

  datatype InstrumentInfo = InstrumentInfo(instrumentName: string, soundfont: string, format: string)

  /** One recorded note. `time`, `startTime` and `endTime` are seconds relative to the recording start. */
  datatype RecordingEvent = RecordingEvent(
    midiNumber: int,
    time: real,
    duration: real,
    velocity: Option<int>,
    startTime: real,
    endTime: real,
    noteName: string,
    octave: int,
    keyPressSource: KeyPressSource,
    absoluteStartTime: Option<int>,
    absoluteEndTime: Option<int>,
    instrumentSettings: Option<InstrumentInfo>)

  datatype Metadata = Metadata(
    startTimestamp: int,
    totalDuration: real,
    tempo: Option<real>,
    keySignature: Option<string>,
    timeSignature: Option<string>,
    instrumentInfo: InstrumentInfo)

  /** The recording aggregate. */
  datatype Recording = Recording(
    mode: Mode,
    events: seq<RecordingEvent>,
    currentTime: real,
    currentEvents: seq<RecordingEvent>,
    recordingMetadata: Option<Metadata>)

  /** `Partial<Recording>`: a field that is `None` is not supplied. */
  datatype Partial = Partial(
    mode: Option<Mode> := None,
    events: Option<seq<RecordingEvent>> := None,
    currentTime: Option<real> := None,
    currentEvents: Option<seq<RecordingEvent>> := None,
    recordingMetadata: Option<Metadata> := None)

  /** A saved recording, as handed to the persistence layer. */
  datatype RecordingData = RecordingData(
    id: string,
    name: string,
    recording: Recording,
    createdAt: int,
    duration: real,
    noteCount: int,
    tags: Option<seq<string>>)

  /** The documented velocity range: absent, or within 0..127. */
  predicate ValidVelocity(v: Option<int>) {
    v.None? || 0 <= v.value <= 127
  }

  /** An event whose derived fields agree with its times, as the capture engine produces them. */
  predicate WellFormedEvent(e: RecordingEvent) {
    && e.startTime <= e.endTime
    && e.duration == e.endTime - e.startTime
    && e.time == e.startTime
    && ValidVelocity(e.velocity)
  }

  /** `noteCount` is the number of notes of the saved recording. */
  predicate ConsistentRecordingData(d: RecordingData) {
    d.noteCount == |d.recording.events|
  }

  const DefaultInstrument: InstrumentInfo := InstrumentInfo("acoustic_grand_piano", "MusyngKite", "mp3")

  /** The metadata a fresh or cleared recording carries, stamped with the clock reading `now`. */
  function FreshMetadata(now: int): Metadata {
    Metadata(now, 0.0, None, None, None, DefaultInstrument)
  }

  function Pitches(events: seq<RecordingEvent>): (r: seq<int>)
    ensures |r| == |events|
    ensures forall i :: 0 <= i < |events| ==> r[i] == events[i].midiNumber
  {
    seq(|events|, i requires 0 <= i < |events| => events[i].midiNumber)
  }
}
