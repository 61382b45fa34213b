# OpenBand piano: recording and playback timeline

This Dafny project models the part of the OpenBand piano that records notes
and plays them back. It covers:

- the **piano page** (`pages/piano.tsx`). The page owns the `Recording`
  aggregate and merges partial updates into it (`setRecording`). It runs
  the transport: Play, Stop and Clear, each behind its button guard. Play
  builds and stable-sorts the timeline of note starts and ends. It
  schedules one timer per timeline entry, plus an auto-stop. Fired timers
  update the set of sounding pitches and `currentEvents`, and call the
  audio provider. The page also lists the recorded notes
  (`formatRecordedNotes`).
- the **capture engine** (`components/PianoWithRecording.tsx`). It keeps
  pending press times per pitch, the session anchor and the last input
  modality. It also has the anchor-reset effect, `recordNotes`, the
  `midiToNoteName` helper and the `activeNotes` derivation.
- the **legacy capture component** (`components/PianoWithRecording.js`).
  It has a single press time and a "recorded once" flag. Its note times are
  chained: each batch starts where the previous note ended.
- the **data model** (`types/index.ts`): `RecordingEvent`, `Recording`,
  `Partial<Recording>` and `RecordingData`.

Modules:

- `Types` (types.dfy) holds the data model.
- `Sorting` (sorting.dfy) holds the stable sort that
  `Array.prototype.sort` must perform, and its properties.
- `Timeline` (timeline.dfy) holds:
  - the end time;
  - the timeline and its sort;
  - the browser's timer queue as an explicit sequence ordered by due time
    and then handle;
  - the playback plan;
  - what the callbacks do.
- `Piano` (piano.dfy) holds the page as a class:
  - the fields written in place: `recording`, `scheduledEvents`, the timer
    queue and the sounding set;
  - a simulated clock;
  - the trace of audio calls.
- `Capture` (capture.dfy) holds the capture engine as a class acting on a
  page's recording.
- `LegacyCapture` (legacy.dfy) holds the legacy component.

Time has two representations:

- Clock readings (`Date.now()`) are integer milliseconds.
- Times relative to the session anchor are exact `real` seconds: `ms / 1000`
  with no rounding.

`setTimeout(f, x)` waits `DelayMs(x)` milliseconds. That is the fraction
truncated and a negative delay taken as 0, as the WebIDL `long` conversion
does.

React's `setState` is a synchronous merge. The effect with dependencies
`[recording.mode, recording.events.length]` runs in
`CaptureEngine.SyncEffects`, and only when those dependencies changed since
its last run.

Behaviour of the code that the model follows, where the project's own
description of the system says something else:

- No Play guard in the handler:
  - Play has no guard of its own; the button's `disabled` attribute is the
    guard.
  - So Play of an empty recording switches to PLAYING and schedules
    nothing. With an end time of 0 no auto-stop is scheduled, so the page
    stays PLAYING until Stop.
  - The auto-stop is scheduled only when the end time is positive.
- Same-pitch end: an end entry removes its pitch from the sounding set even
  while another note of the same pitch is still inside its interval
  (`SamePitchEndSilences`).
- Stop calls no `stopNote`: it cancels the timers and clears
  `currentEvents`, but never calls `stopNote` for the pitches still
  sounding.
- One note per active key: a release appends one note for every pitch in
  `prevActiveNotes`, not only for the released pitch.
- `currentTime` stays at `max(0, latest end time)` only when every capture
  records at least one pitch. A release with an empty `prevActiveNotes`
  still raises it (`WatermarkKept`).
- Anchor reset:
  - The anchor is reset when the effect's dependencies change while the
    mode is RECORDING and there are no events. That happens after an
    enabled Clear (`ClearResetsAnchor`), not after every state change.
  - A press time or anchor equal to 0 counts as missing, because the release
    tests them by JavaScript truthiness.
- Input tag at release: `keyPressSource` is read when `recordNotes` runs
  from the release, so a note is tagged with the modality of the last input
  before its release, not of its press.
- In-place sort: `formatRecordedNotes` sorts the state's event array in
  place, outside `setRecording`, so the recording's events are left in
  start-time order.

## Model

| member | source | states |
|---|---|---|
| Sorting.SortBy | pages/piano.tsx:235 | sorting keeps the length |
| Sorting.SortByElements | pages/piano.tsx:235 | the sorted sequence is a permutation of the input |
| Sorting.InsertElements | pages/piano.tsx:235 | one insertion step adds exactly the inserted element |
| Sorting.InsertSorted | pages/piano.tsx:235 | inserting into a key-sorted sequence keeps it key-sorted |
| Sorting.SortBySorted | pages/piano.tsx:235 | the sort result is non-decreasing in the key and a permutation of the input |
| Sorting.InsertStable | pages/piano.tsx:235 | inserting an element of lower rank than all others keeps "by key, ties by rank" order |
| Sorting.SortByStable | pages/piano.tsx:235 | when ranks number the input in order, equal keys keep their input order (stability) |
| Sorting.PrecedesFirst | pages/piano.tsx:235 | in a stable order the first element precedes every other element |
| Sorting.StableOrderUnique | pages/piano.tsx:235 | two stable orderings of the same elements are equal, so any stable sort gives this result |
| Timeline.RecordingEndTime | pages/piano.tsx:179-186 | 0 for no events; otherwise at least every event's `endTime` and equal to one of them |
| Timeline.EndTimePermutation | pages/piano.tsx:179-186 | the end time does not depend on the order of the events |
| Timeline.EndTimeAppend | pages/piano.tsx:179-186 | the end time of two non-empty event lists joined is the larger of their end times |
| Timeline.TimelineOf | pages/piano.tsx:219-232 | the pushed timeline has two entries per event; `TimelineShape` gives them |
| Timeline.TimelineShape | pages/piano.tsx:219-232 | the pushed timeline has `2·|events|` entries: for event i, a start at `startTime` (position 2i) and an end at `endTime` (position 2i+1) |
| Timeline.BuildTimeline | pages/piano.tsx:219-232 | the loop pushes exactly the start and end entries of every event in event order |
| Timeline.SortedTimeline | pages/piano.tsx:235 | sorting keeps two entries per event; `SortedTimelineOrder` gives order and permutation |
| Timeline.BuildSortedTimeline | pages/piano.tsx:219-235 | the timeline Play schedules is the pushed timeline stably sorted by time |
| Timeline.SortedTimelineOrder | pages/piano.tsx:219-235 | the sorted timeline has `2·|events|` entries, is a permutation of the pushed entries, is non-decreasing in time and keeps push order among equal times |
| Timeline.SortedTimelineEntries | pages/piano.tsx:219-235 | every sorted entry is the start or end of some event, carrying that event's pitch and time |
| Timeline.SortedTimelineIs | pages/piano.tsx:219-235 | any stable time order of the pushed entries is the sorted timeline |
| Timeline.TwoNoteTimeline | pages/piano.tsx:219-232 | two events push start and end of the first, then start and end of the second |
| Timeline.OverlappingNotesOrder | pages/piano.tsx:219-235 | A(0,1) and B(0.5,1.5) play in the order A start, B start, A end, B end |
| Timeline.DelayMs | pages/piano.tsx:266 | the delay a timer waits is never negative |
| Timeline.DelayMonotone | pages/piano.tsx:266 | a later timeline time never gets an earlier delay |
| Timeline.ActionOf | pages/piano.tsx:244-256 | a start entry schedules a start of its pitch with its event's velocity, an end entry an end of its pitch, never the auto-stop |
| Timeline.Enqueue | pages/piano.tsx:242-243 | scheduling a timer lengthens the queue by one |
| Timeline.EnqueueElements | pages/piano.tsx:242-243 | scheduling adds exactly the new timer to the pending ones |
| Timeline.EnqueueOrdered | pages/piano.tsx:242-243 | scheduling a timer with a fresh, larger handle keeps the queue in firing order |
| Timeline.EnqueueLast | pages/piano.tsx:242-243 | a timer due no earlier than every pending one fires last |
| Timeline.ScheduleStep | pages/piano.tsx:241-268 | scheduling keeps the page's timer invariant: firing order, handles recorded and fresh, nothing due in the past |
| Timeline.QueueAfterPrefix | pages/piano.tsx:241-278 | the queue after the first k timers of a plan does not depend on what follows them |
| Timeline.QueueAfterLast | pages/piano.tsx:270-278 | scheduling one more timer after a plan enqueues it on the plan's queue |
| Timeline.QueueInOrder | pages/piano.tsx:241-278 | scheduling timers that are already in firing order leaves the queue equal to them |
| Timeline.HandleRange | pages/piano.tsx:242 | the recorded handles number n |
| Timeline.HandleRangeElements | pages/piano.tsx:242 | the j-th recorded handle is the first handle plus j |
| Timeline.Cancel | pages/piano.tsx:283 | `clearTimeout(h)` leaves exactly the pending timers whose handle is not h |
| Timeline.CancelOrdered | pages/piano.tsx:283 | cancelling a timer keeps the queue in firing order |
| Timeline.CancelStep | pages/piano.tsx:282-284 | cancelling handles one by one is cancelling the list of them |
| Timeline.CancelNext | pages/piano.tsx:282-284 | cancelling the next handle after the first i is cancelling the first i + 1 |
| Timeline.CancelAllNone | pages/piano.tsx:282-284 | cancelling no handle changes nothing |
| Timeline.CancelAllCovered | pages/piano.tsx:207-209 | cancelling every handle the pending timers carry leaves no timer |
| Timeline.PlaybackPlan | pages/piano.tsx:241-278 | two timers per event, plus one when the end time is positive; `PlanShape` gives each timer |
| Timeline.PlanQueue | pages/piano.tsx:270-278 | the auto-stop is added, after the entries, exactly when the end time is positive, with the next handle |
| Timeline.PlanShape | pages/piano.tsx:241-278 | the plan has one timer per sorted entry at `time*1000` ms with that entry's callback, then one auto-stop at `endTime*1000` ms exactly when the end time is positive; handles are consecutive |
| Timeline.EntryTimersOrdered | pages/piano.tsx:241-268 | entries in non-decreasing time give entry timers in firing order |
| Timeline.PlanForOrdered | pages/piano.tsx:241-278 | entries in non-decreasing time and none after the end time give a plan in firing order, with the auto-stop, when there is one, last |
| Timeline.PlanInFiringOrder | pages/piano.tsx:241-278 | when every note ends no earlier than it starts, the browser fires the plan in sorted-timeline order with the auto-stop last |
| Timeline.PlaybackVelocity | pages/piano.tsx:248 | an absent or zero velocity plays at 100; any other is the recorded one; a valid velocity gives 1..127 |
| Timeline.CurrentEventsOf | pages/piano.tsx:259-261 | the filter is never longer than the events |
| Timeline.CurrentEventsAppend | pages/piano.tsx:259-261 | filtering two event lists joined is joining their filtered lists, so the filter keeps event order and multiplicity |
| Timeline.CurrentEventsSingle | pages/piano.tsx:259-261 | no events give none; one event is kept exactly when its pitch sounds |
| Timeline.CurrentEventsMembers | pages/piano.tsx:259-261 | `currentEvents` holds exactly the events whose pitch is sounding |
| Timeline.ApplyAction | pages/piano.tsx:244-256 | a start adds its pitch, an end removes it, and no other pitch changes; the auto-stop changes nothing |
| Timeline.SoundingAfterLastAction | pages/piano.tsx:236-256 | a pitch sounds after a run of callbacks exactly when some start of it came after every end of it, or it sounded before and no end of it came |
| Timeline.SoundingAfterAppend | pages/piano.tsx:244-256 | one more callback acts on the set the earlier ones left |
| Timeline.FiredPrefixStep | pages/piano.tsx:241-278 | firing the earliest pending timer, when due, extends the run of fired timers; after the auto-stop nothing is pending |
| Timeline.OverlappingPlan | pages/piano.tsx:219-278 | for A(0,1) and B(0.5,1.5) Play schedules both starts at 0 and 500 ms, both ends at 1000 and 1500 ms and the auto-stop at 1500 ms, already in firing order |
| Timeline.SamePitchEndSilences | pages/piano.tsx:244-256 | with two overlapping notes of one pitch, the first end silences the pitch |
| Piano.SetRecordingValue | pages/piano.tsx:188-199 | supplied fields replace, unsupplied fields are kept, and the metadata's `totalDuration` becomes the merged recording's end time |
| Piano.Stopped | pages/piano.tsx:285-288 | Stop gives RECORDING with no current events and keeps events and `currentTime` |
| Piano.StopEffect | pages/piano.tsx:281-289 | Stop gives RECORDING with no current events, keeps events and `currentTime`, and is idempotent |
| Piano.Cleared | pages/piano.tsx:291-308 | Clear gives an empty RECORDING recording at time 0 with fresh metadata |
| Piano.ClearEffect | pages/piano.tsx:291-308 | Clear gives an empty RECORDING recording with time 0 and fresh metadata of total duration 0, and is idempotent |
| Piano.GuardTransitions | pages/piano.tsx:446-468 | after an enabled Play only Stop and Clear are enabled; Stop disables Stop; after Clear no button is enabled |
| Piano.NoteListing | pages/piano.tsx:310-327 | the placeholder exactly when there are no events, otherwise one line per event; `ListingOrder` gives order and numbering |
| Piano.ListingOrder | pages/piano.tsx:310-327 | the placeholder exactly when there are no events; otherwise one line per event, numbered from 1, in ascending start time, a rearrangement of the events |
| Piano.NumberedLinesOrder | pages/piano.tsx:315-325 | lines of sorted events are numbered from 1 and ascend in start time |
| Piano.PianoPage.constructor | pages/piano.tsx:77-106 | the page starts in RECORDING with an empty recording, fresh metadata and no timers |
| Piano.PianoPage.BindCallbacks | pages/piano.tsx:386-389 | once a render has stored the provider's callbacks, playback calls them |
| Piano.PianoPage.SetRecording | pages/piano.tsx:188-199 | the recording becomes the merge, and the page invariant holds |
| Piano.PianoPage.SetTimeout | pages/piano.tsx:242-243 | a timer with the next handle is queued at the clock plus its delay |
| Piano.PianoPage.ClearTimeout | pages/piano.tsx:283 | the timer with the handle is dropped and the invariant holds |
| Piano.PianoPage.CancelScheduled | pages/piano.tsx:207-209 | cancelling every recorded handle leaves no pending timer |
| Piano.PianoPage.Stop | pages/piano.tsx:281-289 | no timer is pending and the recording is the stopped one |
| Piano.PianoPage.Clear | pages/piano.tsx:291-308 | no timer is pending and the recording is the cleared one |
| Piano.PianoPage.Play | pages/piano.tsx:201-279 | mode PLAYING; earlier timers are cancelled; the pending timers are exactly the playback plan queued in order, with its handles recorded; nothing sounds yet |
| Piano.PianoPage.ResetForPlay | pages/piano.tsx:203-209 | mode PLAYING, no timer pending, no handle recorded, nothing sounding |
| Piano.PianoPage.SchedulePlan | pages/piano.tsx:241-278 | the entries and the auto-stop are queued with consecutive handles |
| Piano.PianoPage.ScheduleEntries | pages/piano.tsx:241-268 | the loop queues one timer per sorted entry and records its handle |
| Piano.PianoPage.ScheduleTimer | pages/piano.tsx:242-243 | one timer queued with the next handle, and its handle recorded |
| Piano.PianoPage.FireNext | pages/piano.tsx:243-276 | the earliest timer fires at its due time and leaves the queue; its callback updates the sounding set, adds its audio call when the callbacks are bound, and sets `currentEvents` to the sounding events; the auto-stop empties the queue and stops |
| Piano.PianoPage.PopTimer | pages/piano.tsx:243 | the earliest timer leaves the queue and the clock moves to its due time |
| Piano.PianoPage.RunCallback | pages/piano.tsx:244-265 | what a callback does, per kind of entry, as for FireNext |
| Piano.PianoPage.AdvanceTo | pages/piano.tsx:241-289 | the fired timers are the queue's first ones, all due by the time, and stop early only at the auto-stop; the rest are pending, all due later; the sounding set, the audio calls and the recording are what the fired callbacks leave, in order |
| Piano.OverlappingPlayback | pages/piano.tsx:201-279 | 700 ms after Play of A(0,1) and B(0.5,1.5) both are current, both pitches sound and A then B were played |
| Piano.OverlappingFired | pages/piano.tsx:241-268 | with timers due at 0, 500 and 1000 ms, exactly the first two fire by 700 ms |
| Piano.TwoStartsEffect | pages/piano.tsx:244-265 | two starts from silence make both pitches sound and both events current |
| Piano.PianoPage.FormatRecordedNotes | pages/piano.tsx:310-327 | the listing of the events, and the events left sorted by start time in place |
| Piano.PianoPage.Click | pages/piano.tsx:446-468 | a click runs its handler exactly when the button is enabled: Play schedules the plan as `Play` does, Stop and Clear change only timers and recording; a click on a disabled button changes nothing |
| Capture.JsRem12 | components/PianoWithRecording.tsx:28 | JavaScript's `% 12`: within -11..11, with the sign of the dividend, and differing from it by a multiple of 12 |
| Capture.NatToString | components/PianoWithRecording.tsx:30 | the octave prints as a non-empty string |
| Capture.NatToStringValue | components/PianoWithRecording.tsx:30 | the printed octave is made of digits only and reads back as the number |
| Capture.LetterIndexOfNames | components/PianoWithRecording.tsx:26 | each of the 12 names reads back as its index, and is one letter with an optional sharp |
| Capture.ParseLetterDigits | components/PianoWithRecording.tsx:26-30 | a letter with its optional sharp followed by digits reads back as the pitch class plus 12·(octave + 1) |
| Capture.MidiToNoteName | components/PianoWithRecording.tsx:25-31 | the octave is ⌊(m−12)/12⌋ |
| Capture.NoteNameParts | components/PianoWithRecording.tsx:25-31 | for m ≥ 12 the octave is ⌊(m−12)/12⌋ ≥ 0, the name is `names[(m−12) mod 12]` followed by the octave, and octave and index give back m |
| Capture.NoteNameRoundTrip | components/PianoWithRecording.tsx:25-31 | for m ≥ 12 the name reads back as m, so distinct notes get distinct names |
| Capture.NoteNameExamples | components/PianoWithRecording.tsx:25-31 | 60 gives "C4", 61 "C#4", 48 "C3", 65 "F4" |
| Capture.NoteNameBelowTwelve | components/PianoWithRecording.tsx:25-31 | 0 gives "C-1" and 5 gives "undefined-1" |
| Capture.RecordNotesValue | components/PianoWithRecording.tsx:90-125 | outside RECORDING no note is added; otherwise one per pitch, and the mode is kept |
| Capture.RecordNotesEffect | components/PianoWithRecording.tsx:98-124 | no change outside RECORDING; otherwise `currentTime` is at least the old value and the end time and equals one of them, mode and `currentEvents` are kept, and the metadata is kept present or absent with its total duration following the events |
| Capture.RecordNotesEvents | components/PianoWithRecording.tsx:121-122 | in RECORDING the old events stay an unchanged prefix, followed by exactly one new note per pitch |
| Capture.RecordNotesAdded | components/PianoWithRecording.tsx:102-122 | the i-th new note has the i-th pitch, the given relative and absolute times and duration, velocity 100, the name and octave of its pitch, the input modality and the instrument |
| Capture.RecordNotesEndTime | components/PianoWithRecording.tsx:121-124 | after a capture the recording's end time is the larger of the old end and the new note's end |
| Capture.WatermarkKept | components/PianoWithRecording.tsx:121-124 | `currentTime` stays at max(0, end time) through every capture of at least one pitch, and a capture of none breaks it |
| Capture.RecordNotesEnablesTransport | components/PianoWithRecording.tsx:121-124 | a capture of at least one pitch enables Play and Clear |
| Capture.ReleaseValue | components/PianoWithRecording.tsx:71-88 | a release adds one note per active pitch in RECORDING, and `currentTime` then covers the release's offset from the anchor |
| Capture.CaptureTiming | components/PianoWithRecording.tsx:74-77 | start and end are the press and release offsets from the anchor in seconds; the duration is the held time; playback's delay gives back the offsets in ms; the note is well formed when held for a non-negative time |
| Capture.ActiveNotes | components/PianoWithRecording.tsx:127-129 | a key list exactly while playing, with one key per current event |
| Capture.ActiveNotesShowSounding | components/PianoWithRecording.tsx:127-129 | while playing, the shown keys are exactly the sounding pitches of recorded notes; after Stop nothing is shown |
| Capture.ClearResetsAnchor | components/PianoWithRecording.tsx:51-55 | after an enabled Clear the effect resets the anchor; after Stop of a recording with notes it does not |
| Capture.CaptureEngine.constructor | components/PianoWithRecording.tsx:20-22 | no pending presses, modality `keyboard`, no anchor |
| Capture.CaptureEngine.InputDetected | components/PianoWithRecording.tsx:34-48 | the modality becomes the last input's |
| Capture.CaptureEngine.SyncEffects | components/PianoWithRecording.tsx:51-55 | the anchor is reset exactly when the dependencies changed, the mode is RECORDING and there are no events |
| Capture.CaptureEngine.Press | components/PianoWithRecording.tsx:57-69 | the press time of the pitch is overwritten; the anchor is set only when missing and in RECORDING |
| Capture.CaptureEngine.Release | components/PianoWithRecording.tsx:71-88 | a no-op unless the press time and the anchor are both truthy; otherwise the notes are recorded with the anchor-relative times and the pending press is dropped in every mode |
| Capture.CaptureEngine.RecordNotes | components/PianoWithRecording.tsx:90-125 | the recording becomes the captured one and the page invariant holds |
| LegacyCapture.LegacyRecordValue | components/PianoWithRecording.js:25-40 | mode and `currentEvents` are kept; one note per pitch is added only in RECORDING |
| LegacyCapture.LegacyRecordEffect | components/PianoWithRecording.js:25-40 | no change outside RECORDING; otherwise old events stay a prefix, followed by one note per pitch at the last note's `time + duration` (0 when none), and `currentTime` grows by exactly the duration |
| LegacyCapture.LegacyChain | components/PianoWithRecording.js:29-39 | each batch starts at `currentTime`; a non-empty batch keeps `currentTime` at the last note's end; an empty batch of positive duration breaks that |
| LegacyCapture.LegacyCaptureKeepsKeys | components/PianoWithRecording.js:25-45 | capturing never changes the keys shown as held, and while recording none are shown |
| LegacyCapture.LegacyPiano.constructor | components/PianoWithRecording.js:8-10 | not yet recorded, no press time |
| LegacyCapture.LegacyPiano.Press | components/PianoWithRecording.js:12-15 | the flag is cleared and the press time overwritten |
| LegacyCapture.LegacyPiano.Release | components/PianoWithRecording.js:17-23 | only the first release after a press records, with duration (now − press)/1000, and a missing press counts as 0; the flag is then set |
| LegacyCapture.LegacyPiano.RecordNotes | components/PianoWithRecording.js:25-40 | the recording becomes the chained capture |

## Left out

- Audio: the Web Audio context, resuming it and the audio provider
  (`createAudioContext`, `initializeAudio`, `handleUserInteraction`,
  `SoundfontProvider`). `playNote`/`stopNote` are only entries in the trace
  `calls`, and `calls` records only the audio calls the playback callbacks
  make.
- Mounting and unmounting: the page's `componentDidMount` and `componentWillUnmount`, whose timer clean-up only
  matters once the page is gone.
- Layout and rendering: `isMobileDevice`, `getResponsivePianoWidth`,
  `handleResize` and all JSX. These are presentation only.
- React semantics: batching of `setState`, stale closures (every callback
  reads live state) and the ordering of renders.
- Timer accuracy: timers fire exactly at their due time, in (due, handle)
  order. A delay above 2^31 − 1 ms overflows the browser's 32-bit timeout
  value, so such a timer fires almost at once; the model waits the full
  delay.
- Floating point: times are exact reals, and `toFixed` and the velocity
  percentage in the listing are not modelled.
- Capture.CaptureTiming: the playback delay gives back the captured
  millisecond offset only for exact reals. With doubles, an offset of
  1001 ms becomes `1.001 * 1000 = 1000.9999999999999` and the timer fires
  at 1000 ms; this happens for a small fraction of offsets.
- Persistence, logging and routing: `RecordSaving`, `KeyboardLogger`, the
  ambient type declarations and the index page are not part of this model.
  `RecordingData` is only a datatype with its `noteCount` predicate.
- The document listeners for input modality are the method
  `CaptureEngine.InputDetected`. Adding and removing the listeners is not
  modelled.
- The legacy component's `keysDown` state is never read and is not
  modelled. The `setRecording` it is handed belongs to a page that is not
  part of this model. It is modelled as a plain merge of `events` and
  `currentTime`.
- Sorting the timeline and, in `formatRecordedNotes`, the events, works on
  arrays in place. The model sorts values (`seq`) and assigns the result
  back: `Sorting.SortBy` is a stable insertion sort standing for the
  engine's algorithm, and any stable sort gives the same result.
- Capture.NoteNameRoundTrip covers only MIDI numbers from 12 up, the range
  where names are well defined. The page's keyboard spans c3 to f4 (48 to
  65). Below 12 the behaviour is shown by `NoteNameBelowTwelve` only.
