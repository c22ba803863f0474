# MakeItMIDI note decoding, modelled in Dafny

MakeItMIDI turns microphone audio into MIDI notes. An acoustic model produces four
32 × 88 probability matrices per audio window: frame activity, onsets, offsets and
velocities. This project models what happens after the model and around it:

- `Viterbi.dfy`: the two-state (off/on) Viterbi decoder `probsToPianorollViterbi`.
  It is written as a specification (`Loss`, `BestPrev`, `DecodedState`, `Pianoroll`)
  plus an imperative forward/backward pass over `array3`/`array2` proved equal to it.
  The decoded column is proved optimal among all on/off sequences of the same length.
- `Segmenter.dfy`: `pianorollToNoteSequence` with its nested `endPitch` and
  `processActivePitch`, and `unscaleVelocity`. The scan is a specification
  (`ScanRows`/`ScanCells`/`StepCell`) and an imperative method. That method uses a
  `PitchTrackState` object for the state the Swift closures capture: the
  pitch → start-frame table, the 128-slot velocity array and the emitted sequence.
- `SoundClassifier.dfy`: the decoding-mode dispatch in `start`, the reshape of the
  flat model outputs, and the rising-edge onset matrix built from the decoded roll.
- `Notes.dfy`: the `Note` record, its `init`, and the `<name><octave>: <velocity>`
  prefix of `description`.
- `AudioInput.dfy`: the `AudioInputManager` window size, the 20-slot level meter
  `insertIntoArray`, and the tap callback's handling of `samples`, `viz` and `overlap`.
- `Wrappers.dfy` and `Matrices.dfy` hold an `Option` type and a matrix-shape predicate.

Swift's `Float`/`Double` values are modelled as `real`s. Swift's `Int32` is a subset
type. Swift's truncating `%`, `/` and `Int(x)` are written out (`TruncRem`,
`TruncDiv`, `Truncate`).

Two behaviours of the code that a reader might not expect, both kept by the model:
- Viterbi transitions: only 0→1 pays `onsetLosses[i, :, 1]`; 0→0, 1→0 and 1→1 all pay
  `onsetLosses[i, :, 0]` (`MakeItMIDI/SoundClassifier.swift:137-140`). `Viterbi.Transition` keeps this.
- Overlap: the merge branch at `MakeItMIDI/AudioInputManager.swift:123-125` is empty, so
  `samples` is always the new chunk and the stored overlap is never read.
  `AudioInput.AudioInputManager.TapCallback` keeps this.

## Model

| member | source | states |
|---|---|---|
| Notes.MakeNote | MakeItMIDI/Note.swift:46-58 | `init` stores pitch, start, end and velocity unchanged; instrument and program are 0 |
| Notes.Octave | MakeItMIDI/Note.swift:43 | the printed octave `pitch / 12` truncates toward zero: 12·octave ≤ pitch < 12·octave + 12 for non-negative pitch, the mirrored bound for negative pitch |
| Notes.PitchNameTable | MakeItMIDI/Note.swift:14-41 | the name is the table A, A#, B, C, C#, D, D#, E, F, F#, G, G# at `pitch mod 12` when the truncated remainder is non-negative, otherwise "Unknown" |
| Notes.PitchName | MakeItMIDI/Note.swift:14-41 | the name is "Unknown" exactly when the truncated remainder `pitch % 12` is negative, and otherwise the table entry at that remainder |
| Notes.DescriptionPrefix | MakeItMIDI/Note.swift:43 | the prefix of `description` starts with the pitch name and ends with `>> ` |
| Notes.UnknownExactlyForNegativeRemainder | MakeItMIDI/Note.swift:14-40 | the name is "Unknown" if and only if the pitch is negative and not a multiple of 12 |
| Notes.OctaveUp | MakeItMIDI/Note.swift:14-43 | for a non-negative pitch, pitch + 12 has the same name and an octave one higher |
| Notes.NameAndOctaveDeterminePitch | MakeItMIDI/Note.swift:14-43 | two non-negative pitches with the same name and octave are equal |
| Notes.DecimalRoundTrip | MakeItMIDI/Note.swift:43 | the decimal rendering of an integer used by the interpolation parses back to that integer |
| Notes.DescriptionPrefixReadsBack | MakeItMIDI/Note.swift:43 | the rendered `<name><octave>: <velocity>>> ` prefix starts with the pitch name, and the numeral after it reads back as the octave |
| Viterbi.Argmin | MakeItMIDI/SoundClassifier.swift:142-151 | state 0 is chosen exactly when its loss is not greater than state 1's (ties go to 0) |
| Viterbi.Transition | MakeItMIDI/SoundClassifier.swift:137-140 | only the transition 0→1 pays the "on" onset loss; entering state 0, or leaving state 1, pays the "off" onset loss |
| Viterbi.LossRecurrence | MakeItMIDI/SoundClassifier.swift:132-147 | the table `Loss` (`lossMatrix`) at step t is the loss at t - 1 of the chosen predecessor `BestPrev` (`pathMatrix`) plus its transition and frame loss, and is no more than the same sum through either predecessor |
| Viterbi.Pianoroll | MakeItMIDI/SoundClassifier.swift:150-156 | the decoded roll is an n × d boolean matrix |
| Viterbi.LossIsLowerBound | MakeItMIDI/SoundClassifier.swift:132-148 | `loss[t,p,s]` is at most the cost of every state sequence of length t + 1 ending in s |
| Viterbi.DecodedPrefixCost | MakeItMIDI/SoundClassifier.swift:142-154 | following `pathMatrix` back from step t gives a prefix whose cost is exactly `loss[t,p,decoded state]` |
| Viterbi.ViterbiIsOptimal | MakeItMIDI/SoundClassifier.swift:132-154 | the decoded column costs `min(loss[n-1,p,0], loss[n-1,p,1])` and no on/off sequence of the same length costs less |
| Viterbi.LossReadsOnlyItsColumn | MakeItMIDI/SoundClassifier.swift:132-147 | `loss[t,p,·]` depends only on column p of the loss inputs |
| Viterbi.ColumnsDecodedIndependently | MakeItMIDI/SoundClassifier.swift:142-154 | two inputs that agree on column p decode column p identically |
| Viterbi.ViterbiUnitTest | MakeItMIDITests/MakeItMIDITests.swift:21-30 | for losses within 0.001 of those of the test's probabilities (alpha 0.5), the flattened roll is [F,F,F,F,T,F,T,F] |
| Viterbi.ForwardPass | MakeItMIDI/SoundClassifier.swift:117-148 | fills `lossMatrix` and `pathMatrix` with the loss recurrence and the argmin predecessors for every row |
| Viterbi.ForwardRow | MakeItMIDI/SoundClassifier.swift:134-147 | row i of both matrices follows from row i - 1 by the transition rule (0→1 pays the on-onset loss, the rest the off-onset loss) |
| Viterbi.BackwardPass | MakeItMIDI/SoundClassifier.swift:150-154 | every row of the roll holds the decoded states |
| Viterbi.BackwardRow | MakeItMIDI/SoundClassifier.swift:152-153 | row i of the roll is `pathMatrix[i + 1]` indexed by row i + 1 |
| Viterbi.ProbsToPianorollViterbi | MakeItMIDI/SoundClassifier.swift:109-157 | for n ≥ 2 rows the returned roll equals the specification `Pianoroll` |
| Viterbi.RollColumn | MakeItMIDI/SoundClassifier.swift:150-156 | column p of a roll, read as states: state 1 exactly where the roll is true |
| Viterbi.PianorollIsOptimal | MakeItMIDI/SoundClassifier.swift:132-156 | column p of the returned roll is the back-traced column `DecodedState`, and no on/off sequence of the same length costs less |
| Segmenter.UnscaleVelocity | MakeItMIDI/SoundClassifier.swift:239-242 | the velocity is clamped to [0, 1], scaled and truncated: it lies in [bias, bias + scale], is bias at or below 0 and bias + scale at or above 1 |
| Segmenter.UnscaleVelocityMonotone | MakeItMIDI/SoundClassifier.swift:239-242 | a larger raw velocity never records a smaller MIDI velocity |
| Segmenter.PredictAndPad | MakeItMIDI/SoundClassifier.swift:168-184 | thresholding gives a 33 × 88 matrix whose first 32 rows are `m > level` and whose row 32 is all false |
| Segmenter.ConfirmedByOnsets | MakeItMIDI/SoundClassifier.swift:186-192 | a cell is active exactly when (frame or onset) and not (frame and offset) |
| Segmenter.RecordedVelocity | MakeItMIDI/SoundClassifier.swift:213-220 | the stored velocity lies in [10, 90] with velocity prediction and is 60 without |
| Segmenter.EndPitchStep | MakeItMIDI/SoundClassifier.swift:194-207 | ending a pitch keeps the velocity table at 128 entries and every open pitch a key 0..87 with a recordable velocity |
| Segmenter.StartPitchStep | MakeItMIDI/SoundClassifier.swift:212-220 | opening a pitch keeps the velocity table at 128 entries and every open pitch a key 0..87 with a recordable velocity |
| Segmenter.ProcessActivePitchStep | MakeItMIDI/SoundClassifier.swift:209-223 | processing an active cell keeps the velocity table at 128 entries and every open pitch a key 0..87 with a recordable velocity |
| Segmenter.StepCell | MakeItMIDI/SoundClassifier.swift:228-232 | one cell of the scan keeps the velocity table at 128 entries and every open pitch a key 0..87 with a recordable velocity |
| Segmenter.ScanCells | MakeItMIDI/SoundClassifier.swift:227-233 | scanning the rest of a row keeps the velocity table at 128 entries and every open pitch a key 0..87 with a recordable velocity |
| Segmenter.ScanRows | MakeItMIDI/SoundClassifier.swift:225-234 | scanning the first t rows keeps the velocity table at 128 entries and every open pitch a key 0..87 with a recordable velocity |
| Segmenter.SegmenterInput | MakeItMIDI/SoundClassifier.swift:166-192 | the thresholded, padded and confirmed matrices form a valid 33 × 88 scan input |
| Segmenter.EndPitchKeepsInvariant | MakeItMIDI/SoundClassifier.swift:194-207 | ending pitch p at frame t keeps the scan invariant and leaves p closed |
| Segmenter.StartPitchKeepsInvariant | MakeItMIDI/SoundClassifier.swift:212-220 | opening a closed pitch on an active onset cell keeps the scan invariant |
| Segmenter.StepCellKeepsInvariant | MakeItMIDI/SoundClassifier.swift:228-232 | each cell step keeps the scan invariant |
| Segmenter.ScanCellsKeepsInvariant | MakeItMIDI/SoundClassifier.swift:227-233 | scanning a row from pitch p on keeps the scan invariant |
| Segmenter.ScanRowsKeepsInvariant | MakeItMIDI/SoundClassifier.swift:225-234 | the invariant holds at the start of every row |
| Segmenter.NextFrameKeepsInvariant | MakeItMIDI/SoundClassifier.swift:225-227 | the invariant at the end of row t holds at the start of row t + 1 |
| Segmenter.ScanEndsClosed | MakeItMIDI/SoundClassifier.swift:225-236 | after the padded all-zero row no pitch is open, and every emitted note is well formed and in order |
| Segmenter.NoteSequenceWellFormed | MakeItMIDI/SoundClassifier.swift:160-237 | every note has pitch 0..87, start < end, a recordable velocity, and starts on an active cell with onset > 0.5; notes end in non-decreasing order and notes of one pitch do not overlap |
| Segmenter.NoteSequence | MakeItMIDI/SoundClassifier.swift:160-237 | the notes emitted by the scan end in non-decreasing order, and two notes of one pitch never overlap (the per-note properties are in `NoteSequenceWellFormed`) |
| Segmenter.NoOnsetsNoNotes | MakeItMIDI/SoundClassifier.swift:209-234 | when no onset exceeds 0.5 the sequence is empty |
| Segmenter.RetriggerSplitsNote | MakeItMIDI/SoundClassifier.swift:215-221 | an open pitch meeting a fresh onset edge emits one note ending at t and reopens at t with a new velocity |
| Segmenter.HeldNoteContinues | MakeItMIDI/SoundClassifier.swift:215-222 | an open pitch on an active cell without a fresh onset edge leaves the state unchanged |
| Segmenter.InactiveCellCloses | MakeItMIDI/SoundClassifier.swift:196-231 | an inactive cell emits the open note of its pitch ending at t, and is a no-op when none is open |
| Segmenter.PitchTrackState.constructor | MakeItMIDI/SoundClassifier.swift:161-165 | the scan starts with no open pitch, 128 zero velocities and no notes |
| Segmenter.PitchTrackState.EndPitch | MakeItMIDI/SoundClassifier.swift:194-207 | updates the table and the sequence in place exactly as `EndPitchStep` |
| Segmenter.PitchTrackState.ProcessActivePitch | MakeItMIDI/SoundClassifier.swift:209-223 | updates the table, the velocity array and the sequence in place exactly as `ProcessActivePitchStep` |
| Segmenter.PitchTrackState.ScanFrame | MakeItMIDI/SoundClassifier.swift:227-233 | the inner loop over the 88 pitches of frame i updates the state in place exactly as `ScanCells` over the whole row |
| Segmenter.PianorollToNoteSequence | MakeItMIDI/SoundClassifier.swift:160-237 | the nested loop returns the specification `NoteSequence` |
| SoundClassifier.Reshape | MakeItMIDI/SoundClassifier.swift:166-181 | reshaping a flat output gives rows of 88 |
| SoundClassifier.FlattenReshape | MakeItMIDI/SoundClassifier.swift:93-97 | flattening a reshaped output gives it back |
| SoundClassifier.ReshapeFlatten | MakeItMIDI/SoundClassifier.swift:93-97 | reshaping a flattened 88-wide matrix gives it back |
| SoundClassifier.BoolsToReals | MakeItMIDI/SoundClassifier.swift:97 | `astype(.Float)` maps true to 1.0 and false to 0.0, keeping the shape |
| SoundClassifier.ThresholdOfBools | MakeItMIDI/SoundClassifier.swift:168-179 | thresholding a 0/1 roll at 0.5 gives the roll back |
| SoundClassifier.RisingEdges | MakeItMIDI/SoundClassifier.swift:94-96 | row 0 is the roll's row 0 and row t ≥ 1 is `roll[t] && !roll[t-1]` |
| SoundClassifier.ViterbiLosses | MakeItMIDI/SoundClassifier.swift:124-130 | the loss pair of each cell is weight · -log(1 - prob) and weight · -log(prob) |
| SoundClassifier.DecodedRoll | MakeItMIDI/SoundClassifier.swift:93 | the decoded roll is 32 × 88 |
| SoundClassifier.Start | MakeItMIDI/SoundClassifier.swift:61-106 | a failed invocation gives [], otherwise the segmenter runs on the raw outputs or on the decoded roll and its rising edges |
| SoundClassifier.TranscribeWellFormed | MakeItMIDI/SoundClassifier.swift:61-106 | a failed invocation gives no notes; in both modes the notes have pitch 0..87, start < end and a recordable velocity, end in non-decreasing order, and notes of one pitch do not overlap |
| SoundClassifier.Transcribe | MakeItMIDI/SoundClassifier.swift:61-106 | a failed model invocation gives no notes; otherwise the notes end in non-decreasing order and two notes of one pitch never overlap (the rest is in `TranscribeWellFormed`) |
| SoundClassifier.ViterbiNotesStartOnRisingEdges | MakeItMIDI/SoundClassifier.swift:93-97 | in Viterbi mode every note starts on a rising edge of the decoded roll |
| SoundClassifier.ViterbiActiveCells | MakeItMIDI/SoundClassifier.swift:186-192 | in Viterbi mode a cell is active exactly when the roll is on there and the offset is not above 0 |
| AudioInput.BufferSize | MakeItMIDI/AudioInputManager.swift:14-33 | the window is the sample rate plus 1920, which is 17920 at 16000 Hz |
| AudioInput.Inserted | MakeItMIDI/AudioInputManager.swift:153-160 | the value goes last; a meter of exactly 20 drops its first slot and stays at 20; any other meter just grows by the value |
| AudioInput.InsertIntoArray | MakeItMIDI/AudioInputManager.swift:153-160 | the copy-and-mutate method returns `Inserted` |
| AudioInput.InsertAllStaysWithinSlots | MakeItMIDI/AudioInputManager.swift:153-160 | from at most 20 slots, repeated insertions never exceed 20 |
| AudioInput.FullMeterShowsLatest | MakeItMIDI/AudioInputManager.swift:153-160 | a full meter shows the last 20 values of its history |
| AudioInput.StridedPicksEveryStride | MakeItMIDI/AudioInputManager.swift:108-112 | the chunk holds exactly the samples at 0, stride, 2·stride, … below `frameLength` |
| AudioInput.Strided | MakeItMIDI/AudioInputManager.swift:108-112 | an empty range gives no samples; otherwise the chunk starts with the sample at the start index (every later element is in `StridedPicksEveryStride`) |
| AudioInput.AudioInputManager.constructor | MakeItMIDI/AudioInputManager.swift:14-33 | `samples` is 17920 zeros, `viz` is 20 ones, no overlap, and `bufferSize` is the sample rate plus 1920 |
| AudioInput.AudioInputManager.StopTappingMicrophone | MakeItMIDI/AudioInputManager.swift:49-53 | the meter is reset to 20 ones and nothing else changes |
| AudioInput.AudioInputManager.TapCallback | MakeItMIDI/AudioInputManager.swift:106-129 | with no channel data nothing changes; otherwise `samples` is the chunk, the doubled level is inserted into `viz`, and `overlap` is `chunk[sampleRate..<bufferSize]` of 1920 samples, never spliced back |

## Left out

- The TensorFlow Lite interpreter (`setupInterpreter`, copy, invoke, output, the CoreML delegate) is foreign code. Its four outputs are an input `Option<ModelOutput>`, and `None` stands for an invocation failure.
- `int16ArrayToData` and `dataToFloatArray` are byte rebinding and float normalisation. The model takes their results as given real sequences.
- `-log` in the Viterbi decoder is floating point. It is a parameter `negLog` of `SoundClassifier.ViterbiLosses`. `Viterbi` takes the loss matrices as input.
- Viterbi.ViterbiUnitTest: covers loss values within 0.001 of the test's weighted `-ln` values, not the exact floating-point run, because `-log` is not computable on reals here.
- Viterbi.Argmin: Matft's `argmin` tie-breaking is library code. The model assumes ties go to state 0.
- Float32/Double rounding is not modelled; probabilities, losses and times are exact reals.
- SoundClassifier.Start: the model outputs are taken to be 32 × 88 (`ModelOutput.Valid`). Any other size traps in the Swift `reshape`.
- The `print` calls in `start` and `probsToPianorollViterbi` are output only.
- AVAudioEngine tapping, format conversion, permissions and the `DispatchQueue.main.async` hop are platform I/O and threading. AudioInput.AudioInputManager.TapCallback starts after the converter has produced `channelData`, or failed to (`None`).
- AudioInput.AudioInputManager.TapCallback: requires the strided chunk to hold at least `bufferSize` samples; on a shorter chunk the Swift slice `samples[sampleRate..<bufferSize]` traps, and a trap is not modelled.
- AudioInput.AudioInputManager.TapCallback: the RMS level `10 * log10f(rootMeanSquare)` is floating point. It is the parameter `level`.
- `MakeItMIDI/SignalProcessing.swift` (vDSP RMS, FFT, interpolation) is not part of this model.
- `MakeItMIDI/ContentView.swift` (SwiftUI, MIDI sending) and `MakeItMIDI/MakeItMIDIApp.swift` (MIDI manager lifecycle) are not part of this model.
- Notes.DescriptionPrefix: the text of `startTime` and `endTime` in `description` is left out, because it is the floating-point rendering of a `Double`.
- Segmenter.PianorollToNoteSequence: `framesPerSecond`, `velocityScale` and `velocityBias` are fixed at their defaults 32, 80 and 10, because `start` uses only the defaults.
