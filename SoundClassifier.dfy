/** `SoundClassifier.start`: takes the four 32-by-88 outputs of the
    transcription model and decodes them into notes, either by thresholding
    them directly or, with Viterbi decoding on, by first decoding a binary
    piano roll and using its rising edges as onsets. */
module SoundClassifier {
  import opened Wrappers
  import opened Matrices
  import opened Notes
  import opened Viterbi
  import opened Segmenter

  /** The model's four output tensors, as flat row-major arrays of
      32 * 88 probabilities. */
  datatype ModelOutput = ModelOutput(
    frames: seq<real>,
    onsets: seq<real>,
    offsets: seq<real>,
    velocities: seq<real>)
  {
    predicate Valid()
    {
      && |frames| == Frames * Pitches
      && |onsets| == Frames * Pitches
      && |offsets| == Frames * Pitches
      && |velocities| == Frames * Pitches
    }
  }

  /** `reshape([rows, 88])` of a flat row-major array. */
  function Reshape(flat: seq<real>): (m: seq<seq<real>>)
    requires |flat| % Pitches == 0
    ensures IsMatrix(m, |flat| / Pitches, Pitches)
    decreases |flat|
  {
    if |flat| == 0 then [] else [flat[..Pitches]] + Reshape(flat[Pitches..])
  }

  /** Reshaping and flattening undo each other. */
  lemma {:induction false} FlattenReshape(flat: seq<real>)
    requires |flat| % Pitches == 0
    ensures Flatten(Reshape(flat)) == flat
    decreases |flat|
  {
    if |flat| > 0 {
      FlattenReshape(flat[Pitches..]);
      assert Reshape(flat)[1..] == Reshape(flat[Pitches..]);
      assert flat == flat[..Pitches] + flat[Pitches..];
    }
  }

  lemma {:induction false} ReshapeFlatten(m: seq<seq<real>>, rows: nat)
    requires IsMatrix(m, rows, Pitches)
    ensures |Flatten(m)| == rows * Pitches
    ensures Reshape(Flatten(m)) == m
    decreases rows
  {
    if rows > 0 {
      ReshapeFlatten(m[1..], rows - 1);
      var flat := Flatten(m);
      assert flat[..Pitches] == m[0];
      assert flat[Pitches..] == Flatten(m[1..]);
      assert m == [m[0]] + m[1..];
    }
  }

  /** `astype(.Float)`: true becomes 1, false becomes 0. */
  function BoolsToReals(b: seq<seq<bool>>): (m: seq<seq<real>>)
    ensures |m| == |b| && forall t :: 0 <= t < |b| ==> |m[t]| == |b[t]|
    ensures forall t, p :: 0 <= t < |b| && 0 <= p < |b[t]| ==> m[t][p] == if b[t][p] then 1.0 else 0.0
  {
    seq(|b|, t requires 0 <= t < |b| => seq(|b[t]|, p requires 0 <= p < |b[t]| => if b[t][p] then 1.0 else 0.0))
  }

  /** Thresholding a 0/1 matrix at 0.5 gives back the booleans it came from. */
  lemma ThresholdOfBools(b: seq<seq<bool>>)
    requires IsMatrix(b, Frames, Pitches)
    ensures PredictAndPad(BoolsToReals(b), 0.5)[..Frames] == b
  {
    var padded := PredictAndPad(BoolsToReals(b), 0.5);
    forall t | 0 <= t < Frames
      ensures padded[t] == b[t]
    {
    }
  }

  /** The onsets of a decoded roll: its first frame, then every cell that is
      on where the frame before was off. */
  function RisingEdges(roll: seq<seq<bool>>): (edges: seq<seq<bool>>)
    requires IsMatrix(roll, Frames, Pitches)
    ensures IsMatrix(edges, Frames, Pitches)
    ensures forall t, p :: 0 <= t < Frames && 0 <= p < Pitches ==>
      (edges[t][p] <==> roll[t][p] && (t == 0 || !roll[t - 1][p]))
  {
    [roll[0]] + seq(Frames - 1, t requires 0 <= t < Frames - 1 =>
      seq(Pitches, p requires 0 <= p < Pitches => roll[t + 1][p] && !roll[t][p]))
  }

  /** The Viterbi losses of a probability matrix: `weight * -log(1 - x)` for
      off and `weight * -log(x)` for on. `negLog` stands for the
      floating-point `-log`. */
  function ViterbiLosses(probs: seq<seq<real>>, weight: real, negLog: real -> real): (losses: seq<seq<LossPair>>)
    requires IsMatrix(probs, Frames, Pitches)
    ensures IsMatrix(losses, Frames, Pitches)
    ensures forall t, p :: 0 <= t < Frames && 0 <= p < Pitches ==>
      losses[t][p] == LossPair(weight * negLog(1.0 - probs[t][p]), weight * negLog(probs[t][p]))
  {
    seq(Frames, t requires 0 <= t < Frames => seq(Pitches, p requires 0 <= p < Pitches =>
      LossPair(weight * negLog(1.0 - probs[t][p]), weight * negLog(probs[t][p]))))
  }

  /** The piano roll Viterbi decoding produces from the model's frame and
      onset probabilities, with onset weight `alpha`. */
  function DecodedRoll(output: ModelOutput, alpha: real, negLog: real -> real): (roll: seq<seq<bool>>)
    requires output.Valid()
    ensures IsMatrix(roll, Frames, Pitches)
  {
    Pianoroll(ViterbiLosses(Reshape(output.frames), 1.0 - alpha, negLog),
              ViterbiLosses(Reshape(output.onsets), alpha, negLog))
  }

  /** What `start` returns. `None` stands for an interpreter that failed to
      copy the input, run, or hand back its outputs. */
  function Transcribe(output: Option<ModelOutput>, predictVelocities: bool, viterbiDecoding: bool,
                      alpha: real, negLog: real -> real): (notes: seq<Note>)
    requires output.Some? ==> output.value.Valid()
    ensures output.None? ==> notes == []
    ensures EmittedInOrder(notes)
  {
    match output
    case None => []
    case Some(o) =>
      if !viterbiDecoding then
        NoteSequence(Reshape(o.frames), Reshape(o.onsets), Reshape(o.offsets), Reshape(o.velocities), predictVelocities)
      else
        var roll := DecodedRoll(o, alpha, negLog);
        NoteSequence(BoolsToReals(roll), BoolsToReals(RisingEdges(roll)), Reshape(o.offsets), Reshape(o.velocities),
                     predictVelocities)
  }

  /** `start`, from the model outputs on. */
  method Start(output: Option<ModelOutput>, predictVelocities: bool, viterbiDecoding: bool,
               alpha: real, negLog: real -> real)
    returns (noteSequence: seq<Note>)
    requires output.Some? ==> output.value.Valid()
    ensures noteSequence == Transcribe(output, predictVelocities, viterbiDecoding, alpha, negLog)
  {
    if output.None? {
      return [];
    }
    var o := output.value;
    var frameProbabilities := Reshape(o.frames);
    var onsetProbabilities := Reshape(o.onsets);
    var offsetProbabilities := Reshape(o.offsets);
    var velocityProbabilities := Reshape(o.velocities);
    if !viterbiDecoding {
      noteSequence := PianorollToNoteSequence(frameProbabilities, onsetProbabilities, offsetProbabilities,
                                              velocityProbabilities, predictVelocities);
    } else {
      var pianoroll := ProbsToPianorollViterbi(ViterbiLosses(frameProbabilities, 1.0 - alpha, negLog),
                                               ViterbiLosses(onsetProbabilities, alpha, negLog));
      var onsets := RisingEdges(pianoroll);
      noteSequence := PianorollToNoteSequence(BoolsToReals(pianoroll), BoolsToReals(onsets), offsetProbabilities,
                                              velocityProbabilities, predictVelocities);
    }
  }

  /** Notes that sit on the 88 keys, last a positive time, carry a
      recordable velocity, come out ordered by end time, and never overlap
      another note of their pitch. */
  ghost predicate Playable(notes: seq<Note>, predictVelocities: bool)
  {
    && EmittedInOrder(notes)
    && forall i :: 0 <= i < |notes| ==>
         && 0 <= notes[i].pitch < Pitches
         && notes[i].startTime < notes[i].endTime
         && VelocityFits(predictVelocities, notes[i].velocity)
  }

  /** Every note starts on a frame boundary where `roll` switches its pitch
      on: on at the start frame, off at the frame before (if any). */
  ghost predicate StartOnRisingEdges(notes: seq<Note>, roll: seq<seq<bool>>)
    requires IsMatrix(roll, Frames, Pitches)
  {
    forall i :: 0 <= i < |notes| ==>
      var s, p := FrameOf(notes[i].startTime), notes[i].pitch;
      && 0 <= s < Frames && 0 <= p < Pitches
      && notes[i].startTime == FrameTime(s)
      && roll[s][p] && (s == 0 || !roll[s - 1][p])
  }

  /** Notes segmented from any probabilities are playable. */
  lemma SegmentedNotesPlayable(notes: seq<Note>, frames: seq<seq<real>>, onsets: seq<seq<real>>,
                               offsets: seq<seq<real>>, predictVelocities: bool)
    requires IsMatrix(frames, Frames, Pitches) && IsMatrix(onsets, Frames, Pitches)
    requires IsMatrix(offsets, Frames, Pitches)
    requires EmittedInOrder(notes) && NotesOnProbabilities(notes, frames, onsets, offsets, predictVelocities)
    ensures Playable(notes, predictVelocities)
  {
    forall i | 0 <= i < |notes|
      ensures 0 <= notes[i].pitch < Pitches && notes[i].startTime < notes[i].endTime
      ensures VelocityFits(predictVelocities, notes[i].velocity)
    {
      assert NoteOnProbabilities(notes[i], frames, onsets, offsets, predictVelocities);
    }
  }

  /** Whatever the decoding mode the notes are playable; an interpreter
      failure yields no notes. */
  lemma TranscribeWellFormed(output: Option<ModelOutput>, predictVelocities: bool, viterbiDecoding: bool,
                             alpha: real, negLog: real -> real)
    requires output.Some? ==> output.value.Valid()
    ensures output.None? ==> Transcribe(output, predictVelocities, viterbiDecoding, alpha, negLog) == []
    ensures Playable(Transcribe(output, predictVelocities, viterbiDecoding, alpha, negLog), predictVelocities)
  {
    if output.Some? {
      var o := output.value;
      if !viterbiDecoding {
        NoteSequencePlayable(Reshape(o.frames), Reshape(o.onsets), Reshape(o.offsets), Reshape(o.velocities),
                             predictVelocities);
      } else {
        var roll := DecodedRoll(o, alpha, negLog);
        NoteSequencePlayable(BoolsToReals(roll), BoolsToReals(RisingEdges(roll)), Reshape(o.offsets),
                             Reshape(o.velocities), predictVelocities);
      }
    }
  }

  lemma NoteSequencePlayable(frames: seq<seq<real>>, onsets: seq<seq<real>>, offsets: seq<seq<real>>,
                             velocities: seq<seq<real>>, predictVelocities: bool)
    requires IsMatrix(frames, Frames, Pitches) && IsMatrix(onsets, Frames, Pitches)
    requires IsMatrix(offsets, Frames, Pitches) && IsMatrix(velocities, Frames, Pitches)
    ensures Playable(NoteSequence(frames, onsets, offsets, velocities, predictVelocities), predictVelocities)
  {
    NoteSequenceWellFormed(frames, onsets, offsets, velocities, predictVelocities);
    SegmentedNotesPlayable(NoteSequence(frames, onsets, offsets, velocities, predictVelocities), frames, onsets,
                           offsets, predictVelocities);
  }

  /** With Viterbi decoding, every note starts exactly where the decoded roll
      switches its pitch on. */
  lemma ViterbiNotesStartOnRisingEdges(o: ModelOutput, predictVelocities: bool, alpha: real, negLog: real -> real)
    requires o.Valid()
    ensures StartOnRisingEdges(Transcribe(Some(o), predictVelocities, true, alpha, negLog), DecodedRoll(o, alpha, negLog))
  {
    SegmentedRollStartsOnEdges(DecodedRoll(o, alpha, negLog), Reshape(o.offsets), Reshape(o.velocities),
                               predictVelocities);
  }

  /** Segmenting a binary roll, with its rising edges as onsets, starts every
      note on a rising edge. */
  lemma SegmentedRollStartsOnEdges(roll: seq<seq<bool>>, offsets: seq<seq<real>>, velocities: seq<seq<real>>,
                                   predictVelocities: bool)
    requires IsMatrix(roll, Frames, Pitches) && IsMatrix(offsets, Frames, Pitches)
    requires IsMatrix(velocities, Frames, Pitches)
    ensures StartOnRisingEdges(NoteSequence(BoolsToReals(roll), BoolsToReals(RisingEdges(roll)), offsets, velocities,
                                            predictVelocities), roll)
  {
    var frames, onsets := BoolsToReals(roll), BoolsToReals(RisingEdges(roll));
    NoteSequenceWellFormed(frames, onsets, offsets, velocities, predictVelocities);
    EdgeNotesStartOnEdges(NoteSequence(frames, onsets, offsets, velocities, predictVelocities), roll, offsets,
                          predictVelocities);
  }

  /** Notes segmented with a binary roll as frames and its rising edges as
      onsets all start on a rising edge. */
  lemma EdgeNotesStartOnEdges(notes: seq<Note>, roll: seq<seq<bool>>, offsets: seq<seq<real>>, predictVelocities: bool)
    requires IsMatrix(roll, Frames, Pitches) && IsMatrix(offsets, Frames, Pitches)
    requires NotesOnProbabilities(notes, BoolsToReals(roll), BoolsToReals(RisingEdges(roll)), offsets, predictVelocities)
    ensures StartOnRisingEdges(notes, roll)
  {
    var frames, onsets := BoolsToReals(roll), BoolsToReals(RisingEdges(roll));
    forall i | 0 <= i < |notes|
      ensures var s, p := FrameOf(notes[i].startTime), notes[i].pitch;
        && 0 <= s < Frames && 0 <= p < Pitches && notes[i].startTime == FrameTime(s)
        && roll[s][p] && (s == 0 || !roll[s - 1][p])
    {
      assert NoteOnProbabilities(notes[i], frames, onsets, offsets, predictVelocities);
      EdgeOnsetIsRisingEdge(roll, FrameOf(notes[i].startTime), notes[i].pitch);
    }
  }

  /** A cell of the edge onsets that thresholds on is a rising edge. */
  lemma EdgeOnsetIsRisingEdge(roll: seq<seq<bool>>, t: int, p: int)
    requires IsMatrix(roll, Frames, Pitches) && 0 <= t < Frames && 0 <= p < Pitches
    requires BoolsToReals(RisingEdges(roll))[t][p] > 0.5
    ensures roll[t][p] && (t == 0 || !roll[t - 1][p])
  {
    var edges := RisingEdges(roll);
    assert edges[t][p];
  }

  /** With Viterbi decoding the active cells the segmenter scans are the
      decoded roll's on cells, except where the offset probability is
      positive. */
  lemma ViterbiActiveCells(o: ModelOutput, predictVelocities: bool, alpha: real, negLog: real -> real)
    requires o.Valid()
    ensures var roll := DecodedRoll(o, alpha, negLog);
      var inp := SegmenterInput(BoolsToReals(roll), BoolsToReals(RisingEdges(roll)), Reshape(o.offsets),
                                Reshape(o.velocities), predictVelocities);
      forall t, p :: 0 <= t < Frames && 0 <= p < Pitches ==>
        (inp.active[t][p] <==> roll[t][p] && !(Reshape(o.offsets)[t][p] > 0.0))
  {
  }
}
