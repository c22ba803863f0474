/** The piano-roll segmenter (`SoundClassifier.pianorollToNoteSequence`, after
    note-seq's `pianoroll_to_note_sequence`): thresholds the model's frame,
    onset and offset predictions, pads one silent frame, and scans the frames
    in order, opening, closing and re-triggering one note per pitch. */
module Segmenter {
  import opened Matrices
  import opened Notes

  /** Frames per analysis window and keys of the piano, as the reshapes to
      [32, 88] assume; the padded roll has one more, silent, frame. */
  const Frames := 32
  const PaddedFrames := 33
  const Pitches := 88
  /** Size of the per-pitch velocity table (every MIDI note). */
  const MidiNotes := 128
  /** The defaults of `framesPerSecond`, `velocityScale` and `velocityBias`. */
  const FramesPerSecond := 32
  const VelocityScale := 80
  const VelocityBias := 10
  /** Velocity recorded when velocities are not predicted. */
  const DefaultVelocity := 60

  // ---------------------------------------------------------------------------
  // Velocity.
  // ---------------------------------------------------------------------------

  function MinReal(a: real, b: real): real
  {
    if a <= b then a else b
  }

  function MaxReal(a: real, b: real): real
  {
    if a >= b then a else b
  }

  /** Swift's `Int(x)`: truncation toward zero. */
  function Truncate(x: real): int
  {
    if x >= 0.0 then x.Floor else -((-x).Floor)
  }

  /** The clamped velocity times the scale plus the bias, before `Int(...)`. */
  function Unscaled(velocity: real, scale: int, bias: int): real
  {
    MaxReal(MinReal(velocity, 1.0), 0.0) * scale as real + bias as real
  }

  /** `unscaleVelocity`: clamp to [0, 1], scale, add the bias, truncate. */
  function UnscaleVelocity(velocity: real, scale: int, bias: int): (v: int)
    ensures scale >= 0 ==> bias <= v <= bias + scale
    ensures velocity <= 0.0 ==> v == bias
    ensures velocity >= 1.0 ==> v == bias + scale
  {
    UnscaledBounds(velocity, scale, bias);
    var u := Unscaled(velocity, scale, bias);
    if scale >= 0 then
      TruncateMonotone(bias as real, u);
      TruncateMonotone(u, (bias + scale) as real);
      Truncate(u)
    else
      Truncate(u)
  }

  lemma UnscaledBounds(velocity: real, scale: int, bias: int)
    ensures scale >= 0 ==> bias as real <= Unscaled(velocity, scale, bias) <= (bias + scale) as real
    ensures velocity <= 0.0 ==> Unscaled(velocity, scale, bias) == bias as real
    ensures velocity >= 1.0 ==> Unscaled(velocity, scale, bias) == (bias + scale) as real
  {
    var clamped := MaxReal(MinReal(velocity, 1.0), 0.0);
    if scale >= 0 {
      MulMonotone(0.0, clamped, scale as real);
      MulMonotone(clamped, 1.0, scale as real);
    }
  }

  /** A louder prediction never records a softer note. */
  lemma UnscaleVelocityMonotone(v: real, w: real, scale: int, bias: int)
    requires v <= w && scale >= 0
    ensures UnscaleVelocity(v, scale, bias) <= UnscaleVelocity(w, scale, bias)
  {
    UnscaledMonotone(v, w, scale, bias);
    TruncateMonotone(Unscaled(v, scale, bias), Unscaled(w, scale, bias));
  }

  lemma UnscaledMonotone(v: real, w: real, scale: int, bias: int)
    requires v <= w && scale >= 0
    ensures Unscaled(v, scale, bias) <= Unscaled(w, scale, bias)
  {
    MulMonotone(MaxReal(MinReal(v, 1.0), 0.0), MaxReal(MinReal(w, 1.0), 0.0), scale as real);
  }

  lemma MulMonotone(a: real, b: real, c: real)
    requires a <= b && c >= 0.0
    ensures a * c <= b * c
  {
    MulNonNegative(b - a, c);
    assert b * c - a * c == (b - a) * c;
  }

  lemma MulNonNegative(a: real, b: real)
    requires a >= 0.0 && b >= 0.0
    ensures a * b >= 0.0
  {
  }

  lemma TruncateMonotone(x: real, y: real)
    requires x <= y
    ensures Truncate(x) <= Truncate(y)
  {
  }

  /** The velocities the scan may record. */
  predicate VelocityFits(predictVelocities: bool, v: int)
  {
    if predictVelocities then VelocityBias <= v <= VelocityBias + VelocityScale else v == DefaultVelocity
  }

  // ---------------------------------------------------------------------------
  // Thresholding and the confirmed-activity matrix.
  // ---------------------------------------------------------------------------

  /** `predicted[m > level] = 1`, then one all-zero frame appended. */
  function PredictAndPad(m: seq<seq<real>>, level: real): (b: seq<seq<bool>>)
    requires IsMatrix(m, Frames, Pitches)
    ensures IsMatrix(b, PaddedFrames, Pitches)
    ensures forall t, p :: 0 <= t < Frames && 0 <= p < Pitches ==> b[t][p] == (m[t][p] > level)
    ensures forall p :: 0 <= p < Pitches ==> !b[Frames][p]
  {
    seq(Frames, t requires 0 <= t < Frames => seq(Pitches, p requires 0 <= p < Pitches => m[t][p] > level))
      + [seq(Pitches, p => false)]
  }

  function Indicator(b: bool): int
  {
    if b then 1 else 0
  }

  /** `framesConfirmedByOnsets`, computed as the source does on 0/1 sums:
      1 where frame + onset > 0, then 0 where frame + offset > 1. */
  function ConfirmedByOnsets(frames: seq<seq<bool>>, onsets: seq<seq<bool>>, offsets: seq<seq<bool>>): (c: seq<seq<bool>>)
    requires IsMatrix(frames, PaddedFrames, Pitches)
    requires IsMatrix(onsets, PaddedFrames, Pitches)
    requires IsMatrix(offsets, PaddedFrames, Pitches)
    ensures IsMatrix(c, PaddedFrames, Pitches)
    ensures forall t, p :: 0 <= t < PaddedFrames && 0 <= p < Pitches ==>
      (c[t][p] <==> (frames[t][p] || onsets[t][p]) && !(frames[t][p] && offsets[t][p]))
  {
    seq(PaddedFrames, t requires 0 <= t < PaddedFrames => seq(Pitches, p requires 0 <= p < Pitches =>
      if Indicator(frames[t][p]) + Indicator(offsets[t][p]) > 1 then false
      else Indicator(frames[t][p]) + Indicator(onsets[t][p]) > 0))
  }

  // ---------------------------------------------------------------------------
  // The scan, as functions on an explicit state.
  // ---------------------------------------------------------------------------

  /** What the scan reads: the confirmed-activity matrix and the thresholded
      onsets (both padded to 33 frames), the raw velocities (32 frames) and
      the velocity switch. */
  datatype ScanInput = ScanInput(
    active: seq<seq<bool>>,
    onsets: seq<seq<bool>>,
    velocities: seq<seq<real>>,
    predictVelocities: bool)
  {
    predicate Valid()
    {
      && IsMatrix(active, PaddedFrames, Pitches)
      && IsMatrix(onsets, PaddedFrames, Pitches)
      && IsMatrix(velocities, Frames, Pitches)
      && forall p :: 0 <= p < Pitches ==> !active[Frames][p]
    }
  }

  /** The scan's mutable state: `pitchStartStep` (open pitch to the frame it
      began at), `onsetVelocities` (velocity recorded per pitch) and the notes
      emitted so far. */
  datatype ScanState = ScanState(pitchStartStep: map<int, int>, onsetVelocities: seq<int>, sequence: seq<Note>)

  function InitialState(): ScanState
  {
    ScanState(map[], seq(MidiNotes, k => 0), [])
  }

  /** What every step relies on: the velocity table has 128 entries and every
      open pitch is a key of the piano whose recorded velocity fits. */
  predicate Tracked(inp: ScanInput, st: ScanState)
  {
    && |st.onsetVelocities| == MidiNotes
    && forall k :: k in st.pitchStartStep ==>
         0 <= k < Pitches && VelocityFits(inp.predictVelocities, st.onsetVelocities[k])
  }

  /** Start time of frame `frame`: `Double(frame) * (1.0 / 32)`, exact in
      binary floating point for the frames used here. */
  function FrameTime(frame: int): real
  {
    frame as real * (1.0 / FramesPerSecond as real)
  }

  /** The frame a start time came from. */
  function FrameOf(time: real): int
  {
    (time * FramesPerSecond as real).Floor
  }

  /** Velocity recorded when a note opens at (frameIndex, pitch). */
  function RecordedVelocity(inp: ScanInput, frameIndex: int, pitch: int): (v: int)
    requires inp.Valid() && 0 <= frameIndex < Frames && 0 <= pitch < Pitches
    ensures VelocityFits(inp.predictVelocities, v)
  {
    if inp.predictVelocities then UnscaleVelocity(inp.velocities[frameIndex][pitch], VelocityScale, VelocityBias)
    else DefaultVelocity
  }

  /** `endPitch`: if the pitch is open, emit its note ending at `endFrameIndex`
      and close it; otherwise nothing. */
  function EndPitchStep(inp: ScanInput, st: ScanState, pitch: int, endFrameIndex: int): (r: ScanState)
    requires Tracked(inp, st) && 0 <= pitch < Pitches
    ensures Tracked(inp, r)
  {
    if pitch !in st.pitchStartStep then st
    else
      var note := MakeNote(pitch, FrameTime(st.pitchStartStep[pitch]), FrameTime(endFrameIndex), st.onsetVelocities[pitch]);
      ScanState(st.pitchStartStep - {pitch}, st.onsetVelocities, st.sequence + [note])
  }

  /** Opening a note: record its start frame and its velocity. */
  function StartPitchStep(inp: ScanInput, st: ScanState, pitch: int, frameIndex: int): (r: ScanState)
    requires inp.Valid() && Tracked(inp, st) && 0 <= pitch < Pitches && 0 <= frameIndex < Frames
    ensures Tracked(inp, r)
  {
    st.(pitchStartStep := st.pitchStartStep[pitch := frameIndex],
        onsetVelocities := st.onsetVelocities[pitch := RecordedVelocity(inp, frameIndex, pitch)])
  }

  /** `processActivePitch`: a closed pitch opens when its onset bit is set; an
      open pitch is closed and reopened at a fresh onset edge (onset now, none
      in the frame before); otherwise nothing changes. At frame 0 no pitch is
      open, so the edge test never needs a frame -1. */
  function ProcessActivePitchStep(inp: ScanInput, st: ScanState, pitch: int, frameIndex: int): (r: ScanState)
    requires inp.Valid() && Tracked(inp, st) && 0 <= pitch < Pitches && 0 <= frameIndex < Frames
    ensures Tracked(inp, r)
  {
    if pitch !in st.pitchStartStep then
      if inp.onsets[frameIndex][pitch] then StartPitchStep(inp, st, pitch, frameIndex) else st
    else if inp.onsets[frameIndex][pitch] && (frameIndex == 0 || !inp.onsets[frameIndex - 1][pitch]) then
      StartPitchStep(inp, EndPitchStep(inp, st, pitch, frameIndex), pitch, frameIndex)
    else
      st
  }

  /** One cell of the scan: active cells go to `processActivePitch`, inactive
      ones to `endPitch`. */
  function StepCell(inp: ScanInput, st: ScanState, t: nat, p: nat): (r: ScanState)
    requires inp.Valid() && Tracked(inp, st) && t < PaddedFrames && p < Pitches
    ensures Tracked(inp, r)
  {
    if inp.active[t][p] then ProcessActivePitchStep(inp, st, p, t) else EndPitchStep(inp, st, p, t)
  }

  /** The state after the pitches 0..p-1 of frame `t`, starting from `st`. */
  function ScanCells(inp: ScanInput, t: nat, p: nat, st: ScanState): (r: ScanState)
    requires inp.Valid() && Tracked(inp, st) && t < PaddedFrames && p <= Pitches
    ensures Tracked(inp, r)
    decreases p
  {
    if p == 0 then st else StepCell(inp, ScanCells(inp, t, p - 1, st), t, p - 1)
  }

  /** The state after frames 0..t-1. */
  function ScanRows(inp: ScanInput, t: nat): (r: ScanState)
    requires inp.Valid() && t <= PaddedFrames
    ensures Tracked(inp, r)
    decreases t
  {
    if t == 0 then InitialState() else ScanCells(inp, t - 1, Pitches, ScanRows(inp, t - 1))
  }

  /** What the scan reads, derived from the model's four 32-by-88 outputs. */
  function SegmenterInput(frames: seq<seq<real>>, onsets: seq<seq<real>>, offsets: seq<seq<real>>,
                          velocities: seq<seq<real>>, predictVelocities: bool): (inp: ScanInput)
    requires IsMatrix(frames, Frames, Pitches) && IsMatrix(onsets, Frames, Pitches)
    requires IsMatrix(offsets, Frames, Pitches) && IsMatrix(velocities, Frames, Pitches)
    ensures inp.Valid()
  {
    var framesPadded := PredictAndPad(frames, 0.5);
    var onsetsPadded := PredictAndPad(onsets, 0.5);
    var offsetsPadded := PredictAndPad(offsets, 0.0);
    ScanInput(ConfirmedByOnsets(framesPadded, onsetsPadded, offsetsPadded), onsetsPadded, velocities, predictVelocities)
  }

  /** The note sequence `pianorollToNoteSequence` returns. */
  function NoteSequence(frames: seq<seq<real>>, onsets: seq<seq<real>>, offsets: seq<seq<real>>,
                        velocities: seq<seq<real>>, predictVelocities: bool): (notes: seq<Note>)
    requires IsMatrix(frames, Frames, Pitches) && IsMatrix(onsets, Frames, Pitches)
    requires IsMatrix(offsets, Frames, Pitches) && IsMatrix(velocities, Frames, Pitches)
    ensures EmittedInOrder(notes)
  {
    var inp := SegmenterInput(frames, onsets, offsets, velocities, predictVelocities);
    ScanEndsClosed(inp);
    ScanRows(inp, PaddedFrames).sequence
  }

  // ---------------------------------------------------------------------------
  // What the scan guarantees.
  // ---------------------------------------------------------------------------

  /** An emitted note: a key of the piano, a positive duration, a velocity the
      scan may record, and a start on a frame whose cell is active and carries
      an onset. */
  ghost predicate NoteFromScan(inp: ScanInput, n: Note)
    requires inp.Valid()
  {
    && 0 <= n.pitch < Pitches
    && n.startTime < n.endTime
    && VelocityFits(inp.predictVelocities, n.velocity)
    && 0 <= FrameOf(n.startTime) < Frames
    && FrameTime(FrameOf(n.startTime)) == n.startTime
    && inp.active[FrameOf(n.startTime)][n.pitch]
    && inp.onsets[FrameOf(n.startTime)][n.pitch]
  }

  /** Notes are emitted in order of their end times, and two notes of one
      pitch never overlap. */
  ghost predicate EmittedInOrder(notes: seq<Note>)
  {
    && (forall i, j :: 0 <= i < j < |notes| ==> notes[i].endTime <= notes[j].endTime)
    && (forall i, j :: 0 <= i < j < |notes| && notes[i].pitch == notes[j].pitch ==>
          notes[i].endTime <= notes[j].startTime)
  }

  /** The state of the scan just before cell (t, p): open pitches started at an
      earlier frame (or at this one, for pitches already visited), are still
      active where visited, and started on an active onset cell; every emitted
      note is well formed, ends no later than frame t, and ends before any open
      note of its pitch began. */
  ghost predicate ScanInvariant(inp: ScanInput, st: ScanState, t: nat, p: nat)
    requires inp.Valid() && t < PaddedFrames
  {
    && Tracked(inp, st)
    && (forall k :: k in st.pitchStartStep ==>
          && 0 <= st.pitchStartStep[k] < Frames
          && st.pitchStartStep[k] <= t
          && (k >= p ==> st.pitchStartStep[k] < t)
          && (k < p ==> inp.active[t][k])
          && inp.active[st.pitchStartStep[k]][k]
          && inp.onsets[st.pitchStartStep[k]][k])
    && (forall i :: 0 <= i < |st.sequence| ==>
          NoteFromScan(inp, st.sequence[i]) && st.sequence[i].endTime <= FrameTime(t))
    && EmittedInOrder(st.sequence)
    && (forall i, k :: 0 <= i < |st.sequence| && k in st.pitchStartStep && st.sequence[i].pitch == k ==>
          st.sequence[i].endTime <= FrameTime(st.pitchStartStep[k]))
  }

  lemma FrameTimeMonotone(a: int, b: int)
    requires a <= b
    ensures FrameTime(a) <= FrameTime(b)
  {
  }

  lemma FrameOfFrameTime(f: int)
    ensures FrameOf(FrameTime(f)) == f
  {
    assert FrameTime(f) * FramesPerSecond as real == f as real;
  }

  /** Closing pitch p at frame t keeps the invariant and leaves p closed. */
  lemma EndPitchKeepsInvariant(inp: ScanInput, st: ScanState, t: nat, p: nat)
    requires inp.Valid() && t < PaddedFrames && p < Pitches
    requires ScanInvariant(inp, st, t, p)
    ensures ScanInvariant(inp, EndPitchStep(inp, st, p, t), t, p)
    ensures p !in EndPitchStep(inp, st, p, t).pitchStartStep
  {
    if p in st.pitchStartStep {
      var s := st.pitchStartStep[p];
      var r := EndPitchStep(inp, st, p, t);
      var note := r.sequence[|st.sequence|];
      FrameOfFrameTime(s);
      FrameTimeMonotone(s + 1, t);
      assert NoteFromScan(inp, note);
      forall i | 0 <= i < |st.sequence|
        ensures st.sequence[i].endTime <= note.endTime
        ensures st.sequence[i].pitch == p ==> st.sequence[i].endTime <= note.startTime
      {
      }
      assert EmittedInOrder(r.sequence);
    }
  }

  /** Opening pitch p at frame t, on an active onset cell, keeps the invariant
      for the next cell. */
  lemma StartPitchKeepsInvariant(inp: ScanInput, st: ScanState, t: nat, p: nat)
    requires inp.Valid() && t < Frames && p < Pitches
    requires ScanInvariant(inp, st, t, p) && p !in st.pitchStartStep
    requires inp.active[t][p] && inp.onsets[t][p]
    ensures ScanInvariant(inp, StartPitchStep(inp, st, p, t), t, p + 1)
  {
    var r := StartPitchStep(inp, st, p, t);
    forall i, k | 0 <= i < |r.sequence| && k in r.pitchStartStep && r.sequence[i].pitch == k
      ensures r.sequence[i].endTime <= FrameTime(r.pitchStartStep[k])
    {
      if k == p {
        assert r.sequence[i].endTime <= FrameTime(t);
      }
    }
  }

  /** One cell of the scan keeps the invariant. */
  lemma StepCellKeepsInvariant(inp: ScanInput, st: ScanState, t: nat, p: nat)
    requires inp.Valid() && t < PaddedFrames && p < Pitches
    requires ScanInvariant(inp, st, t, p)
    ensures ScanInvariant(inp, StepCell(inp, st, t, p), t, p + 1)
  {
    if !inp.active[t][p] {
      EndPitchKeepsInvariant(inp, st, t, p);
    } else if p !in st.pitchStartStep {
      if inp.onsets[t][p] {
        StartPitchKeepsInvariant(inp, st, t, p);
      }
    } else if inp.onsets[t][p] && (t == 0 || !inp.onsets[t - 1][p]) {
      EndPitchKeepsInvariant(inp, st, t, p);
      StartPitchKeepsInvariant(inp, EndPitchStep(inp, st, p, t), t, p);
    }
  }

  lemma {:induction false} ScanCellsKeepsInvariant(inp: ScanInput, st: ScanState, t: nat, p: nat)
    requires inp.Valid() && t < PaddedFrames && p <= Pitches
    requires ScanInvariant(inp, st, t, 0)
    ensures ScanInvariant(inp, ScanCells(inp, t, p, st), t, p)
    decreases p
  {
    if p > 0 {
      ScanCellsKeepsInvariant(inp, st, t, p - 1);
      ScanCellsStep(inp, st, t, p - 1);
    }
  }

  /** One more cell of the row keeps the invariant. */
  lemma ScanCellsStep(inp: ScanInput, st: ScanState, t: nat, p: nat)
    requires inp.Valid() && t < PaddedFrames && p < Pitches && Tracked(inp, st)
    requires ScanInvariant(inp, ScanCells(inp, t, p, st), t, p)
    ensures ScanInvariant(inp, ScanCells(inp, t, p + 1, st), t, p + 1)
  {
    var prev := ScanCells(inp, t, p, st);
    StepCellKeepsInvariant(inp, prev, t, p);
    assert ScanCells(inp, t, p + 1, st) == StepCell(inp, prev, t, p);
  }

  /** Before every frame t the state satisfies the invariant. */
  lemma {:induction false} ScanRowsKeepsInvariant(inp: ScanInput, t: nat)
    requires inp.Valid() && t < PaddedFrames
    ensures ScanInvariant(inp, ScanRows(inp, t), t, 0)
    decreases t
  {
    if t > 0 {
      ScanRowsKeepsInvariant(inp, t - 1);
      ScanRowsStep(inp, t - 1);
    }
  }

  /** One more frame of the scan keeps the invariant. */
  lemma ScanRowsStep(inp: ScanInput, t: nat)
    requires inp.Valid() && t + 1 < PaddedFrames
    requires ScanInvariant(inp, ScanRows(inp, t), t, 0)
    ensures ScanInvariant(inp, ScanRows(inp, t + 1), t + 1, 0)
  {
    var prev := ScanRows(inp, t);
    var st := ScanCells(inp, t, Pitches, prev);
    ScanCellsKeepsInvariant(inp, prev, t, Pitches);
    NextFrameKeepsInvariant(inp, st, t);
    assert ScanRows(inp, t + 1) == st;
  }

  /** The invariant after the last pitch of frame t is the invariant before
      the first pitch of frame t + 1. */
  lemma NextFrameKeepsInvariant(inp: ScanInput, st: ScanState, t: nat)
    requires inp.Valid() && t + 1 < PaddedFrames
    requires ScanInvariant(inp, st, t, Pitches)
    ensures ScanInvariant(inp, st, t + 1, 0)
  {
    FrameTimeMonotone(t, t + 1);
  }

  /** After the padded silent frame every note is closed, and the emitted
      notes are well formed and in order. */
  lemma {:induction false} ScanEndsClosed(inp: ScanInput)
    requires inp.Valid()
    ensures ScanRows(inp, PaddedFrames).pitchStartStep == map[]
    ensures forall i :: 0 <= i < |ScanRows(inp, PaddedFrames).sequence| ==>
      NoteFromScan(inp, ScanRows(inp, PaddedFrames).sequence[i])
    ensures EmittedInOrder(ScanRows(inp, PaddedFrames).sequence)
  {
    ScanRowsKeepsInvariant(inp, Frames);
    ScanCellsKeepsInvariant(inp, ScanRows(inp, Frames), Frames, Pitches);
    var st := ScanRows(inp, PaddedFrames);
    forall k
      ensures k !in st.pitchStartStep
    {
      if k in st.pitchStartStep {
        assert false;
      }
    }
  }

  /** A note as `pianorollToNoteSequence` emits it, in terms of the model's
      own probabilities: it sits on one of the 88 keys, lasts a positive
      time, has a recordable velocity, and starts on a frame boundary where
      the onset probability exceeds 0.5 and the frame was not cut by an
      offset. */
  ghost predicate NoteOnProbabilities(n: Note, frames: seq<seq<real>>, onsets: seq<seq<real>>,
                                      offsets: seq<seq<real>>, predictVelocities: bool)
    requires IsMatrix(frames, Frames, Pitches) && IsMatrix(onsets, Frames, Pitches)
    requires IsMatrix(offsets, Frames, Pitches)
  {
    && 0 <= n.pitch < Pitches
    && n.startTime < n.endTime
    && VelocityFits(predictVelocities, n.velocity)
    && 0 <= FrameOf(n.startTime) < Frames
    && FrameTime(FrameOf(n.startTime)) == n.startTime
    && onsets[FrameOf(n.startTime)][n.pitch] > 0.5
    && !(frames[FrameOf(n.startTime)][n.pitch] > 0.5 && offsets[FrameOf(n.startTime)][n.pitch] > 0.0)
  }

  ghost predicate NotesOnProbabilities(notes: seq<Note>, frames: seq<seq<real>>, onsets: seq<seq<real>>,
                                       offsets: seq<seq<real>>, predictVelocities: bool)
    requires IsMatrix(frames, Frames, Pitches) && IsMatrix(onsets, Frames, Pitches)
    requires IsMatrix(offsets, Frames, Pitches)
  {
    forall i :: 0 <= i < |notes| ==> NoteOnProbabilities(notes[i], frames, onsets, offsets, predictVelocities)
  }

  /** Every note of `NoteSequence` is as above; the notes come out ordered by
      end time, and notes of one pitch never overlap. */
  lemma NoteSequenceWellFormed(frames: seq<seq<real>>, onsets: seq<seq<real>>, offsets: seq<seq<real>>,
                               velocities: seq<seq<real>>, predictVelocities: bool)
    requires IsMatrix(frames, Frames, Pitches) && IsMatrix(onsets, Frames, Pitches)
    requires IsMatrix(offsets, Frames, Pitches) && IsMatrix(velocities, Frames, Pitches)
    ensures EmittedInOrder(NoteSequence(frames, onsets, offsets, velocities, predictVelocities))
    ensures NotesOnProbabilities(NoteSequence(frames, onsets, offsets, velocities, predictVelocities),
                                 frames, onsets, offsets, predictVelocities)
  {
    var inp := SegmenterInput(frames, onsets, offsets, velocities, predictVelocities);
    ScanEndsClosed(inp);
  }

  /** With no onset probability above 0.5 anywhere, no note is produced (in
      particular for an all-zero model output). */
  lemma NoOnsetsNoNotes(frames: seq<seq<real>>, onsets: seq<seq<real>>, offsets: seq<seq<real>>,
                        velocities: seq<seq<real>>, predictVelocities: bool)
    requires IsMatrix(frames, Frames, Pitches) && IsMatrix(onsets, Frames, Pitches)
    requires IsMatrix(offsets, Frames, Pitches) && IsMatrix(velocities, Frames, Pitches)
    requires forall t, p :: 0 <= t < Frames && 0 <= p < Pitches ==> onsets[t][p] <= 0.5
    ensures NoteSequence(frames, onsets, offsets, velocities, predictVelocities) == []
  {
    var inp := SegmenterInput(frames, onsets, offsets, velocities, predictVelocities);
    ScanRowsSilent(inp, PaddedFrames);
  }

  /** Without onset bits the scan never leaves its initial state. */
  lemma {:induction false} ScanRowsSilent(inp: ScanInput, t: nat)
    requires inp.Valid() && t <= PaddedFrames
    requires forall f, p :: 0 <= f < PaddedFrames && 0 <= p < Pitches ==> !inp.onsets[f][p]
    ensures ScanRows(inp, t).pitchStartStep == map[] && ScanRows(inp, t).sequence == []
    decreases t
  {
    if t > 0 {
      ScanRowsSilent(inp, t - 1);
      ScanCellsSilent(inp, t - 1, Pitches, ScanRows(inp, t - 1));
    }
  }

  lemma {:induction false} ScanCellsSilent(inp: ScanInput, t: nat, p: nat, st: ScanState)
    requires inp.Valid() && t < PaddedFrames && p <= Pitches && Tracked(inp, st)
    requires forall f, q :: 0 <= f < PaddedFrames && 0 <= q < Pitches ==> !inp.onsets[f][q]
    requires st.pitchStartStep == map[] && st.sequence == []
    ensures ScanCells(inp, t, p, st).pitchStartStep == map[] && ScanCells(inp, t, p, st).sequence == []
    decreases p
  {
    if p > 0 {
      ScanCellsSilent(inp, t, p - 1, st);
    }
  }

  /** Re-triggering: an open pitch meeting a fresh onset edge at frame t emits
      exactly one note, ending at t, and reopens at t with a new velocity. */
  lemma RetriggerSplitsNote(inp: ScanInput, st: ScanState, t: nat, p: nat)
    requires inp.Valid() && t < PaddedFrames && p < Pitches
    requires ScanInvariant(inp, st, t, p)
    requires p in st.pitchStartStep && inp.active[t][p] && inp.onsets[t][p]
    requires t > 0 ==> !inp.onsets[t - 1][p]
    ensures t > 0
    ensures var r := StepCell(inp, st, t, p);
      && r.sequence == st.sequence + [MakeNote(p, FrameTime(st.pitchStartStep[p]), FrameTime(t), st.onsetVelocities[p])]
      && r.pitchStartStep == st.pitchStartStep[p := t]
      && r.onsetVelocities[p] == RecordedVelocity(inp, t, p)
  {
  }

  /** A held note without a new onset edge stays open and emits nothing. */
  lemma HeldNoteContinues(inp: ScanInput, st: ScanState, t: nat, p: nat)
    requires inp.Valid() && t < PaddedFrames && p < Pitches && Tracked(inp, st)
    requires p in st.pitchStartStep && inp.active[t][p]
    requires !inp.onsets[t][p] || (t > 0 && inp.onsets[t - 1][p])
    ensures StepCell(inp, st, t, p) == st
  {
  }

  /** An inactive cell closes its pitch: the open note is emitted ending here. */
  lemma InactiveCellCloses(inp: ScanInput, st: ScanState, t: nat, p: nat)
    requires inp.Valid() && t < PaddedFrames && p < Pitches && Tracked(inp, st)
    requires !inp.active[t][p]
    ensures var r := StepCell(inp, st, t, p);
      && p !in r.pitchStartStep
      && (p in st.pitchStartStep ==> r.sequence == st.sequence + [MakeNote(p, FrameTime(st.pitchStartStep[p]), FrameTime(t), st.onsetVelocities[p])])
      && (p !in st.pitchStartStep ==> r == st)
  {
  }

  // ---------------------------------------------------------------------------
  // The imperative scan: the state captured by the nested `endPitch` and
  // `processActivePitch` closures, as an object.
  // ---------------------------------------------------------------------------

  class PitchTrackState {
    const input: ScanInput
    var pitchStartStep: map<int, int>
    const onsetVelocities: array<int>
    var sequence: seq<Note>

    ghost function State(): ScanState
      reads this, onsetVelocities
    {
      ScanState(pitchStartStep, onsetVelocities[..], sequence)
    }

    ghost predicate Valid()
      reads this, onsetVelocities
    {
      input.Valid() && Tracked(input, State())
    }

    constructor (input: ScanInput)
      requires input.Valid()
      ensures Valid() && this.input == input && State() == InitialState()
      ensures fresh(onsetVelocities)
    {
      this.input := input;
      pitchStartStep := map[];
      onsetVelocities := new int[MidiNotes](k => 0);
      sequence := [];
    }

    method EndPitch(pitch: int, endFrameIndex: int)
      requires Valid() && 0 <= pitch < Pitches
      modifies this
      ensures Valid()
      ensures State() == EndPitchStep(input, old(State()), pitch, endFrameIndex)
    {
      if pitch !in pitchStartStep {
        return;
      }
      var pitchStart := pitchStartStep[pitch];
      var note := MakeNote(pitch, FrameTime(pitchStart), FrameTime(endFrameIndex), onsetVelocities[pitch]);
      sequence := sequence + [note];
      pitchStartStep := pitchStartStep - {pitch};
    }

    method ProcessActivePitch(pitch: int, frameIndex: int)
      requires Valid() && 0 <= pitch < Pitches && 0 <= frameIndex < Frames
      modifies this, onsetVelocities
      ensures Valid()
      ensures State() == ProcessActivePitchStep(input, old(State()), pitch, frameIndex)
    {
      if pitch !in pitchStartStep {
        if input.onsets[frameIndex][pitch] {
          pitchStartStep := pitchStartStep[pitch := frameIndex];
          onsetVelocities[pitch] := RecordedVelocity(input, frameIndex, pitch);
        }
      } else if input.onsets[frameIndex][pitch] && (frameIndex == 0 || !input.onsets[frameIndex - 1][pitch]) {
        EndPitch(pitch, frameIndex);
        pitchStartStep := pitchStartStep[pitch := frameIndex];
        onsetVelocities[pitch] := RecordedVelocity(input, frameIndex, pitch);
      }
    }

    /** The inner loop over one frame: active cells go to
        `ProcessActivePitch`, the others to `EndPitch`. */
    method ScanFrame(i: nat)
      requires Valid() && i < PaddedFrames
      modifies this, onsetVelocities
      ensures Valid()
      ensures State() == ScanCells(input, i, Pitches, old(State()))
    {
      for pitch := 0 to Pitches
        invariant Valid() && State() == ScanCells(input, i, pitch, old(State()))
      {
        if input.active[i][pitch] {
          ProcessActivePitch(pitch, i);
        } else {
          EndPitch(pitch, i);
        }
      }
    }
  }

  /** Thresholds, pads, builds the confirmed matrix and scans all 33 frames,
      pitch by pitch within each frame. */
  method PianorollToNoteSequence(frames: seq<seq<real>>, onsets: seq<seq<real>>, offsets: seq<seq<real>>,
                                 velocities: seq<seq<real>>, predictVelocities: bool)
    returns (sequence: seq<Note>)
    requires IsMatrix(frames, Frames, Pitches) && IsMatrix(onsets, Frames, Pitches)
    requires IsMatrix(offsets, Frames, Pitches) && IsMatrix(velocities, Frames, Pitches)
    ensures sequence == NoteSequence(frames, onsets, offsets, velocities, predictVelocities)
  {
    var framePredictionsPadded := PredictAndPad(frames, 0.5);
    var onsetPredictionsPadded := PredictAndPad(onsets, 0.5);
    var offsetPredictionsPadded := PredictAndPad(offsets, 0.0);
    var framesConfirmedByOnsets := ConfirmedByOnsets(framePredictionsPadded, onsetPredictionsPadded, offsetPredictionsPadded);
    var inp := ScanInput(framesConfirmedByOnsets, onsetPredictionsPadded, velocities, predictVelocities);
    assert inp == SegmenterInput(frames, onsets, offsets, velocities, predictVelocities);

    var tracker := new PitchTrackState(inp);
    for i := 0 to PaddedFrames
      invariant tracker.Valid() && tracker.input == inp && tracker.State() == ScanRows(inp, i)
    {
      tracker.ScanFrame(i);
    }
    sequence := tracker.sequence;
  }
}
