/** Viterbi decoding of onset and frame evidence into a binary piano-roll
    (`SoundClassifier.probsToPianorollViterbi`, after Magenta's `infer_util`).

    Every pitch column is an independent two-state chain over the frames,
    state 0 = off and state 1 = on. The decoder receives the per-cell losses
    already weighted: a frame loss `(1 - alpha) * -ln P_frame` and an onset loss
    `alpha * -ln P_onset` for each state, where P(on) is the model's probability
    and P(off) its complement. */
module Viterbi {
  import opened Matrices

  /** A decoder state index: 0 = off, 1 = on. */
  type State = s: int | 0 <= s <= 1

  /** The losses of the two states at one (frame, pitch) cell. */
  datatype LossPair = LossPair(off: real, on: real)

  function Of(l: LossPair, s: State): real
  {
    if s == 0 then l.off else l.on
  }

  function Min(a: real, b: real): real
  {
    if a <= b then a else b
  }

  /** Index of the smaller of two losses; a tie goes to state 0. */
  function Argmin(loss0: real, loss1: real): (s: State)
    ensures s == 0 <==> loss0 <= loss1
  {
    if loss0 <= loss1 then 0 else 1
  }

  /** Both loss matrices have the same n-by-d shape, with n >= 1. */
  predicate Shaped(frameLosses: seq<seq<LossPair>>, onsetLosses: seq<seq<LossPair>>)
  {
    && |onsetLosses| >= 1
    && IsMatrix(onsetLosses, |onsetLosses|, |onsetLosses[0]|)
    && IsMatrix(frameLosses, |onsetLosses|, |onsetLosses[0]|)
  }

  /** The onset loss paid on entering state `s` at frame `t` from `prev`:
      only the 0 -> 1 transition pays the "on" onset loss; 0 -> 0, 1 -> 0 and
      1 -> 1 all pay the "off" onset loss. */
  function Transition(onsetLosses: seq<seq<LossPair>>, t: nat, p: nat, prev: State, s: State): (cost: real)
    requires t < |onsetLosses| && p < |onsetLosses[t]|
    ensures prev == 0 && s == 1 ==> cost == onsetLosses[t][p].on
    ensures s == 0 ==> cost == onsetLosses[t][p].off
    ensures prev == 1 ==> cost == onsetLosses[t][p].off
  {
    if prev == 0 && s == 1 then onsetLosses[t][p].on else onsetLosses[t][p].off
  }

  /** The dynamic-programming table `lossMatrix[t, p, s]`: the least loss of
      a state sequence for column `p` over frames 0..t that ends in `s`. */
  function Loss(frameLosses: seq<seq<LossPair>>, onsetLosses: seq<seq<LossPair>>, t: nat, p: nat, s: State): real
    requires Shaped(frameLosses, onsetLosses) && t < |onsetLosses| && p < |onsetLosses[0]|
    decreases t
  {
    if t == 0 then
      Of(frameLosses[0][p], s) + Of(onsetLosses[0][p], s)
    else
      Min(Loss(frameLosses, onsetLosses, t - 1, p, 0) + Transition(onsetLosses, t, p, 0, s),
          Loss(frameLosses, onsetLosses, t - 1, p, 1) + Transition(onsetLosses, t, p, 1, s))
      + Of(frameLosses[t][p], s)
  }

  /** `pathMatrix[t, p, s]`: the predecessor state that attains `Loss(t, p, s)`. */
  function BestPrev(frameLosses: seq<seq<LossPair>>, onsetLosses: seq<seq<LossPair>>, t: nat, p: nat, s: State): State
    requires Shaped(frameLosses, onsetLosses) && 1 <= t < |onsetLosses| && p < |onsetLosses[0]|
  {
    Argmin(Loss(frameLosses, onsetLosses, t - 1, p, 0) + Transition(onsetLosses, t, p, 0, s),
           Loss(frameLosses, onsetLosses, t - 1, p, 1) + Transition(onsetLosses, t, p, 1, s))
  }

  /** The decoded state of column `p` at frame `t`: the argmin of the last row,
      then back along `BestPrev`. */
  function DecodedState(frameLosses: seq<seq<LossPair>>, onsetLosses: seq<seq<LossPair>>, t: nat, p: nat): State
    requires Shaped(frameLosses, onsetLosses) && t < |onsetLosses| && p < |onsetLosses[0]|
    decreases |onsetLosses| - t
  {
    var last := |onsetLosses| - 1;
    if t == last then
      Argmin(Loss(frameLosses, onsetLosses, last, p, 0), Loss(frameLosses, onsetLosses, last, p, 1))
    else
      BestPrev(frameLosses, onsetLosses, t + 1, p, DecodedState(frameLosses, onsetLosses, t + 1, p))
  }

  /** The decoded state sequence of one pitch column. */
  function DecodedColumn(frameLosses: seq<seq<LossPair>>, onsetLosses: seq<seq<LossPair>>, p: nat): (q: seq<State>)
    requires Shaped(frameLosses, onsetLosses) && p < |onsetLosses[0]|
    ensures |q| == |onsetLosses|
  {
    seq(|onsetLosses|, t requires 0 <= t < |onsetLosses| => DecodedState(frameLosses, onsetLosses, t, p))
  }

  /** The piano-roll the decoder returns: cell (t, p) is on when the decoded
      state of column p at frame t is 1. */
  function Pianoroll(frameLosses: seq<seq<LossPair>>, onsetLosses: seq<seq<LossPair>>): (roll: seq<seq<bool>>)
    requires Shaped(frameLosses, onsetLosses)
    ensures IsMatrix(roll, |onsetLosses|, |onsetLosses[0]|)
  {
    seq(|onsetLosses|, t requires 0 <= t < |onsetLosses| =>
      seq(|onsetLosses[0]|, p requires 0 <= p < |onsetLosses[0]| =>
        DecodedState(frameLosses, onsetLosses, t, p) == 1))
  }

  // ---------------------------------------------------------------------------
  // Optimality: the decoded column has the least total loss of all 2^n
  // on/off sequences of its column.
  // ---------------------------------------------------------------------------

  /** Total loss of the state sequence `q` over frames 0..|q|-1 of column `p`:
      frame loss of every state, onset loss of the first state, transition
      onset loss of every later state. */
  function PathCost(frameLosses: seq<seq<LossPair>>, onsetLosses: seq<seq<LossPair>>, p: nat, q: seq<State>): real
    requires Shaped(frameLosses, onsetLosses) && p < |onsetLosses[0]| && 1 <= |q| <= |onsetLosses|
    decreases |q|
  {
    var t := |q| - 1;
    if t == 0 then
      Of(frameLosses[0][p], q[0]) + Of(onsetLosses[0][p], q[0])
    else
      PathCost(frameLosses, onsetLosses, p, q[..t]) + Transition(onsetLosses, t, p, q[t - 1], q[t]) + Of(frameLosses[t][p], q[t])
  }

  /** `Loss(t, p, s)` is a lower bound on the cost of every sequence over
      frames 0..t that ends in `s`. */
  lemma {:induction false} LossIsLowerBound(frameLosses: seq<seq<LossPair>>, onsetLosses: seq<seq<LossPair>>, p: nat, q: seq<State>)
    requires Shaped(frameLosses, onsetLosses) && p < |onsetLosses[0]| && 1 <= |q| <= |onsetLosses|
    ensures Loss(frameLosses, onsetLosses, |q| - 1, p, q[|q| - 1]) <= PathCost(frameLosses, onsetLosses, p, q)
    decreases |q|
  {
    var t := |q| - 1;
    if t > 0 {
      LossIsLowerBound(frameLosses, onsetLosses, p, q[..t]);
      assert q[..t][t - 1] == q[t - 1];
    }
  }

  /** The backtracked prefix over frames 0..t costs exactly `Loss(t, p, s)`
      for the state `s` it ends in. */
  lemma {:induction false} DecodedPrefixCost(frameLosses: seq<seq<LossPair>>, onsetLosses: seq<seq<LossPair>>, p: nat, t: nat)
    requires Shaped(frameLosses, onsetLosses) && p < |onsetLosses[0]| && t < |onsetLosses|
    ensures PathCost(frameLosses, onsetLosses, p, DecodedColumn(frameLosses, onsetLosses, p)[..t + 1])
         == Loss(frameLosses, onsetLosses, t, p, DecodedState(frameLosses, onsetLosses, t, p))
    decreases t
  {
    var column := DecodedColumn(frameLosses, onsetLosses, p);
    if t > 0 {
      DecodedPrefixCost(frameLosses, onsetLosses, p, t - 1);
      var prefix := column[..t + 1];
      assert prefix[..t] == column[..t];
      assert prefix[t - 1] == DecodedState(frameLosses, onsetLosses, t - 1, p);
      assert prefix[t] == DecodedState(frameLosses, onsetLosses, t, p);
    }
  }

  /** The decoded column attains the least loss of the last row and no
      sequence of the same length costs less. */
  lemma ViterbiIsOptimal(frameLosses: seq<seq<LossPair>>, onsetLosses: seq<seq<LossPair>>, p: nat, q: seq<State>)
    requires Shaped(frameLosses, onsetLosses) && p < |onsetLosses[0]| && |q| == |onsetLosses|
    ensures var last := |onsetLosses| - 1;
      PathCost(frameLosses, onsetLosses, p, DecodedColumn(frameLosses, onsetLosses, p))
        == Min(Loss(frameLosses, onsetLosses, last, p, 0), Loss(frameLosses, onsetLosses, last, p, 1))
    ensures PathCost(frameLosses, onsetLosses, p, DecodedColumn(frameLosses, onsetLosses, p))
         <= PathCost(frameLosses, onsetLosses, p, q)
  {
    var last := |onsetLosses| - 1;
    var column := DecodedColumn(frameLosses, onsetLosses, p);
    DecodedPrefixCost(frameLosses, onsetLosses, p, last);
    assert column[..last + 1] == column;
    LossIsLowerBound(frameLosses, onsetLosses, p, q);
  }

  /** Column `p` of the returned roll, read back as states. */
  function RollColumn(roll: seq<seq<bool>>, p: nat): (q: seq<State>)
    requires forall t :: 0 <= t < |roll| ==> p < |roll[t]|
    ensures |q| == |roll| && forall t :: 0 <= t < |roll| ==> (q[t] == 1 <==> roll[t][p])
  {
    seq(|roll|, t requires 0 <= t < |roll| => if roll[t][p] then 1 else 0)
  }

  /** Every column of the roll is the decoded column of that pitch, so it has
      the least total loss of all on/off sequences of the column. */
  lemma PianorollIsOptimal(frameLosses: seq<seq<LossPair>>, onsetLosses: seq<seq<LossPair>>, p: nat, q: seq<State>)
    requires Shaped(frameLosses, onsetLosses) && p < |onsetLosses[0]| && |q| == |onsetLosses|
    ensures RollColumn(Pianoroll(frameLosses, onsetLosses), p) == DecodedColumn(frameLosses, onsetLosses, p)
    ensures PathCost(frameLosses, onsetLosses, p, RollColumn(Pianoroll(frameLosses, onsetLosses), p))
         <= PathCost(frameLosses, onsetLosses, p, q)
  {
    var column := RollColumn(Pianoroll(frameLosses, onsetLosses), p);
    assert column == DecodedColumn(frameLosses, onsetLosses, p);
    ViterbiIsOptimal(frameLosses, onsetLosses, p, q);
  }

  // ---------------------------------------------------------------------------
  // Columns are decoded independently of each other.
  // ---------------------------------------------------------------------------

  /** Column `p` holds the same losses in both pairs of matrices. */
  predicate SameColumn(frameLosses: seq<seq<LossPair>>, onsetLosses: seq<seq<LossPair>>,
                       frameLosses': seq<seq<LossPair>>, onsetLosses': seq<seq<LossPair>>, p: nat)
    requires Shaped(frameLosses, onsetLosses) && Shaped(frameLosses', onsetLosses')
    requires |onsetLosses| == |onsetLosses'| && p < |onsetLosses[0]| && p < |onsetLosses'[0]|
  {
    forall t :: 0 <= t < |onsetLosses| ==>
      frameLosses[t][p] == frameLosses'[t][p] && onsetLosses[t][p] == onsetLosses'[t][p]
  }

  lemma {:induction false} LossReadsOnlyItsColumn(frameLosses: seq<seq<LossPair>>, onsetLosses: seq<seq<LossPair>>,
                                                  frameLosses': seq<seq<LossPair>>, onsetLosses': seq<seq<LossPair>>,
                                                  t: nat, p: nat)
    requires Shaped(frameLosses, onsetLosses) && Shaped(frameLosses', onsetLosses')
    requires |onsetLosses| == |onsetLosses'| && p < |onsetLosses[0]| && p < |onsetLosses'[0]| && t < |onsetLosses|
    requires SameColumn(frameLosses, onsetLosses, frameLosses', onsetLosses', p)
    ensures Loss(frameLosses, onsetLosses, t, p, 0) == Loss(frameLosses', onsetLosses', t, p, 0)
    ensures Loss(frameLosses, onsetLosses, t, p, 1) == Loss(frameLosses', onsetLosses', t, p, 1)
    decreases t
  {
    if t > 0 {
      LossReadsOnlyItsColumn(frameLosses, onsetLosses, frameLosses', onsetLosses', t - 1, p);
    }
  }

  /** The decoded column `p` depends on column `p` of the inputs only. */
  lemma {:induction false} ColumnsDecodedIndependently(frameLosses: seq<seq<LossPair>>, onsetLosses: seq<seq<LossPair>>,
                                                       frameLosses': seq<seq<LossPair>>, onsetLosses': seq<seq<LossPair>>,
                                                       p: nat)
    requires Shaped(frameLosses, onsetLosses) && Shaped(frameLosses', onsetLosses')
    requires |onsetLosses| == |onsetLosses'| && p < |onsetLosses[0]| && p < |onsetLosses'[0]|
    requires SameColumn(frameLosses, onsetLosses, frameLosses', onsetLosses', p)
    ensures DecodedColumn(frameLosses, onsetLosses, p) == DecodedColumn(frameLosses', onsetLosses', p)
  {
    var n := |onsetLosses|;
    var t := n;
    while t > 0
      invariant 0 <= t <= n
      invariant forall u :: t <= u < n ==>
        DecodedState(frameLosses, onsetLosses, u, p) == DecodedState(frameLosses', onsetLosses', u, p)
    {
      t := t - 1;
      LossReadsOnlyItsColumn(frameLosses, onsetLosses, frameLosses', onsetLosses', t, p);
    }
  }

  // ---------------------------------------------------------------------------
  // The decoder's unit test: frame probabilities [[0.2, 0.1], [0.5, 0.1],
  // [0.5, 0.1], [0.8, 0.1]], onset probabilities [[0.1, 0.1], [0.1, 0.1],
  // [0.9, 0.1], [0.1, 0.1]], alpha 0.5, expected flattened roll
  // [F, F, F, F, T, F, T, F]. The weighted losses 0.5 * -ln P are irrational,
  // so the lemma covers every pair of loss matrices within 0.001 of their
  // four-decimal values.
  // ---------------------------------------------------------------------------

  const TestFrameLosses: seq<seq<LossPair>> := [
    [LossPair(0.1116, 0.8047), LossPair(0.0527, 1.1513)],
    [LossPair(0.3466, 0.3466), LossPair(0.0527, 1.1513)],
    [LossPair(0.3466, 0.3466), LossPair(0.0527, 1.1513)],
    [LossPair(0.8047, 0.1116), LossPair(0.0527, 1.1513)]]

  const TestOnsetLosses: seq<seq<LossPair>> := [
    [LossPair(0.0527, 1.1513), LossPair(0.0527, 1.1513)],
    [LossPair(0.0527, 1.1513), LossPair(0.0527, 1.1513)],
    [LossPair(1.1513, 0.0527), LossPair(0.0527, 1.1513)],
    [LossPair(0.0527, 1.1513), LossPair(0.0527, 1.1513)]]

  predicate Within(x: real, approx: real)
  {
    approx - 0.001 <= x <= approx + 0.001
  }

  /** `m` has the shape of `approx` and each loss lies within 0.001 of it. */
  predicate Near(m: seq<seq<LossPair>>, approx: seq<seq<LossPair>>)
  {
    && |m| == |approx|
    && forall t :: 0 <= t < |approx| ==>
         && |m[t]| == |approx[t]|
         && forall p :: 0 <= p < |approx[t]| ==>
              Within(m[t][p].off, approx[t][p].off) && Within(m[t][p].on, approx[t][p].on)
  }

  lemma ViterbiUnitTest(frameLosses: seq<seq<LossPair>>, onsetLosses: seq<seq<LossPair>>)
    requires Near(frameLosses, TestFrameLosses) && Near(onsetLosses, TestOnsetLosses)
    ensures Shaped(frameLosses, onsetLosses)
    ensures Flatten(Pianoroll(frameLosses, onsetLosses)) == [false, false, false, false, true, false, true, false]
  {
    var F, O := frameLosses, onsetLosses;
    UnitTestFirstPitch(F, O);
    UnitTestSecondPitch(F, O);
    var roll := Pianoroll(F, O);
    assert roll[0] == [false, false] && roll[1] == [false, false];
    assert roll[2] == [true, false] && roll[3] == [true, false];
    assert roll == [[false, false], [false, false], [true, false], [true, false]];
    assert Flatten(roll[3..]) == [true, false];
    assert Flatten(roll[2..]) == [true, false, true, false];
    assert Flatten(roll[1..]) == [false, false, true, false, true, false];
  }

  /** The first pitch of the unit test: the onset at frame 2 switches it on
      for the last two frames. */
  lemma UnitTestFirstPitch(F: seq<seq<LossPair>>, O: seq<seq<LossPair>>)
    requires Near(F, TestFrameLosses) && Near(O, TestOnsetLosses)
    ensures Shaped(F, O)
    ensures DecodedState(F, O, 0, 0) == 0 && DecodedState(F, O, 1, 0) == 0
    ensures DecodedState(F, O, 2, 0) == 1 && DecodedState(F, O, 3, 0) == 1
  {
    assert Shaped(F, O);
    assert 0.16 <= Loss(F, O, 0, 0, 0) <= 0.17 && 1.95 <= Loss(F, O, 0, 0, 1) <= 1.96;
    assert 0.55 <= Loss(F, O, 1, 0, 0) <= 0.57 && 1.65 <= Loss(F, O, 1, 0, 1) <= 1.67;
    assert 2.05 <= Loss(F, O, 2, 0, 0) <= 2.07 && 0.95 <= Loss(F, O, 2, 0, 1) <= 0.97;
    assert 1.81 <= Loss(F, O, 3, 0, 0) <= 1.83 && 1.11 <= Loss(F, O, 3, 0, 1) <= 1.14;
    assert DecodedState(F, O, 3, 0) == 1;
    assert DecodedState(F, O, 2, 0) == 1;
    assert DecodedState(F, O, 1, 0) == 0;
  }

  /** The second pitch of the unit test never gets an onset and stays off. */
  lemma UnitTestSecondPitch(F: seq<seq<LossPair>>, O: seq<seq<LossPair>>)
    requires Near(F, TestFrameLosses) && Near(O, TestOnsetLosses)
    ensures Shaped(F, O)
    ensures DecodedState(F, O, 0, 1) == 0 && DecodedState(F, O, 1, 1) == 0
    ensures DecodedState(F, O, 2, 1) == 0 && DecodedState(F, O, 3, 1) == 0
  {
    assert Shaped(F, O);
    assert 0.10 <= Loss(F, O, 0, 1, 0) <= 0.11 && 2.29 <= Loss(F, O, 0, 1, 1) <= 2.31;
    assert 0.20 <= Loss(F, O, 1, 1, 0) <= 0.22 && 2.40 <= Loss(F, O, 1, 1, 1) <= 2.42;
    assert 0.31 <= Loss(F, O, 2, 1, 0) <= 0.33 && 2.50 <= Loss(F, O, 2, 1, 1) <= 2.52;
    assert 0.41 <= Loss(F, O, 3, 1, 0) <= 0.43 && 2.61 <= Loss(F, O, 3, 1, 1) <= 2.63;
    assert DecodedState(F, O, 3, 1) == 0;
    assert DecodedState(F, O, 2, 1) == 0;
    assert DecodedState(F, O, 1, 1) == 0;
  }

  // ---------------------------------------------------------------------------
  // The decoder itself.
  // ---------------------------------------------------------------------------

  /** Rows 0..rows-1 of `lossMatrix` hold `Loss` and rows 1..rows-1 of
      `pathMatrix` hold `BestPrev`. */
  ghost predicate ForwardDone(frameLosses: seq<seq<LossPair>>, onsetLosses: seq<seq<LossPair>>,
                              lossMatrix: array3<real>, pathMatrix: array3<State>, rows: nat)
    requires Shaped(frameLosses, onsetLosses)
    reads lossMatrix, pathMatrix
  {
    && lossMatrix.Length0 == pathMatrix.Length0 == |onsetLosses|
    && lossMatrix.Length1 == pathMatrix.Length1 == |onsetLosses[0]|
    && lossMatrix.Length2 == pathMatrix.Length2 == 2
    && rows <= |onsetLosses|
    && (forall t, q, s :: 0 <= t < rows && 0 <= q < |onsetLosses[0]| && 0 <= s < 2 ==>
          lossMatrix[t, q, s] == Loss(frameLosses, onsetLosses, t, q, s))
    && (forall t, q, s :: 1 <= t < rows && 0 <= q < |onsetLosses[0]| && 0 <= s < 2 ==>
          pathMatrix[t, q, s] == BestPrev(frameLosses, onsetLosses, t, q, s))
  }

  /** The forward pass: row 0 from the frame and onset losses of frame 0,
      then every later row from the one before it. */
  method ForwardPass(frameLosses: seq<seq<LossPair>>, onsetLosses: seq<seq<LossPair>>)
    returns (lossMatrix: array3<real>, pathMatrix: array3<State>)
    requires Shaped(frameLosses, onsetLosses)
    ensures fresh(lossMatrix) && fresh(pathMatrix)
    ensures ForwardDone(frameLosses, onsetLosses, lossMatrix, pathMatrix, |onsetLosses|)
  {
    var n := |onsetLosses|;
    var d := |onsetLosses[0]|;
    lossMatrix := new real[n, d, 2];
    pathMatrix := new State[n, d, 2];

    for p := 0 to d
      modifies lossMatrix
      invariant forall q, s :: 0 <= q < p && 0 <= s < 2 ==> lossMatrix[0, q, s] == Loss(frameLosses, onsetLosses, 0, q, s)
    {
      lossMatrix[0, p, 0] := frameLosses[0][p].off + onsetLosses[0][p].off;
      lossMatrix[0, p, 1] := frameLosses[0][p].on + onsetLosses[0][p].on;
    }

    for i := 1 to n
      modifies lossMatrix, pathMatrix
      invariant ForwardDone(frameLosses, onsetLosses, lossMatrix, pathMatrix, i)
    {
      ForwardRow(frameLosses, onsetLosses, lossMatrix, pathMatrix, i);
    }
  }

  /** One step of the forward loop: row `i` of both matrices from row i-1. */
  method ForwardRow(frameLosses: seq<seq<LossPair>>, onsetLosses: seq<seq<LossPair>>,
                    lossMatrix: array3<real>, pathMatrix: array3<State>, i: nat)
    requires Shaped(frameLosses, onsetLosses) && 1 <= i < |onsetLosses|
    requires ForwardDone(frameLosses, onsetLosses, lossMatrix, pathMatrix, i)
    modifies lossMatrix, pathMatrix
    ensures ForwardDone(frameLosses, onsetLosses, lossMatrix, pathMatrix, i + 1)
  {
    var d := |onsetLosses[0]|;
    for p := 0 to d
      modifies lossMatrix, pathMatrix
      invariant ForwardDone(frameLosses, onsetLosses, lossMatrix, pathMatrix, i)
      invariant forall q, s :: 0 <= q < p && 0 <= s < 2 ==>
        lossMatrix[i, q, s] == Loss(frameLosses, onsetLosses, i, q, s)
        && pathMatrix[i, q, s] == BestPrev(frameLosses, onsetLosses, i, q, s)
    {
      // transitionLosses[p, prev, s]: the previous row's loss of `prev`
      // plus the onset loss of entering `s`.
      var loss0, loss1 := lossMatrix[i - 1, p, 0], lossMatrix[i - 1, p, 1];
      var from0to0 := loss0 + onsetLosses[i][p].off;
      var from0to1 := loss0 + onsetLosses[i][p].on;
      var from1to0 := loss1 + onsetLosses[i][p].off;
      var from1to1 := loss1 + onsetLosses[i][p].off;
      var prev0 := Argmin(from0to0, from1to0);
      var prev1 := Argmin(from0to1, from1to1);
      var next0 := (if prev0 == 0 then from0to0 else from1to0) + frameLosses[i][p].off;
      var next1 := (if prev1 == 0 then from0to1 else from1to1) + frameLosses[i][p].on;
      assert prev0 == BestPrev(frameLosses, onsetLosses, i, p, 0) && next0 == Loss(frameLosses, onsetLosses, i, p, 0) by {
        LossRecurrence(frameLosses, onsetLosses, i, p, 0);
      }
      assert prev1 == BestPrev(frameLosses, onsetLosses, i, p, 1) && next1 == Loss(frameLosses, onsetLosses, i, p, 1) by {
        LossRecurrence(frameLosses, onsetLosses, i, p, 1);
      }
      pathMatrix[i, p, 0] := prev0;
      pathMatrix[i, p, 1] := prev1;
      lossMatrix[i, p, 0] := next0;
      lossMatrix[i, p, 1] := next1;
    }
    forall t, q, s | 0 <= t < i + 1 && 0 <= q < d && 0 <= s < 2
      ensures lossMatrix[t, q, s] == Loss(frameLosses, onsetLosses, t, q, s)
    {
    }
    forall t, q, s | 1 <= t < i + 1 && 0 <= q < d && 0 <= s < 2
      ensures pathMatrix[t, q, s] == BestPrev(frameLosses, onsetLosses, t, q, s)
    {
    }
  }

  /** The loss recurrence: `Loss(t, p, s)` is attained through `BestPrev`
      and is no more than entering `s` from either state. */
  lemma LossRecurrence(frameLosses: seq<seq<LossPair>>, onsetLosses: seq<seq<LossPair>>, t: nat, p: nat, s: State)
    requires Shaped(frameLosses, onsetLosses) && 1 <= t < |onsetLosses| && p < |onsetLosses[0]|
    ensures var prev := BestPrev(frameLosses, onsetLosses, t, p, s);
      Loss(frameLosses, onsetLosses, t, p, s)
        == Loss(frameLosses, onsetLosses, t - 1, p, prev) + Transition(onsetLosses, t, p, prev, s) + Of(frameLosses[t][p], s)
    ensures Loss(frameLosses, onsetLosses, t, p, s)
        <= Loss(frameLosses, onsetLosses, t - 1, p, 0) + Transition(onsetLosses, t, p, 0, s) + Of(frameLosses[t][p], s)
    ensures Loss(frameLosses, onsetLosses, t, p, s)
        <= Loss(frameLosses, onsetLosses, t - 1, p, 1) + Transition(onsetLosses, t, p, 1, s) + Of(frameLosses[t][p], s)
  {
  }

  /** Cells of `roll` in rows from..n-1 hold the decoded states. */
  ghost predicate BackwardDone(frameLosses: seq<seq<LossPair>>, onsetLosses: seq<seq<LossPair>>,
                               roll: array2<bool>, from: nat)
    requires Shaped(frameLosses, onsetLosses)
    reads roll
  {
    && roll.Length0 == |onsetLosses| && roll.Length1 == |onsetLosses[0]|
    && forall t, q :: from <= t < |onsetLosses| && 0 <= q < |onsetLosses[0]| ==>
         roll[t, q] == (DecodedState(frameLosses, onsetLosses, t, q) == 1)
  }

  /** The backward pass: the last row is the argmin of the last row of
      `lossMatrix`; every earlier row follows `pathMatrix` from the row after. */
  method BackwardPass(frameLosses: seq<seq<LossPair>>, onsetLosses: seq<seq<LossPair>>,
                      lossMatrix: array3<real>, pathMatrix: array3<State>)
    returns (roll: array2<bool>)
    requires Shaped(frameLosses, onsetLosses)
    requires ForwardDone(frameLosses, onsetLosses, lossMatrix, pathMatrix, |onsetLosses|)
    ensures fresh(roll)
    ensures BackwardDone(frameLosses, onsetLosses, roll, 0)
  {
    var n := |onsetLosses|;
    var d := |onsetLosses[0]|;
    roll := new bool[n, d];
    var last := n - 1;
    for p := 0 to d
      modifies roll
      invariant forall q :: 0 <= q < p ==> roll[last, q] == (DecodedState(frameLosses, onsetLosses, last, q) == 1)
    {
      roll[last, p] := Argmin(lossMatrix[last, p, 0], lossMatrix[last, p, 1]) == 1;
    }
    for i := n - 1 downto 0
      modifies roll
      invariant BackwardDone(frameLosses, onsetLosses, roll, i)
    {
      BackwardRow(frameLosses, onsetLosses, lossMatrix, pathMatrix, roll, i);
    }
  }

  /** One step of the backward loop: row `i` of the roll from row i+1. */
  method BackwardRow(frameLosses: seq<seq<LossPair>>, onsetLosses: seq<seq<LossPair>>,
                     lossMatrix: array3<real>, pathMatrix: array3<State>, roll: array2<bool>, i: nat)
    requires Shaped(frameLosses, onsetLosses) && i + 1 < |onsetLosses|
    requires ForwardDone(frameLosses, onsetLosses, lossMatrix, pathMatrix, |onsetLosses|)
    requires BackwardDone(frameLosses, onsetLosses, roll, i + 1)
    modifies roll
    ensures BackwardDone(frameLosses, onsetLosses, roll, i)
  {
    var next := i + 1;
    for p := 0 to |onsetLosses[0]|
      modifies roll
      invariant BackwardDone(frameLosses, onsetLosses, roll, next)
      invariant forall q :: 0 <= q < p ==> roll[i, q] == (DecodedState(frameLosses, onsetLosses, i, q) == 1)
    {
      roll[i, p] := pathMatrix[next, p, if roll[next, p] then 1 else 0] == 1;
    }
  }

  /** Fills `lossMatrix` and `pathMatrix` frame by frame, then walks back from
      the argmin of the last frame. The source indexes the range 0...n-2,
      which traps unless n >= 2. */
  method ProbsToPianorollViterbi(frameLosses: seq<seq<LossPair>>, onsetLosses: seq<seq<LossPair>>)
    returns (pianoroll: seq<seq<bool>>)
    requires Shaped(frameLosses, onsetLosses) && |onsetLosses| >= 2
    ensures pianoroll == Pianoroll(frameLosses, onsetLosses)
  {
    var n := |onsetLosses|;
    var d := |onsetLosses[0]|;
    var lossMatrix, pathMatrix := ForwardPass(frameLosses, onsetLosses);
    var roll := BackwardPass(frameLosses, onsetLosses, lossMatrix, pathMatrix);
    pianoroll := seq(n, t requires 0 <= t < n reads roll => seq(d, p requires 0 <= p < d reads roll => roll[t, p]));
    forall t | 0 <= t < n
      ensures pianoroll[t] == Pianoroll(frameLosses, onsetLosses)[t]
    {
    }
  }
}
