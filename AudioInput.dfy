/** The capture-side bookkeeping of `AudioInputManager`: the size of the audio
    window handed to the model, the 20-slot level meter `viz`, and what the
    microphone tap callback stores in `samples` and `overlap`. */
module AudioInput {
  import opened Wrappers

  /** A 16-bit PCM sample. */
  type Int16 = x: int | -0x8000 <= x < 0x8000

  /** Samples added to one second of audio to form the model's window. */
  const Padding := 1920
  /** Slots of the level meter. */
  const VizSlots := 20
  /** Length of the initial `samples` array: one window at 16000 Hz. */
  const InitialSamples := 17920

  /** `bufferSize`: one second of samples plus the padding. */
  function BufferSize(sampleRate: int): (size: int)
    ensures size - sampleRate == Padding
    ensures sampleRate == 16000 ==> size == InitialSamples
  {
    (sampleRate + Padding) * 1
  }

  // ---------------------------------------------------------------------------
  // The level meter.
  // ---------------------------------------------------------------------------

  /** `insertIntoArray`: a full meter (exactly 20 slots) drops its oldest
      value; the new value always goes last. */
  function Inserted(value: real, meter: seq<real>): (r: seq<real>)
    ensures |r| >= 1 && r[|r| - 1] == value
    ensures |meter| == VizSlots ==> |r| == VizSlots && r[..VizSlots - 1] == meter[1..]
    ensures |meter| != VizSlots ==> r == meter + [value]
  {
    if |meter| == VizSlots then meter[1..] + [value] else meter + [value]
  }

  method InsertIntoArray(value: real, meter: seq<real>) returns (arr: seq<real>)
    ensures arr == Inserted(value, meter)
  {
    arr := meter;
    if |arr| == VizSlots {
      arr := arr[1..];
    }
    arr := arr + [value];
  }

  /** The meter after inserting `values` in order. */
  function InsertAll(values: seq<real>, meter: seq<real>): seq<real>
    decreases |values|
  {
    if values == [] then meter else InsertAll(values[1..], Inserted(values[0], meter))
  }

  /** Starting from at most 20 slots, the meter never grows past 20. */
  lemma {:induction false} InsertAllStaysWithinSlots(values: seq<real>, meter: seq<real>)
    requires |meter| <= VizSlots
    ensures |InsertAll(values, meter)| <= VizSlots
    decreases |values|
  {
    if values != [] {
      InsertAllStaysWithinSlots(values[1..], Inserted(values[0], meter));
    }
  }

  /** A full meter always shows the last 20 values of its history. */
  lemma {:induction false} FullMeterShowsLatest(values: seq<real>, meter: seq<real>)
    requires |meter| == VizSlots
    ensures InsertAll(values, meter) == (meter + values)[|values|..]
    decreases |values|
  {
    if values != [] {
      var next := Inserted(values[0], meter);
      FullMeterShowsLatest(values[1..], next);
      assert next + values[1..] == (meter + values)[1..];
    }
  }

  // ---------------------------------------------------------------------------
  // The converted chunk.
  // ---------------------------------------------------------------------------

  /** `stride(from:to:by:).map { data[$0] }`: every `step`-th sample from
      `start` up to, not including, `stop`. */
  function Strided(data: seq<Int16>, start: nat, stop: int, step: nat): (r: seq<Int16>)
    requires step > 0 && stop <= |data|
    ensures start >= stop ==> r == []
    ensures start < stop ==> |r| >= 1 && r[0] == data[start]
    decreases stop - start
  {
    if start >= stop then [] else [data[start]] + Strided(data, start + step, stop, step)
  }

  /** The chunk holds exactly the samples at start, start + step,
      start + 2 * step, ... below `stop`. */
  lemma {:induction false} StridedPicksEveryStride(data: seq<Int16>, start: nat, stop: int, step: nat)
    requires step > 0 && stop <= |data|
    ensures var r := Strided(data, start, stop, step);
      && (forall k :: 0 <= k < |r| ==> start + k * step < stop && r[k] == data[start + k * step])
      && start + |r| * step >= stop
    decreases stop - start
  {
    var r := Strided(data, start, stop, step);
    if start < stop {
      var rest := Strided(data, start + step, stop, step);
      StridedPicksEveryStride(data, start + step, stop, step);
      forall k | 0 <= k < |r|
        ensures start + k * step < stop && r[k] == data[start + k * step]
      {
        if k > 0 {
          var j := k - 1;
          assert r[k] == rest[j];
          assert (start + step) + j * step < stop && rest[j] == data[(start + step) + j * step];
          NextMultiple(j, step);
        }
      }
      NextMultiple(|rest|, step);
    }
  }

  /** Distributivity for the stride arithmetic, kept apart so the
      nonlinear step stays out of the induction above. */
  lemma NextMultiple(k: int, step: int)
    ensures (k + 1) * step == k * step + step
  {
  }

  // ---------------------------------------------------------------------------
  // The manager's state.
  // ---------------------------------------------------------------------------

  class AudioInputManager {
    const sampleRate: int
    const bufferSize: int
    var samples: seq<Int16>
    var viz: seq<real>
    var overlap: Option<seq<Int16>>

    /** The window size is fixed by the sample rate, the meter never holds
        more than 20 values, and a stored overlap is one padding long. */
    ghost predicate Valid()
      reads this
    {
      && bufferSize == BufferSize(sampleRate)
      && |viz| <= VizSlots
      && (overlap.Some? ==> |overlap.value| == Padding)
    }

    constructor (sampleRate: int)
      ensures Valid() && this.sampleRate == sampleRate
      ensures samples == seq(InitialSamples, i => 0) && viz == seq(VizSlots, i => 1.0) && overlap == None
    {
      this.sampleRate := sampleRate;
      bufferSize := BufferSize(sampleRate);
      samples := seq(InitialSamples, i => 0);
      viz := seq(VizSlots, i => 1.0);
      overlap := None;
    }

    /** `stopTappingMicrophone`: the meter goes back to 20 ones. */
    method StopTappingMicrophone()
      requires Valid()
      modifies this
      ensures Valid()
      ensures viz == seq(VizSlots, i => 1.0) && samples == old(samples) && overlap == old(overlap)
    {
      viz := seq(VizSlots, i => 1.0);
    }

    /** The body of the tap callback once the converter has run: with no
        channel data nothing changes; otherwise the chunk of every
        `stride`-th sample becomes `samples`, the level (`level` stands for
        the RMS in decibels) is pushed onto the meter doubled, and the last
        `Padding` samples become the overlap. The overlap is never spliced
        back into `samples`. A chunk shorter than `bufferSize` makes the
        slice `samples[sampleRate..<bufferSize]` trap, so it is excluded. */
    method TapCallback(channelData: Option<seq<Int16>>, frameLength: int, stride: int, level: real)
      requires Valid() && stride > 0
      requires channelData.Some? ==> frameLength <= |channelData.value|
      requires channelData.Some? ==>
        0 <= sampleRate && bufferSize <= |Strided(channelData.value, 0, frameLength, stride)|
      modifies this
      ensures Valid()
      ensures channelData.None? ==> samples == old(samples) && viz == old(viz) && overlap == old(overlap)
      ensures channelData.Some? ==>
        var chunk := Strided(channelData.value, 0, frameLength, stride);
        && samples == chunk
        && viz == Inserted(2.0 * level, old(viz))
        && overlap == Some(chunk[sampleRate..bufferSize])
    {
      if channelData.None? {
        return;
      }
      var channelDataValueArray := Strided(channelData.value, 0, frameLength, stride);
      viz := InsertIntoArray(2.0 * level, viz);
      samples := channelDataValueArray;
      if overlap.Some? {
        // The merge of the previous overlap is disabled: nothing happens.
      }
      overlap := Some(channelDataValueArray[sampleRate..bufferSize]);
    }
  }
}
