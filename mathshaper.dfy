/**
 * The data logic of the plugin's audio callback (src/lib.rs): each sample
 * of each channel is pre-gained, folded into the block's running maximum
 * and minimum, shaped and post-gained in place; afterwards the stored
 * peak meter values either take the block's new extreme or decay.
 */
module Mathshaper {
  import opened Wrappers
  import opened Float32
  import opened RealArithmetic

  /** f32::max on non-NaN values. */
  function Max(a: real, b: real): (m: real)
    ensures m >= a && m >= b
    ensures m == a || m == b
  {
    if a >= b then a else b
  }

  /** f32::min on non-NaN values. */
  function Min(a: real, b: real): (m: real)
    ensures m <= a && m <= b
    ensures m == a || m == b
  {
    if a <= b then a else b
  }

  /** The running maximum after folding `samples`, in order, into `start`. */
  function RunningMax(start: real, samples: seq<real>): real
    decreases |samples|
  {
    if samples == [] then start
    else Max(RunningMax(start, samples[..|samples| - 1]), samples[|samples| - 1])
  }

  /** The running minimum after folding `samples`, in order, into `start`. */
  function RunningMin(start: real, samples: seq<real>): real
    decreases |samples|
  {
    if samples == [] then start
    else Min(RunningMin(start, samples[..|samples| - 1]), samples[|samples| - 1])
  }

  /** The running maximum over the channels of a block, channel after channel. */
  function BlockMax(start: real, channels: seq<seq<real>>): real
    decreases |channels|
  {
    if channels == [] then start
    else RunningMax(BlockMax(start, channels[..|channels| - 1]), channels[|channels| - 1])
  }

  /** The running minimum over the channels of a block, channel after channel. */
  function BlockMin(start: real, channels: seq<seq<real>>): real
    decreases |channels|
  {
    if channels == [] then start
    else RunningMin(BlockMin(start, channels[..|channels| - 1]), channels[|channels| - 1])
  }

  /** Every sample multiplied by the gain, in order. */
  function PreGained(samples: seq<real>, gain: real): (r: seq<real>)
    ensures |r| == |samples|
    decreases |samples|
  {
    if samples == [] then []
    else PreGained(samples[..|samples| - 1], gain) + [samples[|samples| - 1] * gain]
  }

  lemma {:induction false} PreGainedAt(samples: seq<real>, gain: real, k: nat)
    requires k < |samples|
    ensures PreGained(samples, gain)[k] == samples[k] * gain
    decreases |samples|
  {
    if k < |samples| - 1 {
      PreGainedAt(samples[..|samples| - 1], gain, k);
    }
  }

  /** What one input sample becomes: pre-gained, shaped, then post-gained. */
  function OutputSample(sample: real, preGain: real, postGain: real, shape: real -> real): real {
    shape(sample * preGain) * postGain
  }

  /** What the callback leaves in a channel buffer: shape(input * pre-gain) * post-gain. */
  function Shaped(samples: seq<real>, preGain: real, postGain: real, shape: real -> real): seq<real> {
    var gained := PreGained(samples, preGain);
    seq(|gained|, i requires 0 <= i < |gained| => shape(gained[i]) * postGain)
  }

  lemma ShapedAt(samples: seq<real>, preGain: real, postGain: real, shape: real -> real, k: nat)
    requires k < |samples|
    ensures |Shaped(samples, preGain, postGain, shape)| == |samples|
    ensures Shaped(samples, preGain, postGain, shape)[k] == shape(samples[k] * preGain) * postGain
    ensures Shaped(samples, preGain, postGain, shape)[k] == OutputSample(samples[k], preGain, postGain, shape)
  {
    var gained := PreGained(samples, preGain);
    PreGainedAt(samples, preGain, k);
    assert Shaped(samples, preGain, postGain, shape)[k] == shape(gained[k]) * postGain;
  }

  /** The first `count` channels, pre-gained: the values the extrema are taken over. */
  function GainedChannels(data: seq<seq<real>>, count: nat, gain: real): seq<seq<real>> {
    var n := if count < |data| then count else |data|;
    seq(n, c requires 0 <= c < n => PreGained(data[c], gain))
  }

  /** The block after the callback: channels below `count` shaped, the rest untouched. */
  function ProcessedChannels(data: seq<seq<real>>, count: nat, preGain: real, postGain: real,
                             shape: real -> real): seq<seq<real>> {
    seq(|data|, c requires 0 <= c < |data| =>
      if c < count then Shaped(data[c], preGain, postGain, shape) else data[c])
  }

  /**
   * Channels below `count` are shaped sample by sample; every channel at or
   * beyond it keeps its samples.
   */
  lemma ProcessedChannelsAt(data: seq<seq<real>>, count: nat, preGain: real, postGain: real,
                            shape: real -> real, c: nat, k: nat)
    requires c < |data| && k < |data[c]|
    ensures |ProcessedChannels(data, count, preGain, postGain, shape)| == |data|
    ensures c < count ==>
      ProcessedChannels(data, count, preGain, postGain, shape)[c][k] == OutputSample(data[c][k], preGain, postGain, shape)
    ensures c >= count ==> ProcessedChannels(data, count, preGain, postGain, shape)[c] == data[c]
  {
    if c < count {
      var samples := data[c];
      assert ProcessedChannels(data, count, preGain, postGain, shape)[c] == Shaped(samples, preGain, postGain, shape);
      ShapedAt(samples, preGain, postGain, shape, k);
      assert samples[k] == data[c][k];
      assert OutputSample(samples[k], preGain, postGain, shape) == OutputSample(data[c][k], preGain, postGain, shape);
    }
  }

  /** The contents of the channel buffers. */
  function Contents(channels: seq<array<real>>): seq<seq<real>>
    reads channels
  {
    seq(|channels|, c requires 0 <= c < |channels| reads channels => channels[c][..])
  }

  /** The decay parameter ranges over [0, 3] and is used as a percentage. */
  function Decay(decayParam: real): (d: real)
    requires 0.0 <= decayParam <= 3.0
    ensures 0.0 <= d <= 0.03
    ensures 0.97 <= 1.0 - d <= 1.0
  {
    decayParam / 100.0
  }

  /** A stored peak after one block without a new extreme. */
  function Decayed(peak: real, decay: real): real {
    peak * (1.0 - decay)
  }

  /** The stored maximum after a block: a higher block maximum, or the old one decayed. */
  function NextPeakMax(blockMax: real, oldMax: real, decay: real): (r: real)
    ensures r == blockMax || r == Decayed(oldMax, decay)
    ensures blockMax > oldMax ==> r == blockMax && r > oldMax
    ensures blockMax <= oldMax ==> r == Decayed(oldMax, decay)
  {
    if blockMax > oldMax then blockMax else Decayed(oldMax, decay)
  }

  /** The stored minimum after a block: a lower block minimum, or the old one decayed. */
  function NextPeakMin(blockMin: real, oldMin: real, decay: real): (r: real)
    ensures r == blockMin || r == Decayed(oldMin, decay)
    ensures blockMin < oldMin ==> r == blockMin && r < oldMin
    ensures blockMin >= oldMin ==> r == Decayed(oldMin, decay)
  {
    if blockMin < oldMin then blockMin else Decayed(oldMin, decay)
  }

  /**
   * The audio callback's per-sample loop over one channel buffer. Returns
   * the running extrema extended by this channel's pre-gained samples.
   */
  method ShapeSamples(buffer: array<real>, preGain: real, postGain: real, shape: real -> real,
                      runningMax: real, runningMin: real)
    returns (newMax: real, newMin: real)
    modifies buffer
    ensures buffer[..] == Shaped(old(buffer[..]), preGain, postGain, shape)
    ensures newMax == RunningMax(runningMax, PreGained(old(buffer[..]), preGain))
    ensures newMin == RunningMin(runningMin, PreGained(old(buffer[..]), preGain))
  {
    ghost var input := buffer[..];
    ghost var output := Shaped(input, preGain, postGain, shape);
    newMax, newMin := runningMax, runningMin;
    for k := 0 to buffer.Length
      invariant forall i :: 0 <= i < k ==> buffer[i] == output[i]
      invariant forall i :: k <= i < buffer.Length ==> buffer[i] == input[i]
      invariant newMax == RunningMax(runningMax, PreGained(input[..k], preGain))
      invariant newMin == RunningMin(runningMin, PreGained(input[..k], preGain))
    {
      var sample := buffer[k] * preGain;
      SampleStep(input, k, preGain, postGain, shape, runningMax, runningMin, sample);
      newMax := Max(newMax, sample);
      newMin := Min(newMin, sample);
      buffer[k] := shape(sample) * postGain;
    }
    assert input[..buffer.Length] == input;
  }

  /**
   * One iteration of the per-sample loop: the pre-gained sample extends the
   * running extrema, and its shaped value is the expected output sample.
   */
  lemma SampleStep(input: seq<real>, k: nat, preGain: real, postGain: real, shape: real -> real,
                   startMax: real, startMin: real, sample: real)
    requires k < |input| && sample == input[k] * preGain
    ensures RunningMax(startMax, PreGained(input[..k + 1], preGain)) ==
            Max(RunningMax(startMax, PreGained(input[..k], preGain)), sample)
    ensures RunningMin(startMin, PreGained(input[..k + 1], preGain)) ==
            Min(RunningMin(startMin, PreGained(input[..k], preGain)), sample)
    ensures |Shaped(input, preGain, postGain, shape)| == |input|
    ensures shape(sample) * postGain == Shaped(input, preGain, postGain, shape)[k]
  {
    PreGainedSnoc(input, k, preGain);
    RunningSnoc(startMax, startMin, PreGained(input[..k], preGain), sample);
    ShapedAt(input, preGain, postGain, shape, k);
  }

  lemma PreGainedSnoc(input: seq<real>, k: nat, gain: real)
    requires k < |input|
    ensures PreGained(input[..k + 1], gain) == PreGained(input[..k], gain) + [input[k] * gain]
  {
    var samples := input[..k + 1];
    PreGainedLast(samples, gain);
    assert samples[..|samples| - 1] == input[..k];
    var x, y := samples[|samples| - 1] * gain, input[k] * gain;
    assert x == y;
    assert [x] == [y];
  }

  lemma PreGainedLast(samples: seq<real>, gain: real)
    requires samples != []
    ensures PreGained(samples, gain) ==
            PreGained(samples[..|samples| - 1], gain) + [samples[|samples| - 1] * gain]
  {
  }

  lemma RunningSnoc(startMax: real, startMin: real, samples: seq<real>, x: real)
    ensures RunningMax(startMax, samples + [x]) == Max(RunningMax(startMax, samples), x)
    ensures RunningMin(startMin, samples + [x]) == Min(RunningMin(startMin, samples), x)
  {
    assert (samples + [x])[..|samples|] == samples;
  }

  /** The plugin's state that the audio callback reads and writes. */
  class Mathshaper {
    var peakMax: real
    var peakMin: real
    /** How many channels have an oversampler; channels from this index on are skipped. */
    var resamplerCount: nat

    /** A fresh plugin: both peaks zero and no oversamplers yet. */
    constructor Default()
      ensures peakMax == 0.0 && peakMin == 0.0 && resamplerCount == 0
    {
      peakMax, peakMin := 0.0, 0.0;
      resamplerCount := 0;
    }

    /** One oversampler per main input channel; a layout without inputs counts as one channel. */
    method Initialize(mainInputChannels: Option<nat>) returns (ok: bool)
      requires mainInputChannels.Some? ==> mainInputChannels.value > 0
      modifies this`resamplerCount
      ensures ok
      ensures resamplerCount == if mainInputChannels.Some? then mainInputChannels.value else 1
    {
      resamplerCount := if mainInputChannels.Some? then mainInputChannels.value else 1;
      ok := true;
    }

    /**
     * One audio callback over a block whose channel buffers are `channels`.
     * Only the buffers and the two peaks change; the gains and the decay
     * parameter are read only.
     */
    method Process(channels: seq<array<real>>, preGain: real, postGain: real, decayParam: real,
                   shape: real -> real)
      requires forall i, j :: 0 <= i < j < |channels| ==> channels[i] != channels[j]
      requires 0.0 <= decayParam <= 3.0
      modifies this`peakMax, this`peakMin, channels
      ensures Contents(channels) ==
              ProcessedChannels(old(Contents(channels)), resamplerCount, preGain, postGain, shape)
      ensures peakMax == NextPeakMax(BlockMax(MIN, GainedChannels(old(Contents(channels)), resamplerCount, preGain)),
                                     old(peakMax), Decay(decayParam))
      ensures peakMin == NextPeakMin(BlockMin(MAX, GainedChannels(old(Contents(channels)), resamplerCount, preGain)),
                                     old(peakMin), Decay(decayParam))
    {
      var newPeakMax, newPeakMin := ShapeChannels(channels, resamplerCount, preGain, postGain, shape);

      var oldPeakMax := peakMax;
      var oldPeakMin := peakMin;
      var decay := Decay(decayParam);
      peakMax := NextPeakMax(newPeakMax, oldPeakMax, decay);
      peakMin := NextPeakMin(newPeakMin, oldPeakMin, decay);
    }
  }

  /**
   * The loop over the channels of a block: channels below `resamplerCount`
   * go through the per-sample loop, and the first channel at or beyond it
   * ends the loop. Returns the block's running extrema, started at f32::MIN
   * and f32::MAX.
   */
  method ShapeChannels(channels: seq<array<real>>, resamplerCount: nat, preGain: real, postGain: real,
                       shape: real -> real)
    returns (newPeakMax: real, newPeakMin: real)
    requires forall i, j :: 0 <= i < j < |channels| ==> channels[i] != channels[j]
    modifies channels
    ensures Contents(channels) ==
            ProcessedChannels(old(Contents(channels)), resamplerCount, preGain, postGain, shape)
    ensures newPeakMax == BlockMax(MIN, GainedChannels(old(Contents(channels)), resamplerCount, preGain))
    ensures newPeakMin == BlockMin(MAX, GainedChannels(old(Contents(channels)), resamplerCount, preGain))
  {
    ghost var before := Contents(channels);
    newPeakMax := MIN;
    newPeakMin := MAX;

    var channel := 0;
    while channel < |channels|
      invariant channel <= |channels| && channel <= resamplerCount
      invariant Contents(channels) == ProcessedChannels(before, channel, preGain, postGain, shape)
      invariant newPeakMax == BlockMax(MIN, GainedChannels(before, channel, preGain))
      invariant newPeakMin == BlockMin(MAX, GainedChannels(before, channel, preGain))
    {
      if channel >= resamplerCount {
        break;
      }
      ChannelStep(before, channel, preGain, MIN, MAX);
      ProcessedStep(before, channel, preGain, postGain, shape);
      ghost var current := Contents(channels);
      assert channels[channel][..] == current[channel] == before[channel];
      newPeakMax, newPeakMin := ShapeChannel(channels, channel, preGain, postGain, shape,
                                             newPeakMax, newPeakMin);
      assert Contents(channels) == current[channel := Shaped(before[channel], preGain, postGain, shape)];
      channel := channel + 1;
    }
    GainedChannelsSaturate(before, channel, resamplerCount, preGain);
    ProcessedChannelsSaturate(before, channel, resamplerCount, preGain, postGain, shape);
  }

  /**
   * The per-sample loop run on one buffer of a block: that buffer is
   * shaped and every other buffer keeps its contents.
   */
  method ShapeChannel(channels: seq<array<real>>, channel: nat, preGain: real, postGain: real,
                      shape: real -> real, runningMax: real, runningMin: real)
    returns (newMax: real, newMin: real)
    requires channel < |channels|
    requires forall i, j :: 0 <= i < j < |channels| ==> channels[i] != channels[j]
    modifies channels[channel]
    ensures Contents(channels) ==
            old(Contents(channels))[channel := Shaped(old(channels[channel][..]), preGain, postGain, shape)]
    ensures newMax == RunningMax(runningMax, PreGained(old(channels[channel][..]), preGain))
    ensures newMin == RunningMin(runningMin, PreGained(old(channels[channel][..]), preGain))
  {
    var buffer := channels[channel];
    assert forall c :: 0 <= c < |channels| && c != channel ==> channels[c] != buffer;
    newMax, newMin := ShapeSamples(buffer, preGain, postGain, shape, runningMax, runningMin);
  }

  /** Shaping one more channel extends the processed prefix by that channel. */
  lemma ProcessedStep(data: seq<seq<real>>, c: nat, preGain: real, postGain: real, shape: real -> real)
    requires c < |data|
    ensures ProcessedChannels(data, c, preGain, postGain, shape)[c := Shaped(data[c], preGain, postGain, shape)] ==
            ProcessedChannels(data, c + 1, preGain, postGain, shape)
  {
  }

  /** Counts at or beyond the number of channels all shape every channel. */
  lemma ProcessedChannelsSaturate(data: seq<seq<real>>, processed: nat, count: nat, preGain: real,
                                  postGain: real, shape: real -> real)
    requires processed <= |data| && processed <= count
    requires processed == |data| || processed == count
    ensures ProcessedChannels(data, processed, preGain, postGain, shape) ==
            ProcessedChannels(data, count, preGain, postGain, shape)
  {
  }

  /** Taking one more channel folds its pre-gained samples into the block extrema. */
  lemma ChannelStep(data: seq<seq<real>>, c: nat, gain: real, startMax: real, startMin: real)
    requires c < |data|
    ensures BlockMax(startMax, GainedChannels(data, c + 1, gain)) ==
            RunningMax(BlockMax(startMax, GainedChannels(data, c, gain)), PreGained(data[c], gain))
    ensures BlockMin(startMin, GainedChannels(data, c + 1, gain)) ==
            RunningMin(BlockMin(startMin, GainedChannels(data, c, gain)), PreGained(data[c], gain))
  {
    var longer := GainedChannels(data, c + 1, gain);
    assert longer[..c] == GainedChannels(data, c, gain);
  }

  /** Counts at or beyond the number of channels all take every channel. */
  lemma GainedChannelsSaturate(data: seq<seq<real>>, processed: nat, count: nat, gain: real)
    requires processed <= |data| && processed <= count
    requires processed == |data| || processed == count
    ensures GainedChannels(data, processed, gain) == GainedChannels(data, count, gain)
  {
  }

  /** A running maximum is at least its start and every sample, and is one of them. */
  lemma {:induction false} RunningMaxBounds(start: real, samples: seq<real>)
    ensures RunningMax(start, samples) >= start
    ensures forall i :: 0 <= i < |samples| ==> samples[i] <= RunningMax(start, samples)
    ensures RunningMax(start, samples) == start || RunningMax(start, samples) in samples
  {
    if samples != [] {
      var init := samples[..|samples| - 1];
      RunningMaxBounds(start, init);
      assert forall i :: 0 <= i < |init| ==> samples[i] == init[i];
    }
  }

  /** A running minimum is at most its start and every sample, and is one of them. */
  lemma {:induction false} RunningMinBounds(start: real, samples: seq<real>)
    ensures RunningMin(start, samples) <= start
    ensures forall i :: 0 <= i < |samples| ==> RunningMin(start, samples) <= samples[i]
    ensures RunningMin(start, samples) == start || RunningMin(start, samples) in samples
  {
    if samples != [] {
      var init := samples[..|samples| - 1];
      RunningMinBounds(start, init);
      assert forall i :: 0 <= i < |init| ==> samples[i] == init[i];
    }
  }

  /**
   * The block maximum bounds every sample of every channel and is either
   * the start value or one of the samples.
   */
  lemma {:induction false} BlockMaxBounds(start: real, channels: seq<seq<real>>)
    ensures BlockMax(start, channels) >= start
    ensures forall c, i :: 0 <= c < |channels| && 0 <= i < |channels[c]| ==>
      channels[c][i] <= BlockMax(start, channels)
    ensures BlockMax(start, channels) == start ||
            exists c :: 0 <= c < |channels| && BlockMax(start, channels) in channels[c]
  {
    if channels != [] {
      var init := channels[..|channels| - 1];
      var last := channels[|channels| - 1];
      BlockMaxBounds(start, init);
      RunningMaxBounds(BlockMax(start, init), last);
      assert forall c :: 0 <= c < |init| ==> channels[c] == init[c];
    }
  }

  /**
   * The block minimum bounds every sample of every channel from below and
   * is either the start value or one of the samples.
   */
  lemma {:induction false} BlockMinBounds(start: real, channels: seq<seq<real>>)
    ensures BlockMin(start, channels) <= start
    ensures forall c, i :: 0 <= c < |channels| && 0 <= i < |channels[c]| ==>
      BlockMin(start, channels) <= channels[c][i]
    ensures BlockMin(start, channels) == start ||
            exists c :: 0 <= c < |channels| && BlockMin(start, channels) in channels[c]
  {
    if channels != [] {
      var init := channels[..|channels| - 1];
      var last := channels[|channels| - 1];
      BlockMinBounds(start, init);
      RunningMinBounds(BlockMin(start, init), last);
      assert forall c :: 0 <= c < |init| ==> channels[c] == init[c];
    }
  }

  /**
   * Started at f32::MIN, the block maximum of a block with at least one
   * sample, all of them in the f32 range, is one of those samples.
   */
  lemma BlockMaxIsASample(channels: seq<seq<real>>, c0: nat, i0: nat)
    requires c0 < |channels| && i0 < |channels[c0]|
    requires forall c, i :: 0 <= c < |channels| && 0 <= i < |channels[c]| ==> MIN <= channels[c][i]
    ensures exists c :: 0 <= c < |channels| && BlockMax(MIN, channels) in channels[c]
  {
    BlockMaxBounds(MIN, channels);
    if BlockMax(MIN, channels) == MIN {
      assert channels[c0][i0] == MIN;
      assert BlockMax(MIN, channels) in channels[c0];
    }
  }

  /**
   * Started at f32::MAX, the block minimum of a block with at least one
   * sample, all of them in the f32 range, is one of those samples.
   */
  lemma BlockMinIsASample(channels: seq<seq<real>>, c0: nat, i0: nat)
    requires c0 < |channels| && i0 < |channels[c0]|
    requires forall c, i :: 0 <= c < |channels| && 0 <= i < |channels[c]| ==> channels[c][i] <= MAX
    ensures exists c :: 0 <= c < |channels| && BlockMin(MAX, channels) in channels[c]
  {
    BlockMinBounds(MAX, channels);
    if BlockMin(MAX, channels) == MAX {
      assert channels[c0][i0] == MAX;
      assert BlockMin(MAX, channels) in channels[c0];
    }
  }

  /** A block without samples leaves the running extrema at f32::MIN and f32::MAX. */
  lemma {:induction false} EmptyBlockExtrema(channels: seq<seq<real>>)
    requires forall c :: 0 <= c < |channels| ==> channels[c] == []
    ensures BlockMax(MIN, channels) == MIN
    ensures BlockMin(MAX, channels) == MAX
  {
    if channels != [] {
      EmptyBlockExtrema(channels[..|channels| - 1]);
    }
  }

  /** With no samples, both stored peaks (inside the f32 range) simply decay. */
  lemma EmptyBlockDecays(channels: seq<seq<real>>, oldMax: real, oldMin: real, decayParam: real)
    requires forall c :: 0 <= c < |channels| ==> channels[c] == []
    requires MIN <= oldMax <= MAX && MIN <= oldMin <= MAX
    requires 0.0 <= decayParam <= 3.0
    ensures NextPeakMax(BlockMax(MIN, channels), oldMax, Decay(decayParam)) == Decayed(oldMax, Decay(decayParam))
    ensures NextPeakMin(BlockMin(MAX, channels), oldMin, Decay(decayParam)) == Decayed(oldMin, Decay(decayParam))
  {
    EmptyBlockExtrema(channels);
  }

  /** Decaying by at most three percent keeps the sign and never grows the magnitude. */
  lemma DecayFactorScaling(p: real, decay: real)
    requires 0.0 <= decay <= 0.03
    ensures p >= 0.0 ==> 0.97 * p <= Decayed(p, decay) <= p
    ensures p <= 0.0 ==> p <= Decayed(p, decay) <= 0.97 * p
  {
    var f := 1.0 - decay;
    var q := if p >= 0.0 then p else -p;
    NonNegativeProduct(q, f - 0.97);
    NonNegativeProduct(q, 1.0 - f);
    assert Decayed(p, decay) == p * f;
    assert q * (f - 0.97) == q * f - 0.97 * q;
    assert q * (1.0 - f) == q - q * f;
  }

  /**
   * When the block does not set a new maximum, the stored maximum keeps
   * its sign and shrinks in magnitude by at most three percent.
   */
  lemma DecayedPeakMax(blockMax: real, oldMax: real, decayParam: real)
    requires 0.0 <= decayParam <= 3.0
    requires blockMax <= oldMax
    ensures var r := NextPeakMax(blockMax, oldMax, Decay(decayParam));
      (oldMax >= 0.0 ==> 0.97 * oldMax <= r <= oldMax) &&
      (oldMax <= 0.0 ==> oldMax <= r <= 0.97 * oldMax)
  {
    DecayFactorScaling(oldMax, Decay(decayParam));
  }

  /**
   * When the block does not set a new minimum, the stored minimum keeps
   * its sign and shrinks in magnitude by at most three percent.
   */
  lemma DecayedPeakMin(blockMin: real, oldMin: real, decayParam: real)
    requires 0.0 <= decayParam <= 3.0
    requires oldMin <= blockMin
    ensures var r := NextPeakMin(blockMin, oldMin, Decay(decayParam));
      (oldMin >= 0.0 ==> 0.97 * oldMin <= r <= oldMin) &&
      (oldMin <= 0.0 ==> oldMin <= r <= 0.97 * oldMin)
  {
    DecayFactorScaling(oldMin, Decay(decayParam));
  }

  /**
   * The rule compares the block maximum with the undecayed stored maximum,
   * so a block maximum between the decayed and the undecayed value is lost:
   * the new stored maximum is then below the block's own maximum.
   */
  lemma PeakMaxCanUndershootBlock(blockMax: real, oldMax: real, decay: real)
    requires Decayed(oldMax, decay) < blockMax <= oldMax
    ensures NextPeakMax(blockMax, oldMax, decay) < blockMax
  {
  }
}
