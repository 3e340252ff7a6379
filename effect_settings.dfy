/**
 * The arithmetic that turns the knob values of an effect record into the
 * numbers fed to its audio graph when an `update...Settings` routine runs.
 * Knobs are exact reals here; the graph calls themselves are not modelled.
 */
module EffectSettings {
  import opened EffectTable

  /** Each settings routine returns at once unless the record holds its
      graph: the EQ looks under `nodes`, every other effect under `node`. */
  predicate SettingsApply(e: EffectName, r: Record) {
    if e == Eq then Holds(r, Nodes) else Holds(r, Node)
  }

  /** Once the graphs are attached, every effect's settings routine acts,
      including the EQ's, even though the EQ is never routed. */
  lemma {:induction false} AttachedSettingsApply(t: Table, e: EffectName)
    requires e in t
    ensures e in Attach(t) && SettingsApply(e, Attach(t)[e])
  {
  }

  // ---------------------------------------------------------------------------
  // Delay

  /** Seconds the delay line is created to hold. */
  const DelayLine: real := 1.0

  /** Delay time in seconds from the knob in milliseconds; every knob value
      from 0 to 1000 ms fits in the delay line. */
  function DelaySeconds(timeMs: real): (s: real)
    ensures s * 1000.0 == timeMs
    ensures 0.0 <= timeMs <= 1000.0 ==> 0.0 <= s <= DelayLine
  {
    timeMs / 1000.0
  }

  /** Turning the time knob up lengthens the delay, never past the line. */
  lemma {:induction false} DelayFitsLine(time1: real, time2: real)
    requires 0.0 <= time1 <= time2 <= 1000.0
    ensures 0.0 <= DelaySeconds(time1) <= DelaySeconds(time2) <= DelayLine
  {
  }

  /** Gain of a feedback loop from a percentage knob (delay, phaser,
      flanger); a knob below 100 keeps the loop gain below one. */
  function FeedbackGain(percent: real): (g: real)
    ensures g * 100.0 == percent
    ensures 0.0 <= percent < 100.0 ==> 0.0 <= g < 1.0
  {
    percent / 100.0
  }

  /** Level of the `n`-th repeat of a sound sent round a loop of gain `g`:
      each pass through the delay goes through the feedback gain once. */
  function Echo(g: real, n: nat): real {
    if n == 0 then 1.0 else g * Echo(g, n - 1)
  }

  /** With a feedback knob strictly between 0 and 100 every repeat is still
      heard but is quieter than the one before, so the repeats die away. */
  lemma {:induction false} FeedbackDecays(percent: real, n: nat)
    requires 0.0 < percent < 100.0
    ensures 0.0 < Echo(FeedbackGain(percent), n + 1) < Echo(FeedbackGain(percent), n) <= 1.0
    decreases n
  {
    var g := FeedbackGain(percent);
    if n == 0 {
      assert Echo(g, 1) == g * Echo(g, 0) == g;
    } else {
      FeedbackDecays(percent, n - 1);
      var e := Echo(g, n);
      assert Echo(g, n + 1) == g * e;
      assert 0.0 < g * e by {
        assert 0.0 < g && 0.0 < e;
      }
      assert g * e < e by {
        assert e - g * e == (1.0 - g) * e;
        assert 0.0 < (1.0 - g) * e;
      }
    }
  }

  datatype Levels = Levels(wet: real, dry: real)

  /** Wet and dry levels of the delay from its mix knob. */
  function DelayLevels(mix: real): (l: Levels)
    ensures l.wet * 100.0 == mix
    ensures l.wet + l.dry == 1.0
  {
    var wet := mix / 100.0;
    Levels(wet, 1.0 - wet)
  }

  /** For a mix knob in [0, 100] both levels are in [0, 1], and turning the
      knob up moves level from the dry path to the wet one. */
  lemma {:induction false} DelayLevelsBounded(mix1: real, mix2: real)
    requires 0.0 <= mix1 <= mix2 <= 100.0
    ensures 0.0 <= DelayLevels(mix1).wet <= DelayLevels(mix2).wet <= 1.0
    ensures 1.0 >= DelayLevels(mix1).dry >= DelayLevels(mix2).dry >= 0.0
  {
  }

  /** Scaling a non-negative amount by a fraction in [0, 1] cannot enlarge it. */
  lemma {:induction false} ScaleWithin(x: real, f: real)
    ensures 0.0 <= x && 0.0 <= f <= 1.0 ==> 0.0 <= x * f <= x
  {
    if 0.0 <= x && 0.0 <= f <= 1.0 {
      assert x - x * f == x * (1.0 - f);
      assert 0.0 <= x * (1.0 - f);
    }
  }

  // ---------------------------------------------------------------------------
  // Distortion

  /** Gain in front of the wave shaper: the drive knob in [0, 100] never
      attenuates and at most doubles the signal. */
  function PreGain(gain: real): (g: real)
    ensures (g - 1.0) * 100.0 == gain
    ensures 0.0 <= gain <= 100.0 ==> 1.0 <= g <= 2.0
  {
    1.0 + gain / 100.0
  }

  /** Cutoff of the tone filter in Hz: the tone knob in [0, 100] keeps it
      within [500, 3500] Hz. */
  function ToneCutoff(tone: real): (hz: real)
    ensures (hz - 500.0) * 100.0 == tone * 3000.0
    ensures 0.0 <= tone <= 100.0 ==> 500.0 <= hz <= 3500.0
  {
    500.0 + (tone / 100.0) * 3000.0
  }

  /** The knob value that gives a cutoff: the inverse of `ToneCutoff`. */
  function ToneFor(hz: real): (tone: real)
    ensures ToneCutoff(tone) == hz
  {
    (hz - 500.0) / 30.0
  }

  /** Turning the drive knob up never lowers the pre-gain. */
  lemma {:induction false} PreGainBounded(gain1: real, gain2: real)
    requires 0.0 <= gain1 <= gain2 <= 100.0
    ensures 1.0 <= PreGain(gain1) <= PreGain(gain2) <= 2.0
  {
  }

  /** The tone knob sweeps the cutoff strictly upwards. */
  lemma {:induction false} ToneCutoffBounded(tone1: real, tone2: real)
    requires 0.0 <= tone1 < tone2 <= 100.0
    ensures 500.0 <= ToneCutoff(tone1) < ToneCutoff(tone2) <= 3500.0
  {
  }

  /** Different knob values give different cutoffs. */
  lemma {:induction false} ToneCutoffInjective(tone1: real, tone2: real)
    requires ToneCutoff(tone1) == ToneCutoff(tone2)
    ensures tone1 == tone2
  {
  }

  // ---------------------------------------------------------------------------
  // Chorus

  /** Seconds the chorus delay line is created to hold. */
  const ChorusLine: real := 0.05

  /** Depth of the chorus delay modulation in seconds: a depth knob in
      [0, 100] swings the delay by at most 2 ms. */
  function ChorusDepth(depth: real): (s: real)
    ensures s * 50000.0 == depth
    ensures 0.0 <= depth <= 100.0 ==> 0.0 <= s <= 0.002
  {
    0.002 * (depth / 100.0)
  }

  /** Turning the depth knob up widens the swing, which stays well inside
      the chorus line. */
  lemma {:induction false} ChorusDepthBounded(depth1: real, depth2: real)
    requires 0.0 <= depth1 <= depth2 <= 100.0
    ensures 0.0 <= ChorusDepth(depth1) <= ChorusDepth(depth2) < ChorusLine
  {
  }

  // ---------------------------------------------------------------------------
  // Wah

  /** How far the sweep oscillator moves the band-pass centre, in Hz: with
      auto-sweep off it stays put, and with a sensitivity knob in [0, 100]
      it moves by at most half the centre frequency. */
  function WahSweepDepth(frequency: real, sensitivity: real, autoSweep: bool): (hz: real)
    ensures !autoSweep ==> hz == 0.0
    ensures autoSweep ==> hz * 200.0 == frequency * sensitivity
    ensures 0.0 <= frequency && 0.0 <= sensitivity <= 100.0 ==> 0.0 <= hz <= frequency * 0.5
  {
    if autoSweep then
      ScaleWithin(frequency * 0.5, sensitivity / 100.0);
      frequency * 0.5 * (sensitivity / 100.0)
    else 0.0
  }

  /** Turning the sensitivity knob up never narrows the sweep. */
  lemma {:induction false} WahSweepGrows(frequency: real, sensitivity1: real, sensitivity2: real, autoSweep: bool)
    requires 0.0 <= frequency && 0.0 <= sensitivity1 <= sensitivity2 <= 100.0
    ensures WahSweepDepth(frequency, sensitivity1, autoSweep) <= WahSweepDepth(frequency, sensitivity2, autoSweep)
  {
    if autoSweep {
      var half := frequency * 0.5;
      assert WahSweepDepth(frequency, sensitivity2, autoSweep) - WahSweepDepth(frequency, sensitivity1, autoSweep)
        == half * ((sensitivity2 - sensitivity1) / 100.0);
      assert 0.0 <= half * ((sensitivity2 - sensitivity1) / 100.0);
    }
  }

  // ---------------------------------------------------------------------------
  // Phaser

  /** Depth of the all-pass frequency modulation in Hz: a depth knob in
      [0, 100] swings by at most the lowest stage's base frequency. */
  function PhaserDepth(depth: real): (hz: real)
    ensures hz / 2.0 == depth
    ensures 0.0 <= depth <= 100.0 ==> 0.0 <= hz <= AllpassBase(0) as real
  {
    depth * 2.0
  }

  /** The base frequency of the `i`-th of the phaser's all-pass filters. */
  function AllpassBase(i: nat): (hz: int)
    ensures hz >= 200 && (hz - 200) % 300 == 0
  {
    200 + i * 300
  }

  /** Number of all-pass filters in the phaser. */
  const AllpassCount: nat := 6

  /** The phaser's all-pass filters, in the order they are chained. */
  method PhaserAllpassFrequencies() returns (bases: seq<int>)
    ensures |bases| == AllpassCount
    ensures forall i :: 0 <= i < |bases| ==> bases[i] == AllpassBase(i)
  {
    bases := [];
    var i := 0;
    while i < AllpassCount
      invariant 0 <= i <= AllpassCount
      invariant |bases| == i
      invariant forall k :: 0 <= k < i ==> bases[k] == AllpassBase(k)
    {
      bases := bases + [200 + i * 300];
      i := i + 1;
    }
  }

  /** The bases rise strictly along the chain, 300 Hz apart, from 200 Hz to
      1700 Hz. */
  lemma {:induction false} AllpassBasesSpread(i: nat, j: nat)
    requires i < j < AllpassCount
    ensures 200 <= AllpassBase(i) < AllpassBase(j) <= 1700
    ensures AllpassBase(j) - AllpassBase(i) == 300 * (j - i)
  {
  }

  /** The one oscillator modulates every stage's frequency by the same
      amount, so each stage swings within [base - sweep, base + sweep],
      which never reaches below 0 Hz nor above 1900 Hz. */
  lemma {:induction false} PhaserSweepInRange(depth: real, i: nat)
    requires 0.0 <= depth <= 100.0 && i < AllpassCount
    ensures 0.0 <= AllpassBase(i) as real - PhaserDepth(depth)
    ensures AllpassBase(i) as real + PhaserDepth(depth) <= 1900.0
  {
  }

  // ---------------------------------------------------------------------------
  // Flanger

  /** Seconds the flanger delay line is created to hold. */
  const FlangerLine: real := 0.02

  /** Depth of the flanger delay modulation in seconds, from its delay knob
      in milliseconds and its depth knob in percent: with a depth knob in
      [0, 100] the swing never exceeds the delay knob's value in seconds. */
  function FlangerDepth(delayMs: real, depth: real): (s: real)
    ensures s * 100000.0 == delayMs * depth
    ensures 0.0 <= delayMs && 0.0 <= depth <= 100.0 ==> 0.0 <= s <= DelaySeconds(delayMs)
  {
    var seconds, fraction := DelaySeconds(delayMs), depth / 100.0;
    assert fraction * 100.0 == depth;
    assert (seconds * fraction) * 100000.0 == (seconds * 1000.0) * (fraction * 100.0);
    ScaleWithin(seconds, fraction);
    seconds * fraction
  }

  /** With the delay knob up to 20 ms, turning the depth knob up widens the
      swing, which stays within the line the flanger's delay is created with. */
  lemma {:induction false} FlangerDepthBounded(delayMs: real, depth1: real, depth2: real)
    requires 0.0 <= delayMs <= 20.0 && 0.0 <= depth1 <= depth2 <= 100.0
    ensures 0.0 <= FlangerDepth(delayMs, depth1) <= FlangerDepth(delayMs, depth2) <= FlangerLine
  {
    var base := DelaySeconds(delayMs);
    assert FlangerDepth(delayMs, depth2) - FlangerDepth(delayMs, depth1) == base * ((depth2 - depth1) / 100.0);
    ScaleWithin(base, (depth2 - depth1) / 100.0);
  }
}
