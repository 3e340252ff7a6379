/**
 * The oscillator bank of one note: which harmonics of the synthesizer's
 * harmonic table get an oscillator, at what frequency and wave shape, and
 * how the `hammer` technique re-shapes their gains.
 */
module Voice {
  import opened Options

  datatype Wave = Sawtooth | Sine

  /** One oscillator of the bank: the harmonic it plays (0 is the
      fundamental), its frequency, wave shape and gain. */
  datatype Partial = Partial(harmonic: nat, frequency: real, wave: Wave, amplitude: real)

  /** Harmonics at or below this amplitude get no oscillator. */
  const Audible: real := 0.01

  /** The synthesizer's harmonic table before any change of parameters. */
  const DefaultHarmonics: seq<real> := [1.0, 0.5, 0.25, 0.15, 0.1, 0.05]

  /** The oscillator for harmonic `k` of a note at `frequency`: only the
      fundamental sounds at the note's own frequency, as a sawtooth, and
      every overtone lies above it. */
  function PartialFor(k: nat, frequency: real, amplitude: real): (p: Partial)
    ensures p.harmonic == k && p.amplitude == amplitude
    ensures p.frequency == frequency * (k as real + 1.0)
    ensures p.wave == Sawtooth <==> k == 0
    ensures frequency > 0.0 ==> p.frequency >= frequency && (p.frequency == frequency <==> k == 0)
  {
    assert frequency * (k as real + 1.0) - frequency == frequency * (k as real);
    Partial(k, frequency * (k as real + 1.0), if k == 0 then Sawtooth else Sine, amplitude)
  }

  /** The oscillators created for a note, in the order of the table. */
  function Partials(harmonics: seq<real>, frequency: real): (ps: seq<Partial>)
    ensures |ps| <= |harmonics|
  {
    if harmonics == [] then []
    else
      var k := |harmonics| - 1;
      Partials(harmonics[..k], frequency)
        + (if harmonics[k] > Audible then [PartialFor(k, frequency, harmonics[k])] else [])
  }

  /** The loop of the oscillator builder: one pass over the table. */
  method SelectPartials(harmonics: seq<real>, frequency: real) returns (ps: seq<Partial>)
    ensures ps == Partials(harmonics, frequency)
  {
    ps := [];
    var k := 0;
    while k < |harmonics|
      invariant 0 <= k <= |harmonics|
      invariant ps == Partials(harmonics[..k], frequency)
    {
      assert harmonics[..k + 1][..k] == harmonics[..k];
      if harmonics[k] > Audible {
        ps := ps + [PartialFor(k, frequency, harmonics[k])];
      }
      k := k + 1;
    }
    assert harmonics[..k] == harmonics;
  }

  /** Every oscillator plays an audible harmonic of the table, at that
      harmonic's multiple of the note frequency and with its amplitude; only
      the fundamental is a sawtooth. */
  lemma {:induction false} PartialsSound(harmonics: seq<real>, frequency: real, j: nat)
    requires j < |Partials(harmonics, frequency)|
    ensures var p := Partials(harmonics, frequency)[j];
      p.harmonic < |harmonics| && harmonics[p.harmonic] > Audible && p == PartialFor(p.harmonic, frequency, harmonics[p.harmonic])
    decreases |harmonics|
  {
    var k := |harmonics| - 1;
    var init := Partials(harmonics[..k], frequency);
    if j < |init| {
      PartialsSound(harmonics[..k], frequency, j);
    }
  }

  /** Every audible harmonic of the table gets an oscillator. */
  lemma {:induction false} PartialsComplete(harmonics: seq<real>, frequency: real, k: nat)
    requires k < |harmonics| && harmonics[k] > Audible
    ensures exists j :: 0 <= j < |Partials(harmonics, frequency)| && Partials(harmonics, frequency)[j].harmonic == k
    decreases |harmonics|
  {
    var n := |harmonics| - 1;
    var init := Partials(harmonics[..n], frequency);
    var ps := Partials(harmonics, frequency);
    if k == n {
      assert ps[|init|].harmonic == k;
    } else {
      PartialsComplete(harmonics[..n], frequency, k);
      var j :| 0 <= j < |init| && init[j].harmonic == k;
      assert ps[j] == init[j];
    }
  }

  /** The oscillators follow the order of the table, one per harmonic. */
  lemma {:induction false} PartialsOrdered(harmonics: seq<real>, frequency: real, i: nat, j: nat)
    requires i < j < |Partials(harmonics, frequency)|
    ensures Partials(harmonics, frequency)[i].harmonic < Partials(harmonics, frequency)[j].harmonic
    decreases |harmonics|
  {
    var n := |harmonics| - 1;
    var init := Partials(harmonics[..n], frequency);
    if j < |init| {
      PartialsOrdered(harmonics[..n], frequency, i, j);
    } else {
      PartialsSound(harmonics[..n], frequency, i);
    }
  }

  /** With the default table all six harmonics sound: a sawtooth fundamental
      and five sine overtones. */
  lemma {:induction false} DefaultBankIsFull(frequency: real)
    ensures |Partials(DefaultHarmonics, frequency)| == 6
    ensures forall j :: 0 <= j < 6 ==> Partials(DefaultHarmonics, frequency)[j].harmonic == j
  {
    var h := DefaultHarmonics;
    AllAudibleKeepsAll(h, frequency);
  }

  /** A table whose harmonics are all audible gets one oscillator per entry,
      in place. */
  lemma {:induction false} AllAudibleKeepsAll(harmonics: seq<real>, frequency: real)
    requires forall k :: 0 <= k < |harmonics| ==> harmonics[k] > Audible
    ensures |Partials(harmonics, frequency)| == |harmonics|
    ensures forall j :: 0 <= j < |harmonics| ==>
      Partials(harmonics, frequency)[j] == PartialFor(j, frequency, harmonics[j])
    decreases |harmonics|
  {
    if harmonics != [] {
      var n := |harmonics| - 1;
      AllAudibleKeepsAll(harmonics[..n], frequency);
    }
  }

  // ---------------------------------------------------------------------------
  // The hammer technique

  /** A gain that starts at `start` and ramps to `target` in 0.1 s. */
  datatype Envelope = Envelope(start: real, target: real)

  /** The hammer technique as written: every oscillator but the first gets
      its gain from the table entry at the oscillator's own position in the
      bank, not at the harmonic it plays. */
  function HammerAsWritten(harmonics: seq<real>, bank: seq<Partial>): (gains: seq<Option<Envelope>>)
    requires |bank| <= |harmonics|
    ensures |gains| == |bank|
    ensures forall j :: 0 <= j < |bank| ==> (gains[j].None? <==> j == 0)
  {
    seq(|bank|, j requires 0 <= j < |bank| =>
      if j > 0 then Some(Envelope(harmonics[j] * 1.5, harmonics[j])) else None)
  }

  /** Once a quiet harmonic has been skipped, the written hammer turns an
      overtone down instead of up: with the table [1.0, 0.005, 0.5] the bank
      holds the fundamental and the third harmonic (amplitude 0.5), and the
      hammer ramps the third harmonic to 0.005. */
  lemma {:induction false} HammerAsWrittenMisreadsBank()
    ensures var h := [1.0, 0.005, 0.5];
      var bank := Partials(h, 220.0);
      |bank| == 2 && bank[1].harmonic == 2 && bank[1].amplitude == 0.5
      && HammerAsWritten(h, bank)[1] == Some(Envelope(0.0075, 0.005))
  {
    var h := [1.0, 0.005, 0.5];
    assert h[..2][..1] == [1.0];
    assert h[..1][..0] == [];
    assert Partials(h[..1], 220.0) == [PartialFor(0, 220.0, 1.0)];
    assert Partials(h[..2], 220.0) == [PartialFor(0, 220.0, 1.0)];
  }

  /** The hammer technique as meant: every overtone in the bank starts at
      one and a half times its own amplitude and ramps back to it; the
      fundamental is left alone. */
  function Hammer(bank: seq<Partial>): (gains: seq<Option<Envelope>>)
    ensures |gains| == |bank|
  {
    seq(|bank|, j requires 0 <= j < |bank| =>
      if bank[j].harmonic > 0 then Some(Envelope(bank[j].amplitude * 1.5, bank[j].amplitude)) else None)
  }

  /** On any bank built from a table, the hammer emphasises each overtone
      by half its own amplitude and settles back on it, so no overtone ends
      quieter than the table says. */
  lemma {:induction false} HammerEmphasises(harmonics: seq<real>, frequency: real, j: nat)
    requires j < |Partials(harmonics, frequency)|
    ensures var p := Partials(harmonics, frequency)[j];
      var g := Hammer(Partials(harmonics, frequency))[j];
      (g.Some? <==> p.harmonic > 0)
      && p.harmonic < |harmonics|
      && (g.Some? ==> g.value.target == harmonics[p.harmonic] && g.value.start > g.value.target > Audible)
  {
    PartialsSound(harmonics, frequency, j);
  }

  /** The written hammer agrees with the meant one whenever no harmonic is
      skipped, which is the case for the default table. */
  lemma {:induction false} HammerAgreesOnFullBank(harmonics: seq<real>, frequency: real)
    requires forall k :: 0 <= k < |harmonics| ==> harmonics[k] > Audible
    ensures HammerAsWritten(harmonics, Partials(harmonics, frequency)) == Hammer(Partials(harmonics, frequency))
  {
    AllAudibleKeepsAll(harmonics, frequency);
  }
}
