/**
 * The time cursor of playback: every note of a solo is scheduled at the sum
 * of the durations before it plus a pause after every phrase (or section),
 * and playing returns where the cursor ends. Times are in seconds; the
 * timers that fire the notes are not modelled.
 */
module Playback {
  import opened Options
  import opened BluesGenerator

  /** Sum of a sequence, added up from the front as the cursor does. */
  function Sum(xs: seq<real>): real {
    if xs == [] then 0.0 else Sum(xs[..|xs| - 1]) + xs[|xs| - 1]
  }

  /** Sum of all the groups' durations. */
  function SumAll(groups: seq<seq<real>>): real {
    if groups == [] then 0.0 else SumAll(groups[..|groups| - 1]) + Sum(groups[|groups| - 1])
  }

  /** Where the cursor stands after the given groups, each followed by its gap. */
  function Elapsed(groups: seq<seq<real>>, gaps: seq<real>): real
    requires |gaps| == |groups|
  {
    if groups == [] then 0.0
    else
      var k := |groups| - 1;
      Elapsed(groups[..k], gaps[..k]) + Sum(groups[k]) + gaps[k]
  }

  /** The start offset of note `n` of group `g`: everything that came before. */
  function StartOf(groups: seq<seq<real>>, gaps: seq<real>, g: nat, n: nat): real
    requires |gaps| == |groups| && g < |groups| && n <= |groups[g]|
  {
    Elapsed(groups[..g], gaps[..g]) + Sum(groups[g][..n])
  }

  /** Start of every note and where the cursor ends. */
  datatype Schedule = Schedule(starts: seq<seq<real>>, total: real)

  /** What the cursor computes: every note's start offset and the total. */
  function Cursor(groups: seq<seq<real>>, gaps: seq<real>): (s: Schedule)
    requires |gaps| == |groups|
    ensures |s.starts| == |groups| && s.total == Elapsed(groups, gaps)
    ensures forall g :: 0 <= g < |groups| ==> |s.starts[g]| == |groups[g]|
    ensures forall g, n :: 0 <= g < |groups| && 0 <= n < |groups[g]| ==> s.starts[g][n] == StartOf(groups, gaps, g, n)
  {
    Schedule(
      seq(|groups|, g requires 0 <= g < |groups| =>
        seq(|groups[g]|, n requires 0 <= n < |groups[g]| => StartOf(groups, gaps, g, n))),
      Elapsed(groups, gaps))
  }

  predicate NonNegative(xs: seq<real>) {
    forall i :: 0 <= i < |xs| ==> xs[i] >= 0.0
  }

  predicate AllNonNegative(groups: seq<seq<real>>) {
    forall g :: 0 <= g < |groups| ==> NonNegative(groups[g])
  }

  // ---------------------------------------------------------------------------
  // The cursor

  /** The inner loop: schedules one group's notes from `at`, returning each
      note's start and where the cursor ends. */
  method ScheduleGroup(durations: seq<real>, at: real) returns (starts: seq<real>, cursor: real)
    ensures |starts| == |durations|
    ensures forall n :: 0 <= n < |durations| ==> starts[n] == at + Sum(durations[..n])
    ensures cursor == at + Sum(durations)
  {
    starts := [];
    cursor := at;
    var n := 0;
    while n < |durations|
      invariant 0 <= n <= |durations|
      invariant |starts| == n
      invariant forall k :: 0 <= k < n ==> starts[k] == at + Sum(durations[..k])
      invariant cursor == at + Sum(durations[..n])
    {
      assert durations[..n + 1][..n] == durations[..n];
      starts := starts + [cursor];
      cursor := cursor + durations[n];
      n := n + 1;
    }
    assert durations[..n] == durations;
  }

  /** The outer loop: every group in turn, then its gap. */
  method RunCursor(groups: seq<seq<real>>, gaps: seq<real>) returns (starts: seq<seq<real>>, total: real)
    requires |gaps| == |groups|
    ensures Schedule(starts, total) == Cursor(groups, gaps)
  {
    starts := [];
    total := 0.0;
    var g := 0;
    while g < |groups|
      invariant 0 <= g <= |groups|
      invariant |starts| == g
      invariant forall k :: 0 <= k < g ==> |starts[k]| == |groups[k]|
      invariant forall k, n :: 0 <= k < g && 0 <= n < |groups[k]| ==> starts[k][n] == StartOf(groups, gaps, k, n)
      invariant total == Elapsed(groups[..g], gaps[..g])
    {
      var groupStarts, cursor := ScheduleGroup(groups[g], total);
      assert groups[..g + 1][..g] == groups[..g] && gaps[..g + 1][..g] == gaps[..g];
      starts := starts + [groupStarts];
      total := cursor + gaps[g];
      g := g + 1;
    }
    assert groups[..g] == groups && gaps[..g] == gaps;
    var spec := Cursor(groups, gaps);
    forall k | 0 <= k < |groups|
      ensures starts[k] == spec.starts[k]
    {
    }
  }

  // ---------------------------------------------------------------------------
  // What the cursor adds up to

  lemma {:induction false} SumNonNegative(xs: seq<real>)
    requires NonNegative(xs)
    ensures Sum(xs) >= 0.0
    decreases |xs|
  {
    if xs != [] {
      SumNonNegative(xs[..|xs| - 1]);
    }
  }

  /** A longer prefix of non-negative durations sums to no less. */
  lemma {:induction false} SumPrefixGrows(xs: seq<real>, i: nat, j: nat)
    requires i <= j <= |xs| && NonNegative(xs)
    ensures Sum(xs[..i]) <= Sum(xs[..j])
    decreases j
  {
    if i < j {
      SumPrefixGrows(xs, i, j - 1);
      assert xs[..j][..j - 1] == xs[..j - 1];
    }
  }

  /** A sequence of `n` copies of `c` sums to `n * c`. */
  lemma {:induction false} SumConstant(xs: seq<real>, c: real)
    requires forall i :: 0 <= i < |xs| ==> xs[i] == c
    ensures Sum(xs) == |xs| as real * c
    decreases |xs|
  {
    if xs != [] {
      SumConstant(xs[..|xs| - 1], c);
    }
  }

  /** The cursor ends at the sum of all durations plus the sum of all gaps. */
  lemma {:induction false} ElapsedSplits(groups: seq<seq<real>>, gaps: seq<real>)
    requires |gaps| == |groups|
    ensures Elapsed(groups, gaps) == SumAll(groups) + Sum(gaps)
    decreases |groups|
  {
    if groups != [] {
      var k := |groups| - 1;
      ElapsedSplits(groups[..k], gaps[..k]);
    }
  }

  /** With the same pause after every group, the cursor ends at the sum of
      all durations plus one pause per group. */
  lemma {:induction false} ConstantGapTotal(groups: seq<seq<real>>, gaps: seq<real>, pause: real)
    requires |gaps| == |groups|
    requires forall k :: 0 <= k < |gaps| ==> gaps[k] == pause
    ensures Elapsed(groups, gaps) == SumAll(groups) + |groups| as real * pause
  {
    ElapsedSplits(groups, gaps);
    SumConstant(gaps, pause);
  }

  lemma {:induction false} SumAllNonNegative(groups: seq<seq<real>>)
    requires AllNonNegative(groups)
    ensures SumAll(groups) >= 0.0
    decreases |groups|
  {
    if groups != [] {
      SumAllNonNegative(groups[..|groups| - 1]);
      SumNonNegative(groups[|groups| - 1]);
    }
  }

  /** With non-negative pauses the cursor ends no earlier than the notes
      alone would take. */
  lemma {:induction false} TotalCoversNotes(groups: seq<seq<real>>, gaps: seq<real>)
    requires |gaps| == |groups| && NonNegative(gaps)
    ensures Elapsed(groups, gaps) >= SumAll(groups)
  {
    ElapsedSplits(groups, gaps);
    SumNonNegative(gaps);
  }

  /** With non-negative durations and pauses, the cursor after more groups
      stands no earlier. */
  lemma {:induction false} ElapsedPrefixGrows(groups: seq<seq<real>>, gaps: seq<real>, i: nat, j: nat)
    requires |gaps| == |groups| && i <= j <= |groups|
    requires AllNonNegative(groups) && NonNegative(gaps)
    ensures Elapsed(groups[..i], gaps[..i]) <= Elapsed(groups[..j], gaps[..j])
    decreases j
  {
    if i < j {
      ElapsedPrefixGrows(groups, gaps, i, j - 1);
      assert groups[..j][..j - 1] == groups[..j - 1] && gaps[..j][..j - 1] == gaps[..j - 1];
      SumNonNegative(groups[j - 1]);
    }
  }

  /** With non-negative durations, the cursor after a whole group stands no
      earlier than any note of it starts. */
  lemma {:induction false} StartWithinGroup(groups: seq<seq<real>>, gaps: seq<real>, g: nat, n: nat)
    requires |gaps| == |groups| && AllNonNegative(groups) && NonNegative(gaps)
    requires g < |groups| && n <= |groups[g]|
    ensures StartOf(groups, gaps, g, n) <= Elapsed(groups[..g + 1], gaps[..g + 1])
  {
    SumPrefixGrows(groups[g], n, |groups[g]|);
    assert groups[g][..|groups[g]|] == groups[g];
    assert groups[..g + 1][..g] == groups[..g] && gaps[..g + 1][..g] == gaps[..g];
  }

  /** With non-negative durations and pauses every note starts by the
      returned total. */
  lemma {:induction false} StartWithinTotal(groups: seq<seq<real>>, gaps: seq<real>, g: nat, n: nat)
    requires |gaps| == |groups| && AllNonNegative(groups) && NonNegative(gaps)
    requires g < |groups| && n <= |groups[g]|
    ensures StartOf(groups, gaps, g, n) <= Elapsed(groups, gaps)
  {
    StartWithinGroup(groups, gaps, g, n);
    ElapsedPrefixGrows(groups, gaps, g + 1, |groups|);
    assert groups[..|groups|] == groups && gaps[..|gaps|] == gaps;
  }

  /** With non-negative durations and pauses, start offsets never go back:
      a note scheduled later in the solo starts no earlier. */
  lemma {:induction false} StartsNondecreasing(groups: seq<seq<real>>, gaps: seq<real>, g1: nat, n1: nat, g2: nat, n2: nat)
    requires |gaps| == |groups| && AllNonNegative(groups) && NonNegative(gaps)
    requires g1 < |groups| && n1 <= |groups[g1]| && g2 < |groups| && n2 <= |groups[g2]|
    requires g1 < g2 || (g1 == g2 && n1 <= n2)
    ensures StartOf(groups, gaps, g1, n1) <= StartOf(groups, gaps, g2, n2)
  {
    if g1 == g2 {
      SumPrefixGrows(groups[g1], n1, n2);
    } else {
      StartWithinGroup(groups, gaps, g1, n1);
      ElapsedPrefixGrows(groups, gaps, g1 + 1, g2);
      SumNonNegative(groups[g2][..n2]);
    }
  }

  // ---------------------------------------------------------------------------
  // Solos and progressions

  /** Length of one beat in seconds at a tempo, stretched by the playback
      speed factor: `tempo` beats take `60 * speed` seconds, and a positive
      tempo and speed give beats of positive length. */
  function BeatDuration(tempo: int, speed: real): (beat: real)
    requires tempo != 0
    ensures beat * (tempo as real) == 60.0 * speed
    ensures tempo > 0 && speed >= 0.0 ==> beat >= 0.0
    ensures tempo > 0 && speed > 0.0 ==> beat > 0.0
  {
    assert tempo > 0 ==> 60.0 / tempo as real > 0.0;
    (60.0 / tempo as real) * speed
  }

  /** Durations that each lie in [lo, hi] add up to between `lo` and `hi`
      per element. */
  lemma {:induction false} SumBetween(xs: seq<real>, lo: real, hi: real)
    requires forall i :: 0 <= i < |xs| ==> lo <= xs[i] <= hi
    ensures |xs| as real * lo <= Sum(xs) <= |xs| as real * hi
    decreases |xs|
  {
    if xs != [] {
      var k := |xs| - 1;
      SumBetween(xs[..k], lo, hi);
      assert |xs| as real * lo == k as real * lo + lo;
      assert |xs| as real * hi == k as real * hi + hi;
    }
  }

  function PhraseDurations(phrase: Phrase): seq<real>
  {
    seq(|phrase.notes|, i requires 0 <= i < |phrase.notes| => phrase.notes[i].note.duration)
  }

  /** The notes of a phrase whose notes last 0.25 to 0.75 seconds each, as
      generated notes do, take between a quarter and three quarters of a
      second per note. */
  lemma {:induction false} PhrasePlayTime(phrase: Phrase)
    requires forall i :: 0 <= i < |phrase.notes| ==> 0.25 <= phrase.notes[i].note.duration <= 0.75
    ensures |phrase.notes| as real * 0.25 <= Sum(PhraseDurations(phrase)) <= |phrase.notes| as real * 0.75
  {
    SumBetween(PhraseDurations(phrase), 0.25, 0.75);
  }

  function SectionDurations(section: Section): seq<real>
  {
    seq(|section.notes|, i requires 0 <= i < |section.notes| => section.notes[i].duration)
  }

  /** The notes of a section whose notes last 0.25 to 0.75 seconds each
      take between a quarter and three quarters of a second per note, so
      a section of `b` beats plays its notes for between `b / 2` and
      `3b / 2` seconds. */
  lemma {:induction false} SectionPlayTime(section: Section)
    requires |section.notes| == section.beats * 2
    requires forall i :: 0 <= i < |section.notes| ==> 0.25 <= section.notes[i].duration <= 0.75
    ensures section.beats as real * 0.5 <= Sum(SectionDurations(section)) <= section.beats as real * 1.5
  {
    SumBetween(SectionDurations(section), 0.25, 0.75);
  }

  /** The notes of a phrase solo, phrase by phrase. */
  function PhraseGroups(phrases: seq<Phrase>): seq<seq<real>>
  {
    seq(|phrases|, k requires 0 <= k < |phrases| => PhraseDurations(phrases[k]))
  }

  /** Half a beat of pause after every phrase: `count` phrases pause for
      `count` half-beats in all, and a non-negative beat never moves the
      cursor back. */
  function PhraseGaps(count: nat, beat: real): (gaps: seq<real>)
    ensures |gaps| == count && forall k :: 0 <= k < count ==> gaps[k] == beat * 0.5
    ensures Sum(gaps) == count as real * (beat * 0.5)
    ensures beat >= 0.0 ==> NonNegative(gaps)
  {
    var gaps := seq(count, k => beat * 0.5);
    SumConstant(gaps, beat * 0.5);
    gaps
  }

  function SectionGroups(sections: seq<Section>): seq<seq<real>>
  {
    seq(|sections|, k requires 0 <= k < |sections| => SectionDurations(sections[k]))
  }

  /** A tenth of the section's beats of pause after every section; a
      non-negative beat never moves the cursor back. */
  function SectionGaps(sections: seq<Section>, beat: real): (gaps: seq<real>)
    ensures |gaps| == |sections|
    ensures forall k :: 0 <= k < |sections| ==> gaps[k] == beat * (sections[k].beats as real) * 0.1
    ensures beat >= 0.0 ==> NonNegative(gaps)
  {
    seq(|sections|, k requires 0 <= k < |sections| =>
      assert beat >= 0.0 ==> beat * (sections[k].beats as real) >= 0.0;
      beat * (sections[k].beats as real) * 0.1)
  }

  /** The beats of every section, in order. */
  function SectionBeats(sections: seq<Section>): seq<real>
  {
    seq(|sections|, k requires 0 <= k < |sections| => sections[k].beats as real)
  }

  /** Scaling every element by `c` scales the sum by `c`. */
  lemma {:induction false} ScaledSum(xs: seq<real>, ys: seq<real>, c: real)
    requires |xs| == |ys| && forall i :: 0 <= i < |xs| ==> xs[i] == c * ys[i]
    ensures Sum(xs) == c * Sum(ys)
    decreases |xs|
  {
    if xs != [] {
      var k := |xs| - 1;
      ScaledSum(xs[..k], ys[..k], c);
      assert c * (Sum(ys[..k]) + ys[k]) == c * Sum(ys[..k]) + c * ys[k];
    }
  }

  /** Pause `k` is the beats of section `k` scaled by a tenth of a beat. */
  lemma {:induction false} SectionGapScaled(sections: seq<Section>, beat: real, k: nat)
    requires k < |sections|
    ensures SectionGaps(sections, beat)[k] == beat * 0.1 * SectionBeats(sections)[k]
  {
    var b := sections[k].beats as real;
    assert beat * b * 0.1 == beat * 0.1 * b;
  }

  /** Every pause is its section's beats scaled by a tenth of a beat. */
  lemma {:induction false} SectionGapsScaled(sections: seq<Section>, beat: real)
    ensures var gaps, bs := SectionGaps(sections, beat), SectionBeats(sections);
      |gaps| == |bs| && forall i :: 0 <= i < |gaps| ==> gaps[i] == beat * 0.1 * bs[i]
  {
    forall i | 0 <= i < |sections|
      ensures SectionGaps(sections, beat)[i] == beat * 0.1 * SectionBeats(sections)[i]
    {
      SectionGapScaled(sections, beat, i);
    }
  }

  /** The chord-change pauses add up to a tenth of a beat per beat of the
      progression. */
  lemma {:induction false} SectionPauses(sections: seq<Section>, beat: real)
    ensures Sum(SectionGaps(sections, beat)) == beat * 0.1 * Sum(SectionBeats(sections))
  {
    SectionGapsScaled(sections, beat);
    ScaledSum(SectionGaps(sections, beat), SectionBeats(sections), beat * 0.1);
  }

  function TempoOf(solo: Solo): int {
    solo.metadata.tempo
  }

  /** The schedule `playSolo` computes. A section solo has no phrases to
      walk, which makes the walk fail. */
  function SoloSchedule(solo: Solo, speed: real): (r: Option<Schedule>)
    requires TempoOf(solo) != 0
    ensures r.None? <==> !solo.PhraseSolo?
    ensures r.Some? ==> |r.value.starts| == |solo.phrases|
  {
    if solo.PhraseSolo? then
      Some(Cursor(PhraseGroups(solo.phrases), PhraseGaps(|solo.phrases|, BeatDuration(TempoOf(solo), speed))))
    else None
  }

  /** The schedule `playProgression` computes. A phrase solo has no
      sections to walk, which makes the walk fail. */
  function ProgressionSchedule(solo: Solo, speed: real): (r: Option<Schedule>)
    requires TempoOf(solo) != 0
    ensures r.None? <==> !solo.SectionSolo?
    ensures r.Some? ==> |r.value.starts| == |solo.sections|
  {
    if solo.SectionSolo? then
      Some(Cursor(SectionGroups(solo.sections), SectionGaps(solo.sections, BeatDuration(TempoOf(solo), speed))))
    else None
  }

  /** The loops of `playSolo`. */
  method ScheduleSolo(solo: Solo, speed: real) returns (r: Option<Schedule>)
    requires TempoOf(solo) != 0
    ensures r == SoloSchedule(solo, speed)
  {
    if !solo.PhraseSolo? {
      return None;
    }
    var beat := BeatDuration(TempoOf(solo), speed);
    var starts, total := RunCursor(PhraseGroups(solo.phrases), PhraseGaps(|solo.phrases|, beat));
    return Some(Schedule(starts, total));
  }

  /** The loops of `playProgression`. */
  method ScheduleProgression(solo: Solo, speed: real) returns (r: Option<Schedule>)
    requires TempoOf(solo) != 0
    ensures r == ProgressionSchedule(solo, speed)
  {
    if !solo.SectionSolo? {
      return None;
    }
    var beat := BeatDuration(TempoOf(solo), speed);
    var starts, total := RunCursor(SectionGroups(solo.sections), SectionGaps(solo.sections, beat));
    return Some(Schedule(starts, total));
  }

  /** A phrase solo plays for the sum of its note durations plus half a
      beat per phrase; at a positive tempo and speed that is at least the
      notes alone. */
  lemma {:induction false} SoloTotal(solo: Solo, speed: real)
    requires solo.PhraseSolo? && TempoOf(solo) != 0
    ensures var beat := BeatDuration(TempoOf(solo), speed);
      var notes := SumAll(PhraseGroups(solo.phrases));
      && SoloSchedule(solo, speed).Some?
      && SoloSchedule(solo, speed).value.total == notes + |solo.phrases| as real * 0.5 * beat
      && (TempoOf(solo) > 0 && speed >= 0.0 ==> SoloSchedule(solo, speed).value.total >= notes)
  {
    var beat := BeatDuration(TempoOf(solo), speed);
    var groups := PhraseGroups(solo.phrases);
    var gaps := PhraseGaps(|solo.phrases|, beat);
    ConstantGapTotal(groups, gaps, beat * 0.5);
    if TempoOf(solo) > 0 && speed >= 0.0 {
      TotalCoversNotes(groups, gaps);
    }
  }

  /** A progression plays for the sum of its note durations plus a tenth of
      a beat per beat of the progression; at a positive tempo and speed
      that is at least the notes alone. */
  lemma {:induction false} ProgressionTotal(solo: Solo, speed: real)
    requires solo.SectionSolo? && TempoOf(solo) != 0
    ensures var beat := BeatDuration(TempoOf(solo), speed);
      var notes := SumAll(SectionGroups(solo.sections));
      && ProgressionSchedule(solo, speed).Some?
      && ProgressionSchedule(solo, speed).value.total == notes + beat * 0.1 * Sum(SectionBeats(solo.sections))
      && (TempoOf(solo) > 0 && speed >= 0.0 ==> ProgressionSchedule(solo, speed).value.total >= notes)
  {
    var beat := BeatDuration(TempoOf(solo), speed);
    var groups := SectionGroups(solo.sections);
    var gaps := SectionGaps(solo.sections, beat);
    assert |groups| == |solo.sections| == |gaps|;
    assert ProgressionSchedule(solo, speed) == Some(Cursor(groups, gaps));
    ElapsedSplits(groups, gaps);
    SectionPauses(solo.sections, beat);
    if TempoOf(solo) > 0 && speed >= 0.0 {
      TotalCoversNotes(groups, gaps);
    }
  }
}
