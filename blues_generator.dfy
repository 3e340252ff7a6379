/** Model of the solo composition engine, `BluesPentatonicGenerator`
    (src/bluesGenerator.js): scales from fixed interval tables, licks by a
    clamped random walk over scale positions, tiled rhythm patterns, and
    phrase-based or chord-progression-based solos.

    Every `Math.random()` call of the JavaScript is an explicit `Draw` input, in
    the order the JavaScript makes the calls, so every generator here is a
    deterministic function of its draws. */
module BluesGenerator {
  import opened Options

  /** A MIDI note number. The key selector only offers non-negative numbers,
      so `midi % 12` means the same here as in the JavaScript. */
  type Pitch = nat

  /** One value returned by `Math.random()`: a real in [0, 1). */
  type Draw = r: real | 0.0 <= r < 1.0 witness 0.0

  datatype Technique = Bend | Slide | Vibrato | Hammer | Pull | Normal
  datatype ReggaeTechnique = Mute | Chop | Upstroke | Downstroke | Normal
  datatype Emphasis = Strong | Medium | Weak
  datatype Chord = I | IV | V
  datatype ChordSlot = ChordSlot(chord: Chord, beats: nat)

  /** The JavaScript dereferences `undefined` (and so throws) for an unknown
      scale type or progression name; the model returns these instead. */
  datatype GeneratorError =
    | UnknownScaleType(scaleType: string)
    | UnknownProgression(progression: string)

  datatype Result<+T> = Success(value: T) | Failure(error: GeneratorError)

  // ---------------------------------------------------------------------------
  // Fixed tables of the generator

  const NoteNames: seq<string> :=
    ["C", "C#", "D", "D#", "E", "F", "F#", "G", "G#", "A", "A#", "B"]

  const Techniques: seq<Technique> :=
    [Bend, Slide, Vibrato, Hammer, Pull, Technique.Normal]

  const ReggaeTechniques: seq<ReggaeTechnique> :=
    [Mute, Chop, Upstroke, Downstroke, ReggaeTechnique.Normal]

  /** Eighth-note hit patterns: straight, syncopated, shuffle, varied, sparse. */
  const RhythmPatterns: seq<seq<nat>> := [
    [1, 0, 1, 0, 1, 0, 1, 0],
    [1, 0, 0, 1, 1, 0, 0, 1],
    [1, 1, 0, 1, 0, 1, 1, 0],
    [1, 0, 1, 1, 0, 1, 0, 0],
    [1, 0, 0, 0, 1, 0, 1, 0]
  ]

  /** Off-beat, skank, one-drop and steppers patterns. */
  const ReggaePatterns: seq<seq<nat>> := [
    [1, 0, 0, 1, 0, 0, 1, 0],
    [0, 1, 0, 0, 0, 1, 0, 0],
    [1, 0, 0, 0, 1, 0, 0, 1],
    [0, 0, 1, 0, 0, 0, 1, 0]
  ]

  const TwelveBar: seq<ChordSlot> := [
    ChordSlot(I, 4), ChordSlot(I, 4), ChordSlot(I, 4), ChordSlot(I, 4),
    ChordSlot(IV, 4), ChordSlot(IV, 4), ChordSlot(I, 4), ChordSlot(I, 4),
    ChordSlot(V, 4), ChordSlot(IV, 4), ChordSlot(I, 4), ChordSlot(V, 4)
  ]

  const EightBar: seq<ChordSlot> := [
    ChordSlot(I, 2), ChordSlot(IV, 2), ChordSlot(I, 2), ChordSlot(V, 2),
    ChordSlot(IV, 2), ChordSlot(I, 2), ChordSlot(V, 2), ChordSlot(I, 2)
  ]

  /** The `pentatonicPatterns` lookup; `None` is the JavaScript's `undefined`. */
  function PentatonicPattern(scaleType: string): Option<seq<nat>> {
    if scaleType == "minor" then Some([0, 3, 5, 7, 10])
    else if scaleType == "major" then Some([0, 2, 4, 7, 9])
    else if scaleType == "blues" then Some([0, 3, 5, 6, 7, 10])
    else None
  }

  /** The `progressions` lookup; `None` is the JavaScript's `undefined`. */
  function Progression(name: string): Option<seq<ChordSlot>> {
    if name == "twelve_bar" then Some(TwelveBar)
    else if name == "eight_bar" then Some(EightBar)
    else None
  }

  // ---------------------------------------------------------------------------
  // Helpers

  predicate StrictlyIncreasing(s: seq<int>) {
    forall i, j :: 0 <= i < j < |s| ==> s[i] < s[j]
  }

  /** Each element below the next one is enough for the whole sequence to
      be strictly increasing. */
  lemma {:induction false} AdjacentIncreasing(s: seq<int>)
    requires forall i :: 0 < i < |s| ==> s[i - 1] < s[i]
    ensures StrictlyIncreasing(s)
  {
    if |s| > 1 {
      AdjacentIncreasing(s[1..]);
      forall j | 0 < j < |s| ensures s[0] < s[j] {
        if j > 1 {
          assert s[1..][0] < s[1..][j - 1];
        }
      }
    }
  }

  /** `noteNames[midi % 12]`. */
  function MidiToNoteName(midi: Pitch): string {
    NoteNames[midi % 12]
  }

  /** Note names repeat every octave. */
  lemma {:induction false} NoteNameRepeatsEachOctave(midi: Pitch)
    ensures MidiToNoteName(midi + 12) == MidiToNoteName(midi)
  {
    assert (midi + 12) % 12 == midi % 12;
  }

  /** `Math.floor(Math.random() * n)`: an index below `n`. */
  function Pick(r: Draw, n: nat): (k: nat)
    requires n > 0
    ensures k < n
  {
    var x := r * n as real;
    assert 0.0 <= x < n as real;
    x.Floor
  }

  // ---------------------------------------------------------------------------
  // Scales

  /** The scale of `scaleType` on `root`: the interval pattern added to the
      root. An unknown scale type is an error. */
  function GenerateScale(root: Pitch, scaleType: string): (r: Result<seq<Pitch>>)
    ensures r.Success? <==> scaleType in {"minor", "major", "blues"}
    ensures r.Failure? ==> r.error == UnknownScaleType(scaleType)
    ensures r.Success? ==>
      && |r.value| == (if scaleType == "blues" then 6 else 5)
      && r.value[0] == root
      && StrictlyIncreasing(r.value)
      && (forall i :: 0 <= i < |r.value| ==> root <= r.value[i] <= root + 10)
    ensures scaleType == "blues" ==> r.Success? && root + 6 in r.value
  {
    match PentatonicPattern(scaleType)
    case None => Failure(UnknownScaleType(scaleType))
    case Some(pattern) =>
      var scale := seq(|pattern|, i requires 0 <= i < |pattern| => root + pattern[i]);
      AdjacentIncreasing(scale);
      assert scaleType == "blues" ==> scale[3] == root + 6;
      Success(scale)
  }

  /** The blues scale on `root`, which the progression generator uses. */
  function BluesScale(root: Pitch): (scale: seq<Pitch>)
    ensures |scale| == 6 && scale[0] == root && StrictlyIncreasing(scale)
    ensures forall i :: 0 <= i < |scale| ==> root <= scale[i] <= root + 10
    ensures root + 6 in scale
  {
    GenerateScale(root, "blues").value
  }

  // ---------------------------------------------------------------------------
  // Licks: a clamped random walk over scale positions

  datatype Note = Note(midi: Pitch, noteName: string, technique: Technique, duration: real)

  /** The four draws `generateLick` makes per note: direction, step size,
      technique and duration, in that order. */
  datatype StepDraws = StepDraws(direction: Draw, step: Draw, technique: Draw, duration: Draw)

  /** The draw for the starting note, then the draws of each note. */
  datatype LickDraws = LickDraws(start: Draw, steps: seq<StepDraws>)

  /** `Array.prototype.indexOf`: the first position of `x`, or -1. */
  function IndexOf(s: seq<Pitch>, x: Pitch): (k: int)
    ensures -1 <= k < |s|
    ensures k == -1 <==> x !in s
    ensures 0 <= k ==> s[k] == x && forall j :: 0 <= j < k ==> s[j] != x
  {
    if s == [] then -1
    else if s[0] == x then 0
    else
      var k := IndexOf(s[1..], x);
      if k == -1 then -1 else k + 1
  }

  /** In a strictly increasing scale every note sits at its own position. */
  lemma {:induction false} IndexOfIncreasing(s: seq<Pitch>, k: nat)
    requires StrictlyIncreasing(s) && k < |s|
    ensures IndexOf(s, s[k]) == k
  {
  }

  /** `Math.max(0, Math.min(hi, x))`: positions are clamped, never wrapped. */
  function Clamp(x: int, hi: nat): (r: nat)
    ensures r <= hi
    ensures x < 0 ==> r == 0
    ensures hi < x ==> r == hi
    ensures 0 <= x <= hi ==> r == x
  {
    var m := if hi < x then hi else x;
    if m < 0 then 0 else m
  }

  /** Up when the direction draw exceeds 0.5, down otherwise. */
  function Direction(d: StepDraws): int {
    if d.direction > 0.5 then 1 else -1
  }

  /** A leap of two positions when the step draw exceeds 0.7, else one. */
  function StepSize(d: StepDraws): nat {
    if d.step > 0.7 then 2 else 1
  }

  /** The scale-position change of one walk step, `direction * stepSize`
      with the direction being 1 or -1. */
  function Move(d: StepDraws): (m: int)
    ensures -2 <= m <= 2 && m != 0
    ensures m > 0 <==> Direction(d) == 1
    ensures m == 2 || m == -2 <==> StepSize(d) == 2
  {
    if Direction(d) == 1 then StepSize(d) else -(StepSize(d) as int)
  }

  /** The note after `current`: one walk step, then a technique and a
      duration of 0.25 + 0.5 r seconds. */
  function NextNote(scale: seq<Pitch>, current: Pitch, d: StepDraws): (n: Note)
    requires |scale| > 0
    ensures n.midi in scale
    ensures n.noteName == NoteNames[n.midi % 12]
    ensures n.technique in Techniques
    ensures 0.25 <= n.duration < 0.75
  {
    var index := Clamp(IndexOf(scale, current) + Move(d), |scale| - 1);
    var midi := scale[index];
    Note(midi, MidiToNoteName(midi), Techniques[Pick(d.technique, |Techniques|)],
         0.25 + d.duration * 0.5)
  }

  /** The note the walk starts from: a uniformly drawn scale member. */
  function StartNote(scale: seq<Pitch>, draws: LickDraws): (start: Pitch)
    requires |scale| > 0
    ensures start in scale
  {
    scale[Pick(draws.start, |scale|)]
  }

  /** The last note played so far, or the start note before the first. */
  function Previous(start: Pitch, notes: seq<Note>): Pitch {
    if notes == [] then start else notes[|notes| - 1].midi
  }

  /** The lick whose walk starts at `start` and takes `steps`. */
  function Lick(scale: seq<Pitch>, start: Pitch, steps: seq<StepDraws>): (lick: seq<Note>)
    requires |scale| > 0
    ensures |lick| == |steps|
    decreases |steps|
  {
    if steps == [] then []
    else
      var before := Lick(scale, start, steps[..|steps| - 1]);
      before + [NextNote(scale, Previous(start, before), steps[|steps| - 1])]
  }

  /** Drawing fewer steps yields a prefix of the same lick. */
  lemma {:induction false} LickPrefix(scale: seq<Pitch>, start: Pitch, steps: seq<StepDraws>, n: nat)
    requires |scale| > 0 && n <= |steps|
    ensures Lick(scale, start, steps[..n]) == Lick(scale, start, steps)[..n]
    decreases |steps|
  {
    if n < |steps| {
      var shorter := steps[..|steps| - 1];
      LickPrefix(scale, start, shorter, n);
      assert shorter[..n] == steps[..n];
    } else {
      assert steps[..n] == steps;
    }
  }

  /** Note `i` of a lick is one walk step from note `i - 1` (from the start
      note when `i == 0`). */
  lemma {:induction false} LickAt(scale: seq<Pitch>, start: Pitch, steps: seq<StepDraws>, i: nat)
    requires |scale| > 0 && i < |steps|
    ensures var lick := Lick(scale, start, steps);
      lick[i] == NextNote(scale, if i == 0 then start else lick[i - 1].midi, steps[i])
  {
    var lick := Lick(scale, start, steps);
    var upto := steps[..i + 1];
    LickPrefix(scale, start, steps, i + 1);
    LickPrefix(scale, start, steps, i);
    assert upto[..|upto| - 1] == steps[..i] && upto[|upto| - 1] == steps[i];
    var before := Lick(scale, start, steps[..i]);
    var next := NextNote(scale, Previous(start, before), steps[i]);
    assert Lick(scale, start, upto) == before + [next];
    assert lick[i] == lick[..i + 1][i] == next;
    if i > 0 {
      assert before[i - 1] == lick[i - 1];
    }
  }

  /** What each note of a lick carries: a scale member with its own name, a
      listed technique chosen by its draw, and a duration in [0.25, 0.75). */
  lemma {:induction false} LickNote(scale: seq<Pitch>, start: Pitch, steps: seq<StepDraws>, i: nat)
    requires |scale| > 0 && i < |steps|
    ensures var n := Lick(scale, start, steps)[i];
      && n.midi in scale
      && n.noteName == NoteNames[n.midi % 12]
      && n.technique == Techniques[Pick(steps[i].technique, 6)]
      && n.duration == 0.25 + steps[i].duration * 0.5
      && 0.25 <= n.duration < 0.75
  {
    LickAt(scale, start, steps, i);
  }

  /** One walk step over a strictly increasing scale lands on the clamped
      position, at most two positions from where it started. */
  lemma {:induction false} StepBound(scale: seq<Pitch>, current: Pitch, d: StepDraws)
    requires |scale| > 0 && StrictlyIncreasing(scale)
    ensures var from := IndexOf(scale, current);
      var to := IndexOf(scale, NextNote(scale, current, d).midi);
      && 0 <= to < |scale|
      && to == Clamp(from + Move(d), |scale| - 1)
      && -2 <= to - from <= 2
  {
    var from, m := IndexOf(scale, current), Move(d);
    var index := Clamp(from + m, |scale| - 1);
    var next := NextNote(scale, current, d);
    assert next.midi == scale[index];
    IndexOfIncreasing(scale, index);
    assert IndexOf(scale, next.midi) == index;
    assert -1 <= from < |scale| && -2 <= m <= 2;
  }

  /** The walk bound: over a strictly increasing scale, consecutive notes of
      a lick (and the start note and the first note) are at most two scale
      positions apart. */
  lemma {:induction false} WalkBound(scale: seq<Pitch>, start: Pitch, steps: seq<StepDraws>, i: nat)
    requires |scale| > 0 && StrictlyIncreasing(scale) && i < |steps|
    ensures var lick := Lick(scale, start, steps);
      var from := IndexOf(scale, if i == 0 then start else lick[i - 1].midi);
      var to := IndexOf(scale, lick[i].midi);
      0 <= to < |scale| && -2 <= to - from <= 2
  {
    var lick := Lick(scale, start, steps);
    var previous := if i == 0 then start else lick[i - 1].midi;
    LickAt(scale, start, steps, i);
    assert lick[i] == NextNote(scale, previous, steps[i]);
    StepBound(scale, previous, steps[i]);
  }

  /** One pass of `generateLick`'s loop: step from the current note and
      dress the new one with a technique and a duration. */
  method WalkStep(scale: seq<Pitch>, currentNote: Pitch, d: StepDraws) returns (note: Note)
    requires |scale| > 0
    ensures note == NextNote(scale, currentNote, d)
  {
    var nextNoteIndex := IndexOf(scale, currentNote) + Move(d);
    nextNoteIndex := Clamp(nextNoteIndex, |scale| - 1);
    var midi := scale[nextNoteIndex];
    var technique := Techniques[Pick(d.technique, |Techniques|)];
    note := Note(midi, MidiToNoteName(midi), technique, 0.25 + d.duration * 0.5);
  }

  /** `generateLick`: `length` notes by a clamped walk from a drawn start. */
  method GenerateLick(scale: seq<Pitch>, length: nat, draws: LickDraws) returns (lick: seq<Note>)
    requires |scale| > 0 && |draws.steps| == length
    ensures lick == Lick(scale, StartNote(scale, draws), draws.steps)
    ensures |lick| == length
    ensures forall i :: 0 <= i < |lick| ==> lick[i].midi in scale && 0.25 <= lick[i].duration < 0.75
  {
    ghost var start := StartNote(scale, draws);
    var currentNote := scale[Pick(draws.start, |scale|)];
    lick := [];
    for i := 0 to length
      invariant lick == Lick(scale, start, draws.steps[..i])
      invariant currentNote == Previous(start, lick)
    {
      var note := WalkStep(scale, currentNote, draws.steps[i]);
      assert draws.steps[..i + 1][..i] == draws.steps[..i];
      lick := lick + [note];
      currentNote := note.midi;
    }
    assert draws.steps[..length] == draws.steps;
    forall i | 0 <= i < |lick| ensures lick[i].midi in scale && 0.25 <= lick[i].duration < 0.75 {
      LickNote(scale, start, draws.steps, i);
    }
  }

  // ---------------------------------------------------------------------------
  // Rhythm

  datatype Beat = Beat(hit: nat, subdivision: nat, emphasis: Emphasis)

  /** Strong on every fourth eighth, medium on the other even ones, weak on
      the odd ones. */
  function EmphasisAt(i: nat): (e: Emphasis)
    ensures e == Strong <==> i % 4 == 0
    ensures e == Medium <==> i % 2 == 0 && i % 4 != 0
    ensures e == Weak <==> i % 2 == 1
  {
    if i % 4 == 0 then Strong else if i % 2 == 0 then Medium else Weak
  }

  /** The rhythm `generateRhythm` builds from `pattern`, tiled over `length`
      eighths. */
  function Rhythm(pattern: seq<nat>, length: nat): (r: seq<Beat>)
    requires |pattern| > 0
  {
    seq(length, i requires 0 <= i < length => Beat(pattern[i % |pattern|], i % 8, EmphasisAt(i)))
  }

  /** `generateRhythm`: one entry per eighth, the pattern tiled by `i % 8`. */
  method GenerateRhythm(length: nat, patternDraw: Draw) returns (rhythm: seq<Beat>)
    ensures rhythm == Rhythm(RhythmPatterns[Pick(patternDraw, |RhythmPatterns|)], length)
    ensures |rhythm| == length
    ensures forall i :: 0 <= i < length ==>
      && rhythm[i].hit == RhythmPatterns[Pick(patternDraw, |RhythmPatterns|)][i % 8]
      && rhythm[i].hit <= 1
      && rhythm[i].subdivision == i % 8
      && (rhythm[i].emphasis == Strong <==> i % 4 == 0)
      && (rhythm[i].emphasis == Medium <==> i % 2 == 0 && i % 4 != 0)
      && (rhythm[i].emphasis == Weak <==> i % 2 == 1)
  {
    var pattern := RhythmPatterns[Pick(patternDraw, |RhythmPatterns|)];
    rhythm := [];
    for i := 0 to length
      invariant |rhythm| == i
      invariant forall j :: 0 <= j < i ==> rhythm[j] == Beat(pattern[j % 8], j % 8, EmphasisAt(j))
      invariant forall j :: 0 <= j < i ==> rhythm[j].hit <= 1
    {
      var emphasis := if i % 4 == 0 then Strong else if i % 2 == 0 then Medium else Weak;
      rhythm := rhythm + [Beat(pattern[i % |pattern|], i % 8, emphasis)];
    }
  }

  datatype ReggaeBeat = ReggaeBeat(hit: nat, subdivision: nat, emphasis: Emphasis, technique: ReggaeTechnique)

  /** The pattern draw, then one technique draw per entry. */
  datatype ReggaeDraws = ReggaeDraws(pattern: Draw, techniques: seq<Draw>)

  /** `generateReggaeRhythm`: off-beat emphasis and a drawn technique per
      entry. */
  method GenerateReggaeRhythm(length: nat, draws: ReggaeDraws) returns (rhythm: seq<ReggaeBeat>)
    requires |draws.techniques| == length
    ensures |rhythm| == length
    ensures forall i :: 0 <= i < length ==>
      && rhythm[i].hit == ReggaePatterns[Pick(draws.pattern, |ReggaePatterns|)][i % 8]
      && rhythm[i].subdivision == i % 8
      && (rhythm[i].emphasis == Strong <==> i % 2 == 1)
      && (rhythm[i].emphasis == Weak <==> i % 2 == 0)
      && rhythm[i].technique == ReggaeTechniques[Pick(draws.techniques[i], |ReggaeTechniques|)]
  {
    var pattern := ReggaePatterns[Pick(draws.pattern, |ReggaePatterns|)];
    rhythm := [];
    for i := 0 to length
      invariant |rhythm| == i
      invariant forall j :: 0 <= j < i ==>
        rhythm[j] == ReggaeBeat(pattern[j % 8], j % 8, if j % 2 == 1 then Strong else Weak,
                                ReggaeTechniques[Pick(draws.techniques[j], |ReggaeTechniques|)])
    {
      var emphasis := if i % 2 == 1 then Strong else Weak;
      var technique := ReggaeTechniques[Pick(draws.techniques[i], |ReggaeTechniques|)];
      rhythm := rhythm + [ReggaeBeat(pattern[i % |pattern|], i % 8, emphasis, technique)];
    }
  }

  // ---------------------------------------------------------------------------
  // Phrase analysis

  /** A lick note combined with its rhythm entry and its place in the solo. */
  datatype PhraseNote = PhraseNote(note: Note, rhythm: Beat, beatPosition: real, phraseNumber: nat)

  datatype TechniqueSummary = TechniqueSummary(
    hasBends: bool, hasSlides: bool, hasVibrato: bool, usesBlueNotes: bool, rhythmicVariety: nat)

  /** `phrase.some(note => note.technique === t)`. */
  function SomeTechnique(phrase: seq<PhraseNote>, t: Technique): bool {
    if phrase == [] then false
    else phrase[0].note.technique == t || SomeTechnique(phrase[1..], t)
  }

  /** The scan finds technique `t` exactly when some note carries it. */
  lemma {:induction false} SomeTechniqueMeans(phrase: seq<PhraseNote>, t: Technique)
    ensures SomeTechnique(phrase, t) <==> exists i :: 0 <= i < |phrase| && phrase[i].note.technique == t
  {
    if phrase != [] {
      SomeTechniqueMeans(phrase[1..], t);
      assert forall i :: 0 < i < |phrase| ==> phrase[i] == phrase[1..][i - 1];
    }
  }

  /** `phrase.some(note => note.midi % 12 === 6)`: a flattened fifth over C. */
  function SomeBlueNote(phrase: seq<PhraseNote>): bool {
    if phrase == [] then false
    else phrase[0].note.midi % 12 == 6 || SomeBlueNote(phrase[1..])
  }

  /** The scan finds a blue note exactly when some note's pitch class is 6. */
  lemma {:induction false} SomeBlueNoteMeans(phrase: seq<PhraseNote>)
    ensures SomeBlueNote(phrase) <==> exists i :: 0 <= i < |phrase| && phrase[i].note.midi % 12 == 6
  {
    if phrase != [] {
      SomeBlueNoteMeans(phrase[1..]);
      assert forall i :: 0 < i < |phrase| ==> phrase[i] == phrase[1..][i - 1];
    }
  }

  /** The distinct subdivisions of a phrase, `new Set(phrase.map(...))`. */
  function Subdivisions(phrase: seq<PhraseNote>): set<nat> {
    set i | 0 <= i < |phrase| :: phrase[i].rhythm.subdivision
  }

  /** A phrase has no more distinct subdivisions than notes. */
  lemma {:induction false} SubdivisionsAtMostNotes(phrase: seq<PhraseNote>)
    ensures |Subdivisions(phrase)| <= |phrase|
  {
    if phrase != [] {
      var init := phrase[..|phrase| - 1];
      SubdivisionsAtMostNotes(init);
      assert Subdivisions(phrase) == Subdivisions(init) + {phrase[|phrase| - 1].rhythm.subdivision} by {
        forall i | 0 <= i < |init| ensures init[i] == phrase[i] { }
      }
    }
  }

  /** A subset is no larger than its superset. */
  lemma {:induction false} SubsetNoLarger(a: set<nat>, b: set<nat>)
    requires a <= b
    ensures |a| <= |b|
  {
    if a != {} {
      var x :| x in a;
      SubsetNoLarger(a - {x}, b - {x});
    }
  }

  /** Subdivisions below 8 give at most 8 distinct values. */
  lemma {:induction false} SubdivisionsAtMostEight(phrase: seq<PhraseNote>)
    ensures (forall i :: 0 <= i < |phrase| ==> phrase[i].rhythm.subdivision < 8) ==>
      |Subdivisions(phrase)| <= 8
  {
    if forall i :: 0 <= i < |phrase| ==> phrase[i].rhythm.subdivision < 8 {
      var eighths: set<nat> := {0, 1, 2, 3, 4, 5, 6, 7};
      assert Subdivisions(phrase) <= eighths;
      SubsetNoLarger(Subdivisions(phrase), eighths);
    }
  }

  /** `analyzePhraseForTechniques`: which techniques and blue notes occur,
      and how many distinct subdivisions the phrase uses. */
  function AnalyzePhraseForTechniques(phrase: seq<PhraseNote>): TechniqueSummary {
    TechniqueSummary(
      SomeTechnique(phrase, Bend),
      SomeTechnique(phrase, Slide),
      SomeTechnique(phrase, Vibrato),
      SomeBlueNote(phrase),
      |Subdivisions(phrase)|)
  }

  /** What the summary reports: each flag is set exactly when some note
      carries it, and the variety counts distinct subdivisions, so it never
      exceeds the number of notes, nor eight while subdivisions stay below 8. */
  lemma {:induction false} SummaryMeaning(phrase: seq<PhraseNote>)
    ensures var t := AnalyzePhraseForTechniques(phrase);
      && (t.hasBends <==> exists i :: 0 <= i < |phrase| && phrase[i].note.technique == Bend)
      && (t.hasSlides <==> exists i :: 0 <= i < |phrase| && phrase[i].note.technique == Slide)
      && (t.hasVibrato <==> exists i :: 0 <= i < |phrase| && phrase[i].note.technique == Vibrato)
      && (t.usesBlueNotes <==> exists i :: 0 <= i < |phrase| && phrase[i].note.midi % 12 == 6)
      && t.rhythmicVariety <= |phrase|
      && ((forall i :: 0 <= i < |phrase| ==> phrase[i].rhythm.subdivision < 8) ==> t.rhythmicVariety <= 8)
  {
    SomeTechniqueMeans(phrase, Bend);
    SomeTechniqueMeans(phrase, Slide);
    SomeTechniqueMeans(phrase, Vibrato);
    SomeBlueNoteMeans(phrase);
    SubdivisionsAtMostNotes(phrase);
    SubdivisionsAtMostEight(phrase);
  }

  // ---------------------------------------------------------------------------
  // Solos

  datatype Phrase = Phrase(number: nat, notes: seq<PhraseNote>, techniques: TechniqueSummary)
  datatype Section = Section(chord: Chord, beats: nat, notes: seq<Note>, chordTone: Pitch)

  datatype Metadata =
    | FreeForm(key: string, scaleType: string, tempo: int, timeSignature: string)
    | OverProgression(key: string, progression: string, tempo: int)

  datatype Solo =
    | PhraseSolo(metadata: Metadata, phrases: seq<Phrase>)
    | SectionSolo(metadata: Metadata, sections: seq<Section>)

  datatype SoloOptions = SoloOptions(key: Pitch, scaleType: string, numPhrases: nat, phraseLength: nat, tempo: int)

  /** The draws of one phrase: its lick's, then its rhythm pattern's. */
  datatype PhraseDraws = PhraseDraws(lick: LickDraws, rhythm: Draw)

  /** `lick.map((note, i) => ...)`: each note with rhythm entry `i`, its
      eighth-note position and the phrase number. */
  function CombinePhrase(lick: seq<Note>, rhythm: seq<Beat>, number: nat): (notes: seq<PhraseNote>)
    requires |lick| <= |rhythm|
    ensures |notes| == |lick|
  {
    seq(|lick|, i requires 0 <= i < |lick| => PhraseNote(lick[i], rhythm[i], i as real * 0.5, number))
  }

  /** Phrase `number` as one iteration of `generateSolo` builds it. */
  function PhraseOf(scale: seq<Pitch>, number: nat, length: nat, draws: PhraseDraws): (p: Phrase)
    requires |scale| > 0 && |draws.lick.steps| == length
    ensures p.number == number && |p.notes| == length
  {
    var lick := Lick(scale, StartNote(scale, draws.lick), draws.lick.steps);
    var rhythm := Rhythm(RhythmPatterns[Pick(draws.rhythm, |RhythmPatterns|)], length);
    var notes := CombinePhrase(lick, rhythm, number);
    Phrase(number, notes, AnalyzePhraseForTechniques(notes))
  }

  /** The shape of a generated phrase: `length` notes, note `i` at beat
      position `i * 0.5`, tagged with the phrase number, carrying rhythm
      entry `i` and a pitch of the scale, and the summary of those notes. */
  lemma {:induction false} PhraseShape(scale: seq<Pitch>, number: nat, length: nat, draws: PhraseDraws)
    requires |scale| > 0 && |draws.lick.steps| == length
    ensures var p := PhraseOf(scale, number, length, draws);
      && p.number == number
      && |p.notes| == length
      && p.techniques == AnalyzePhraseForTechniques(p.notes)
      && p.techniques.rhythmicVariety <= 8
      && p.techniques.rhythmicVariety <= length
      && forall i :: 0 <= i < length ==>
           && p.notes[i].beatPosition == i as real * 0.5
           && p.notes[i].phraseNumber == number
           && p.notes[i].rhythm == Rhythm(RhythmPatterns[Pick(draws.rhythm, |RhythmPatterns|)], length)[i]
           && p.notes[i].rhythm.subdivision == i % 8
           && p.notes[i].note.midi in scale
  {
    var p := PhraseOf(scale, number, length, draws);
    var lick := Lick(scale, StartNote(scale, draws.lick), draws.lick.steps);
    forall i | 0 <= i < length
      ensures p.notes[i].note.midi in scale && p.notes[i].rhythm.subdivision == i % 8
    {
      LickNote(scale, StartNote(scale, draws.lick), draws.lick.steps, i);
      assert p.notes[i].note == lick[i];
    }
    SummaryMeaning(p.notes);
  }

  /** One pass of `generateSolo`'s loop: a lick and a rhythm of `length`
      notes, zipped into phrase notes, and their technique summary. */
  method GeneratePhrase(scale: seq<Pitch>, number: nat, length: nat, draws: PhraseDraws) returns (p: Phrase)
    requires |scale| > 0 && |draws.lick.steps| == length
    ensures p == PhraseOf(scale, number, length, draws)
  {
    var lick := GenerateLick(scale, length, draws.lick);
    var rhythm := GenerateRhythm(length, draws.rhythm);
    var phraseData := CombinePhrase(lick, rhythm, number);
    p := Phrase(number, phraseData, AnalyzePhraseForTechniques(phraseData));
  }

  /** Whether every phrase's draws hold `length` walk steps. */
  predicate DrawsFit(draws: seq<PhraseDraws>, length: nat) {
    forall p :: 0 <= p < |draws| ==> |draws[p].lick.steps| == length
  }

  /** The phrases `generateSolo` builds from `draws`: phrase `p` is the one
      numbered `p + 1`, built from the `p`-th draws. */
  function Phrases(scale: seq<Pitch>, length: nat, draws: seq<PhraseDraws>): seq<Phrase>
    requires |scale| > 0 && DrawsFit(draws, length)
  {
    seq(|draws|, p requires 0 <= p < |draws| => PhraseOf(scale, p + 1, length, draws[p]))
  }

  /** The loop of `generateSolo`: phrases numbered 1 to `count`, in order. */
  method GeneratePhrases(scale: seq<Pitch>, count: nat, length: nat, draws: seq<PhraseDraws>)
    returns (phrases: seq<Phrase>)
    requires |scale| > 0 && |draws| == count && DrawsFit(draws, length)
    ensures phrases == Phrases(scale, length, draws)
  {
    ghost var expected := Phrases(scale, length, draws);
    phrases := [];
    for phrase := 0 to count
      invariant phrases == expected[..phrase]
    {
      var next := GeneratePhrase(scale, phrase + 1, length, draws[phrase]);
      ExtendPrefix(expected, phrase);
      phrases := phrases + [next];
    }
    assert expected[..count] == expected;
  }

  /** `generateSolo`: `numPhrases` phrases over the scale of the options,
      numbered from 1, or an error for an unknown scale type. */
  method GenerateSolo(options: SoloOptions, draws: seq<PhraseDraws>) returns (result: Result<Solo>)
    requires |draws| == options.numPhrases
    requires DrawsFit(draws, options.phraseLength)
    ensures result.Failure? <==> PentatonicPattern(options.scaleType).None?
    ensures result.Failure? ==> result.error == UnknownScaleType(options.scaleType)
    ensures result.Success? ==>
      var scale := GenerateScale(options.key, options.scaleType).value;
      var solo := result.value;
      && solo.PhraseSolo?
      && solo.metadata == FreeForm(MidiToNoteName(options.key), options.scaleType, options.tempo, "4/4")
      && |solo.phrases| == options.numPhrases
      && solo.phrases == Phrases(scale, options.phraseLength, draws)
  {
    var scaleResult := GenerateScale(options.key, options.scaleType);
    if scaleResult.Failure? {
      return Failure(scaleResult.error);
    }
    var scale := scaleResult.value;
    var phrases := GeneratePhrases(scale, options.numPhrases, options.phraseLength, draws);
    var metadata := FreeForm(MidiToNoteName(options.key), options.scaleType, options.tempo, "4/4");
    result := Success(PhraseSolo(metadata, phrases));
  }

  // ---------------------------------------------------------------------------
  // Solos over a chord progression

  /** Semitones from the key to the chord root: I = 0, IV = 5, V = 7. */
  function ChordOffset(c: Chord): (n: nat)
    ensures n in {0, 5, 7}
  {
    match c
    case I => 0
    case IV => 5
    case V => 7
  }

  /** The section one template slot yields: a lick of `beats * 2` notes over
      the blues scale on the chord root. */
  function SectionOf(key: Pitch, slot: ChordSlot, draws: LickDraws): (s: Section)
    requires |draws.steps| == slot.beats * 2
    ensures s.chord == slot.chord && s.beats == slot.beats && s.chordTone == key + ChordOffset(slot.chord)
  {
    var scale := BluesScale(key + ChordOffset(slot.chord));
    Section(slot.chord, slot.beats, Lick(scale, StartNote(scale, draws), draws.steps),
            key + ChordOffset(slot.chord))
  }

  /** The shape of a section: `beats * 2` notes, all from the blues scale on
      the chord tone, which is the key moved up 0, 5 or 7 semitones. */
  lemma {:induction false} SectionShape(key: Pitch, slot: ChordSlot, draws: LickDraws)
    requires |draws.steps| == slot.beats * 2
    ensures var s := SectionOf(key, slot, draws);
      && s.chord == slot.chord && s.beats == slot.beats
      && |s.notes| == slot.beats * 2
      && s.chordTone == key + (match slot.chord case I => 0 case IV => 5 case V => 7)
      && forall i :: 0 <= i < |s.notes| ==>
           s.notes[i].midi in BluesScale(s.chordTone) && s.chordTone <= s.notes[i].midi <= s.chordTone + 10
  {
    var s := SectionOf(key, slot, draws);
    var scale := BluesScale(s.chordTone);
    forall i | 0 <= i < |s.notes|
      ensures s.notes[i].midi in scale && s.chordTone <= s.notes[i].midi <= s.chordTone + 10
    {
      LickNote(scale, StartNote(scale, draws), draws.steps, i);
      var k :| 0 <= k < |scale| && scale[k] == s.notes[i].midi;
    }
  }

  /** The draws fit the progression: one lick's worth per slot. */
  predicate DrawsFitProgression(progression: string, draws: seq<LickDraws>) {
    match Progression(progression)
    case None => true
    case Some(slots) =>
      |draws| == |slots| && forall k :: 0 <= k < |slots| ==> |draws[k].steps| == slots[k].beats * 2
  }

  function Chords(sections: seq<Section>): seq<Chord> {
    seq(|sections|, k requires 0 <= k < |sections| => sections[k].chord)
  }

  /** The scale a slot plays over: the key's own blues scale for I, the
      blues scale on the fourth or the fifth for IV and V. */
  method ChordScale(key: Pitch, rootScale: seq<Pitch>, chord: Chord) returns (scale: seq<Pitch>)
    requires rootScale == BluesScale(key)
    ensures scale == BluesScale(key + ChordOffset(chord))
  {
    scale := rootScale;
    if chord == IV {
      scale := BluesScale(key + 5);
    } else if chord == V {
      scale := BluesScale(key + 7);
    } else {
      assert key + ChordOffset(chord) == key;
    }
  }

  /** The `forEach` callback of `generateSoloOverProgression`: the scale of
      the slot's chord (the key's own scale for I), a lick of `beats * 2`
      notes over it, and the chord tone. */
  method GenerateSection(key: Pitch, rootScale: seq<Pitch>, chord: ChordSlot, draws: LickDraws)
    returns (section: Section)
    requires rootScale == BluesScale(key)
    requires |draws.steps| == chord.beats * 2
    ensures section == SectionOf(key, chord, draws)
  {
    ghost var tone := key + ChordOffset(chord.chord);
    ghost var scale := BluesScale(tone);
    assert SectionOf(key, chord, draws) == Section(chord.chord, chord.beats,
      Lick(scale, StartNote(scale, draws), draws.steps), tone);
    var currentScale := ChordScale(key, rootScale, chord.chord);
    var lick := GenerateLick(currentScale, chord.beats * 2, draws);
    assert lick == Lick(scale, StartNote(scale, draws), draws.steps);
    var chordTone := key + (if chord.chord == I then 0 else if chord.chord == IV then 5 else 7);
    assert chordTone == tone;
    section := Section(chord.chord, chord.beats, lick, chordTone);
  }

  /** Extending a prefix by the next element gives the next prefix. */
  lemma {:induction false} ExtendPrefix<T>(s: seq<T>, i: nat)
    requires i < |s|
    ensures s[..i + 1] == s[..i] + [s[i]]
  {
  }

  /** The `forEach` over the template slots: one section per slot, in order. */
  method GenerateSections(key: Pitch, rootScale: seq<Pitch>, slots: seq<ChordSlot>, draws: seq<LickDraws>)
    returns (sections: seq<Section>)
    requires rootScale == BluesScale(key)
    requires |draws| == |slots| && forall k :: 0 <= k < |slots| ==> |draws[k].steps| == slots[k].beats * 2
    ensures |sections| == |slots|
    ensures forall k :: 0 <= k < |slots| ==> sections[k] == SectionOf(key, slots[k], draws[k])
  {
    ghost var expected := seq(|slots|, k requires 0 <= k < |slots| => SectionOf(key, slots[k], draws[k]));
    sections := [];
    for index := 0 to |slots|
      invariant sections == expected[..index]
    {
      var next := GenerateSection(key, rootScale, slots[index], draws[index]);
      assert next == expected[index];
      ExtendPrefix(expected, index);
      sections := sections + [next];
    }
    assert sections == expected;
  }

  /** The chords of the two templates; every twelve-bar slot lasts four
      beats and every eight-bar slot two. */
  lemma {:induction false} TemplateShapes()
    ensures seq(|TwelveBar|, k requires 0 <= k < |TwelveBar| => TwelveBar[k].chord)
         == [I, I, I, I, IV, IV, I, I, V, IV, I, V]
    ensures forall k :: 0 <= k < |TwelveBar| ==> TwelveBar[k].beats == 4
    ensures seq(|EightBar|, k requires 0 <= k < |EightBar| => EightBar[k].chord)
         == [I, IV, I, V, IV, I, V, I]
    ensures forall k :: 0 <= k < |EightBar| ==> EightBar[k].beats == 2
  {
  }

  /** Sections generated over a template play its chords, for its beats. */
  lemma {:induction false} SectionsFollowTemplate(key: Pitch, slots: seq<ChordSlot>, draws: seq<LickDraws>, sections: seq<Section>)
    requires |draws| == |slots| && forall k :: 0 <= k < |slots| ==> |draws[k].steps| == slots[k].beats * 2
    requires |sections| == |slots|
    requires forall k :: 0 <= k < |slots| ==> sections[k] == SectionOf(key, slots[k], draws[k])
    ensures Chords(sections) == seq(|slots|, k requires 0 <= k < |slots| => slots[k].chord)
    ensures forall k :: 0 <= k < |sections| ==> sections[k].beats == slots[k].beats
  {
  }

  /** `generateSoloOverProgression`: one section per template slot, at tempo
      120, or an error for an unknown progression name. */
  method GenerateSoloOverProgression(progression: string, key: Pitch, draws: seq<LickDraws>)
    returns (result: Result<Solo>)
    requires DrawsFitProgression(progression, draws)
    ensures result.Failure? <==> Progression(progression).None?
    ensures result.Failure? ==> result.error == UnknownProgression(progression)
    ensures result.Success? ==>
      var slots := Progression(progression).value;
      var solo := result.value;
      && solo.SectionSolo?
      && solo.metadata == OverProgression(MidiToNoteName(key), progression, 120)
      && |solo.sections| == |slots|
      && forall k :: 0 <= k < |slots| ==> solo.sections[k] == SectionOf(key, slots[k], draws[k])
    ensures progression == "twelve_bar" ==>
      && result.Success?
      && Chords(result.value.sections) == [I, I, I, I, IV, IV, I, I, V, IV, I, V]
      && forall k :: 0 <= k < |result.value.sections| ==> result.value.sections[k].beats == 4
    ensures progression == "eight_bar" ==>
      && result.Success?
      && Chords(result.value.sections) == [I, IV, I, V, IV, I, V, I]
      && forall k :: 0 <= k < |result.value.sections| ==> result.value.sections[k].beats == 2
  {
    var prog := Progression(progression);
    var rootScale := BluesScale(key);
    if prog.None? {
      return Failure(UnknownProgression(progression));
    }
    var slots := prog.value;
    var sections := GenerateSections(key, rootScale, slots, draws);
    result := Success(SectionSolo(OverProgression(MidiToNoteName(key), progression, 120), sections));
    SectionsFollowTemplate(key, slots, draws, sections);
    TemplateShapes();
  }
}
