# Blues guitar solo generator and synthesizer control logic, in Dafny

This project models the core of a browser application that writes blues
guitar solos and plays them through a chain of guitar effects.

`BluesPentatonicGenerator` (src/bluesGenerator.js) covers composition:

- It builds a pentatonic or blues scale on a MIDI root note.
- It walks the scale to write licks. Each step is at most two scale
  positions and is clamped to the ends of the scale.
- It picks one of five rhythm patterns and grades the emphasis of each
  eighth note.
- It joins licks and rhythms into numbered phrases and summarises the
  techniques of each phrase.
- It can write a solo over a twelve-bar or eight-bar progression. Every
  IV or V chord switches to the blues scale of that chord.

`GuitarSynthesizer` (src/audioSynthesis.js) is modelled for its control
state:

- the table of eight effect records;
- the effect chain rebuilt from that table in a fixed order;
- toggling and updating effects, and the eight named presets (clean, blues,
  rock, lead, funk, autowah, ambient and reggae);
- the routing of a note through the chain;
- the arithmetic each settings routine performs on its knobs;
- which harmonics sound, and the hammer-on emphasis;
- the time cursor that `playSolo` and `playProgression` advance.

The modules are:

- `BluesGenerator` (blues_generator.dfy): the generator. Randomness is a
  parameter: every `Math.random()` call becomes a `Draw`, a real in
  [0, 1), passed in by the caller.
- `EffectTable` (effect_table.dfy): the effect records as values, the chain
  as a function of the table, and the preset tables.
- `EffectSettings` (effect_settings.dfy): the settings arithmetic.
- `Voice` (voice.dfy): harmonic selection and the hammer-on gains.
- `Playback` (playback.dfy): the playback schedule.
- `Synthesizer` (guitar_synthesizer.dfy): the `GuitarSynthesizer` class,
  whose methods update `effects`, `effectChain` and `isInitialized` in place.
- `Options` (options.dfy): an option type.

The chain follows the code. `rebuildEffectChain` only takes an effect whose
record holds `node`, but the EQ record holds `nodes` (src/audioSynthesis.js:28,
338). So the EQ is never routed, even when a preset enables it.
`EffectTable.EqNeverInChain` and `Synthesizer.InitializeRoutesEnabled`
state this.

## Model

| member | source | states |
|---|---|---|
| BluesGenerator.NoteNameRepeatsEachOctave | src/bluesGenerator.js:53-55 | a note's name depends only on its pitch class: raising it an octave keeps the name |
| BluesGenerator.MidiToNoteName | src/bluesGenerator.js:53-55 | the name of a MIDI note; its meaning is stated by `NoteNameRepeatsEachOctave` |
| BluesGenerator.Pick | src/bluesGenerator.js:66 | scaling a draw in [0,1) by a table length and flooring gives a valid index into that table |
| BluesGenerator.GenerateScale | src/bluesGenerator.js:58-61 | succeeds exactly for "minor", "major" and "blues", and an unknown type is reported as that type; on success the scale has 5 notes (6 for blues), starts on the root, strictly rises and stays within a minor seventh of the root; the blues scale contains the flat fifth |
| BluesGenerator.BluesScale | src/bluesGenerator.js:195 | the blues scale on a root has six strictly rising notes from the root to at most root+10, including the flat fifth |
| BluesGenerator.IndexOf | src/bluesGenerator.js:73 | `indexOf` gives -1 exactly when the note is absent, and otherwise the first position holding it |
| BluesGenerator.IndexOfIncreasing | src/bluesGenerator.js:73 | in a strictly rising scale, looking up the note at position k gives k back |
| BluesGenerator.Clamp | src/bluesGenerator.js:74 | the clamp maps below-range indexes to 0 and above-range indexes to the last one, and leaves in-range indexes unchanged |
| BluesGenerator.Move | src/bluesGenerator.js:70-71 | a step moves one or two positions and never zero; it goes up exactly when the direction draw exceeds 0.5 and is two positions exactly when the step draw exceeds 0.7 |
| BluesGenerator.NextNote | src/bluesGenerator.js:70-87 | every note of a walk is in the scale, is named after its pitch class, carries one of the six techniques and lasts between 0.25 and 0.75 seconds |
| BluesGenerator.StartNote | src/bluesGenerator.js:66 | a lick starts on a note of the scale |
| BluesGenerator.Lick | src/bluesGenerator.js:64-91 | a lick has one note per step |
| BluesGenerator.LickPrefix | src/bluesGenerator.js:68-88 | the first n notes of a lick are the lick of the first n steps, so a walk never revises notes already written |
| BluesGenerator.LickAt | src/bluesGenerator.js:68-76 | note i of a lick is the next note from the previous note, or from the start note when i is 0 |
| BluesGenerator.LickNote | src/bluesGenerator.js:76-87 | each note of a lick is in the scale and named after its pitch class; its technique is the drawn one and its duration is 0.25 plus half the duration draw, so it lies in [0.25, 0.75) |
| BluesGenerator.StepBound | src/bluesGenerator.js:70-76 | in a strictly rising scale one step lands on the clamped target position, at most two positions away |
| BluesGenerator.WalkBound | src/bluesGenerator.js:66-76 | consecutive notes of a lick, and the start note and the first note, are at most two scale positions apart |
| BluesGenerator.WalkStep | src/bluesGenerator.js:70-87 | one iteration of the walk computes the note the lick specification gives |
| BluesGenerator.GenerateLick | src/bluesGenerator.js:64-91 | the loop builds the specified lick: `length` notes, each in the scale, each lasting 0.25 to 0.75 seconds |
| BluesGenerator.EmphasisAt | src/bluesGenerator.js:102 | emphasis is strong on every fourth eighth, medium on the other even eighths and weak on odd ones |
| BluesGenerator.GenerateRhythm | src/bluesGenerator.js:94-107 | the rhythm has `length` beats; beat i repeats the drawn pattern's hit at i mod 8, has subdivision i mod 8 and has the strong, medium or weak emphasis of its position |
| BluesGenerator.Rhythm | src/bluesGenerator.js:94-107 | the rhythm a pattern gives; `GenerateRhythm` states its length, hits, subdivisions and emphasis |
| BluesGenerator.GenerateReggaeRhythm | src/bluesGenerator.js:110-131 | the reggae rhythm has `length` beats; off-beats are strong and on-beats weak; each beat has its pattern hit, its subdivision and the drawn reggae technique |
| BluesGenerator.SomeTechniqueMeans | src/bluesGenerator.js:179-181 | the technique flag is set exactly when some note of the phrase carries that technique |
| BluesGenerator.SomeBlueNoteMeans | src/bluesGenerator.js:182-185 | the blue-note flag is set exactly when some note's pitch class is 6 |
| BluesGenerator.SubdivisionsAtMostNotes | src/bluesGenerator.js:186 | a phrase has no more distinct subdivisions than notes |
| BluesGenerator.SubdivisionsAtMostEight | src/bluesGenerator.js:186 | with subdivisions below 8, the rhythmic variety is at most 8 |
| BluesGenerator.SummaryMeaning | src/bluesGenerator.js:177-190 | each flag of the summary holds exactly when some note has the property, and the variety is bounded by both the note count and 8 |
| BluesGenerator.AnalyzePhraseForTechniques | src/bluesGenerator.js:177-190 | the technique summary of a phrase; `SummaryMeaning` states what each flag and the variety mean |
| BluesGenerator.CombinePhrase | src/bluesGenerator.js:159-164 | combining a lick with its rhythm keeps one entry per lick note |
| BluesGenerator.PhraseOf | src/bluesGenerator.js:155-170 | phrase n is numbered n and has `phraseLength` notes |
| BluesGenerator.PhraseShape | src/bluesGenerator.js:154-170 | in a phrase, note i sits at beat i/2, carries the phrase number, the drawn rhythm's beat i and subdivision i mod 8, and is in the scale; the summary is the analysis of the notes, with variety at most 8 and at most the length |
| BluesGenerator.GeneratePhrase | src/bluesGenerator.js:155-170 | the method builds the phrase the specification describes |
| BluesGenerator.GeneratePhrases | src/bluesGenerator.js:154-171 | the loop builds phrases 1 to numPhrases in order, each the specified phrase for its draws |
| BluesGenerator.Phrases | src/bluesGenerator.js:154-171 | the numbered phrases of a free-form solo; `GeneratePhrases` and `PhraseShape` state their numbering and contents |
| BluesGenerator.GenerateSolo | src/bluesGenerator.js:134-174 | fails exactly for an unknown scale type, naming it; otherwise gives a free-form solo whose metadata holds the key's name, scale type, tempo and 4/4, with numPhrases phrases, phrase k built from the key's scale and draw k |
| BluesGenerator.ChordOffset | src/bluesGenerator.js:222 | a chord lies 0, 5 or 7 semitones above the key |
| BluesGenerator.SectionOf | src/bluesGenerator.js:216-222 | a section keeps its slot's chord and beats, and its chord tone is the key plus the chord's offset |
| BluesGenerator.SectionShape | src/bluesGenerator.js:206-223 | a section has two notes per beat; its chord tone is key+0 for I, key+5 for IV and key+7 for V; every note is in the chord's blues scale, within a minor seventh above the chord tone |
| BluesGenerator.ChordScale | src/bluesGenerator.js:208-214 | the I chord reuses the root scale, and IV and V build the blues scale 5 or 7 semitones up; in every case the scale is the blues scale of the chord tone |
| BluesGenerator.GenerateSection | src/bluesGenerator.js:207-223 | one iteration builds the specified section for its slot |
| BluesGenerator.GenerateSections | src/bluesGenerator.js:206-224 | the loop builds one section per slot, in slot order |
| BluesGenerator.TemplateShapes | src/bluesGenerator.js:11-26 | the twelve-bar template is I I I I IV IV I I V IV I V with four beats each; the eight-bar template is I IV I V IV I V I with two beats each |
| BluesGenerator.SectionsFollowTemplate | src/bluesGenerator.js:206-224 | the sections repeat the template's chords and beats, slot by slot |
| BluesGenerator.GenerateSoloOverProgression | src/bluesGenerator.js:193-227 | fails exactly for an unknown progression, naming it; otherwise gives one section per slot at tempo 120; twelve_bar and eight_bar always succeed, with their chord sequences and beat counts |
| EffectTable.PropOf | src/audioSynthesis.js:494 | every parameter name maps to a property with that same name, so no write is lost or redirected |
| EffectTable.PropRoundTrip | src/audioSynthesis.js:20-29 | reading back the name of a known property gives that property |
| EffectTable.Parse | src/audioSynthesis.js:492 | a name resolves only to the effect with that name |
| EffectTable.ParseName | src/audioSynthesis.js:526 | each of the eight effect names resolves to its effect |
| EffectTable.InitialEffectsShape | src/audioSynthesis.js:20-29 | at start all eight effects are present and disabled, and the EQ record has no `node` |
| EffectTable.Rank | src/audioSynthesis.js:481 | every effect has a position in the chain order |
| EffectTable.Filter | src/audioSynthesis.js:483-488 | filtering an order never lengthens it |
| EffectTable.FilterMembers | src/audioSynthesis.js:483-487 | an effect is kept exactly when it is in the order, enabled and holds a node |
| EffectTable.Routed | src/audioSynthesis.js:485 | whether an effect joins the chain; `FilterMembers` and `ChainFacts` state that it is kept exactly when present, enabled and holding a node |
| EffectTable.FilterOrdered | src/audioSynthesis.js:481-488 | filtering keeps the order's ranking |
| EffectTable.FilterDependsOnlyOnRouting | src/audioSynthesis.js:483-487 | two tables that route the same effects filter any order alike |
| EffectTable.ChainFacts | src/audioSynthesis.js:477-489 | the chain holds exactly the enabled effects that hold a node, in the fixed order compressor, distortion, wah, phaser, flanger, eq, chorus, delay, with no repeats and at most eight stages |
| EffectTable.ChainOf | src/audioSynthesis.js:477-489 | the chain of a table; `ChainFacts` states its members, order, distinctness and length |
| EffectTable.OrderRanked | src/audioSynthesis.js:481 | the ranks rise along the fixed order |
| EffectTable.ChainDependsOnlyOnRouting | src/audioSynthesis.js:477-489 | the chain depends only on which effects are enabled and hold a node |
| EffectTable.EqNeverInChain | src/audioSynthesis.js:485 | an EQ record without `node` is never in the chain, whether or not it is enabled |
| EffectTable.ChainIgnoresParams | src/audioSynthesis.js:491-494 | changing a parameter other than `enabled` and `node` leaves the chain unchanged |
| EffectTable.Toggle | src/audioSynthesis.js:528 | toggling keeps the set of effects |
| EffectTable.Update | src/audioSynthesis.js:494 | updating keeps the set of effects |
| EffectTable.ToggleTouchesOnlyEnabled | src/audioSynthesis.js:525-528 | a toggle sets `enabled` and changes nothing else in that record or in any other record |
| EffectTable.Attach | src/audioSynthesis.js:94-107 | attaching the graphs keeps the set of effects |
| EffectTable.AttachRouting | src/audioSynthesis.js:94-107 | once graphs are attached, an effect is routed exactly when it is enabled, except that the EQ also needs a `node` |
| EffectTable.FilterSnoc | src/audioSynthesis.js:483-487 | filtering one more effect appends it exactly when it is routed |
| EffectTable.FilterNoneRouted | src/audioSynthesis.js:483-487 | with nothing routed the chain is empty |
| EffectTable.FirstHalfUnrolled | src/audioSynthesis.js:483-487 | the first four effects of the order are kept one by one when routed |
| EffectTable.ChainUnrolled | src/audioSynthesis.js:481-488 | the chain is the eight effects in order, each present exactly when routed |
| EffectTable.InitialChainEmpty | src/audioSynthesis.js:20-32 | the starting table gives an empty chain |
| EffectTable.UpdateAll | src/audioSynthesis.js:835-839 | a run of parameter writes keeps the set of effects |
| EffectTable.UpdateAllTouchesOneRecord | src/audioSynthesis.js:835-839 | the parameter writes of one preset entry change only that effect's record |
| EffectTable.SetAllListed | src/audioSynthesis.js:835-839 | each listed parameter ends with its listed value |
| EffectTable.SetAllUnlisted | src/audioSynthesis.js:835-839 | an unlisted property keeps its presence and its value |
| EffectTable.SetAll | src/audioSynthesis.js:835-839 | the parameter writes of one entry; `SetAllListed` and `SetAllUnlisted` state which properties change and to what |
| EffectTable.ApplyEntry | src/audioSynthesis.js:829-839 | applying one preset entry keeps the set of effects |
| EffectTable.ApplyEntries | src/audioSynthesis.js:828-840 | applying a preset keeps the set of effects |
| EffectTable.ApplyEntriesStep | src/audioSynthesis.js:828-840 | applying one more entry is applying it to the table the earlier entries left |
| EffectTable.ApplyEntriesFacts | src/audioSynthesis.js:828-840 | with distinct effects, each listed effect ends with its entry's record and every unlisted effect is untouched |
| EffectTable.Entry | src/audioSynthesis.js:742-823 | a preset's entry for an effect is about that effect |
| EffectTable.Entries | src/audioSynthesis.js:742-828 | every preset lists all eight effects |
| EffectTable.EntryWellFormedAlways | src/audioSynthesis.js:742-823 | no preset entry lists `enabled` or `node` among its parameters, and each lists only known properties, without repeats |
| EffectTable.BluesWellFormed | src/audioSynthesis.js:753-761 | the blues preset's entries are well formed |
| EffectTable.RockWellFormed | src/audioSynthesis.js:763-771 | the rock preset's entries are well formed |
| EffectTable.LeadWellFormed | src/audioSynthesis.js:773-781 | the lead preset's entries are well formed |
| EffectTable.FunkWellFormed | src/audioSynthesis.js:783-791 | the funk preset's entries are well formed |
| EffectTable.AutowahWellFormed | src/audioSynthesis.js:793-801 | the autowah preset's entries are well formed |
| EffectTable.AmbientWellFormed | src/audioSynthesis.js:803-811 | the ambient preset's entries are well formed |
| EffectTable.ReggaeWellFormed | src/audioSynthesis.js:813-821 | the reggae preset's entries are well formed |
| EffectTable.PresetsWellFormed | src/audioSynthesis.js:742-823 | every preset lists the eight effects in key order, each entry well formed |
| EffectTable.KeyOrderDistinct | src/audioSynthesis.js:743-751 | a preset in key order names no effect twice |
| EffectTable.PresetOutcome | src/audioSynthesis.js:825-840 | after a preset, each effect has the preset's `enabled` flag and listed values, keeps its other properties, and is in the chain exactly when the preset enables it and it holds a node |
| EffectTable.KeyPosition | src/audioSynthesis.js:743-751 | every effect has a place in the preset key order |
| EffectTable.CleanEmptiesChain | src/audioSynthesis.js:743-752 | the clean preset disables every effect and empties the chain |
| EffectTable.PresetNamed | src/audioSynthesis.js:742-825 | the `presets[presetName]` lookup; `Synthesizer.GuitarSynthesizer.ApplyEffectPreset` states that an unknown name changes nothing |
| EffectSettings.AttachedSettingsApply | src/audioSynthesis.js:348-475 | once graphs are attached, every settings routine passes its guard, including the EQ's |
| EffectSettings.SettingsApply | src/audioSynthesis.js:348-475 | the guard at the top of each settings routine; `AttachedSettingsApply` states that it passes for every effect once graphs are attached |
| EffectSettings.DelaySeconds | src/audioSynthesis.js:379 | every delay knob value from 0 to 1000 ms gives a time within the one-second delay line |
| EffectSettings.DelayFitsLine | src/audioSynthesis.js:127 | turning the time knob up over 0 to 1000 ms lengthens the delay, never past the delay line |
| EffectSettings.FeedbackGain | src/audioSynthesis.js:380 | a feedback knob below 100% gives a loop gain in [0, 1) |
| EffectSettings.FeedbackDecays | src/audioSynthesis.js:133-135 | with feedback strictly between 0 and 100% every repeat is heard yet quieter than the one before, so the echoes die away |
| EffectSettings.DelayLevels | src/audioSynthesis.js:382-386 | the wet level is the mix percentage as a fraction, and wet plus dry is one |
| EffectSettings.DelayLevelsBounded | src/audioSynthesis.js:382-386 | over 0 to 100% the wet level rises and the dry level falls, both within [0, 1] |
| EffectSettings.PreGain | src/audioSynthesis.js:368 | a drive knob in [0, 100] never attenuates the signal and at most doubles it |
| EffectSettings.ToneCutoff | src/audioSynthesis.js:370 | a tone knob in [0, 100] keeps the cutoff within 500 to 3500 Hz |
| EffectSettings.ToneFor | src/audioSynthesis.js:370 | every cutoff is reached by some tone setting |
| EffectSettings.PreGainBounded | src/audioSynthesis.js:368 | over 0 to 100 the pre-gain rises from 1 to 2 |
| EffectSettings.ToneCutoffBounded | src/audioSynthesis.js:370 | over 0 to 100 the cutoff rises strictly from 500 Hz to 3500 Hz |
| EffectSettings.ToneCutoffInjective | src/audioSynthesis.js:370 | different tone settings give different cutoffs |
| EffectSettings.ChorusDepth | src/audioSynthesis.js:396 | a depth knob in [0, 100] swings the chorus delay by at most 2 ms |
| EffectSettings.ChorusDepthBounded | src/audioSynthesis.js:396 | turning the depth knob up widens the swing, which stays inside the 50 ms chorus line |
| EffectSettings.WahSweepDepth | src/audioSynthesis.js:427-431 | without auto-sweep the band-pass centre stays put; with it, a sensitivity in [0, 100] moves it by at most half the centre frequency |
| EffectSettings.WahSweepGrows | src/audioSynthesis.js:427-431 | turning the sensitivity knob up never narrows the sweep |
| EffectSettings.PhaserDepth | src/audioSynthesis.js:441 | a depth knob in [0, 100] swings the all-pass frequencies by at most the lowest stage's 200 Hz base |
| EffectSettings.AllpassBase | src/audioSynthesis.js:237 | every allpass base frequency is 200 Hz plus a multiple of 300 Hz |
| EffectSettings.PhaserAllpassFrequencies | src/audioSynthesis.js:233-240 | the loop creates six allpass stages, stage i at 200 + 300·i Hz |
| EffectSettings.AllpassBasesSpread | src/audioSynthesis.js:234-237 | the stages rise strictly from 200 Hz to 1700 Hz in 300 Hz steps |
| EffectSettings.PhaserSweepInRange | src/audioSynthesis.js:233-246 | the one oscillator drives every stage, and each stage's swing stays between 0 Hz and 1900 Hz |
| EffectSettings.FlangerDepth | src/audioSynthesis.js:457 | a depth knob in [0, 100] keeps the swing within the delay knob's value in seconds |
| EffectSettings.FlangerDepthBounded | src/audioSynthesis.js:457 | with the delay knob up to 20 ms, turning the depth knob up widens the swing, which stays inside the 20 ms flanger line |
| Voice.PartialFor | src/audioSynthesis.js:548-551 | for a positive note frequency only the fundamental sounds at that frequency, as the one sawtooth, and every overtone lies above it |
| Voice.Partials | src/audioSynthesis.js:543-558 | there are never more oscillators than harmonics |
| Voice.SelectPartials | src/audioSynthesis.js:543-558 | the loop creates exactly the oscillators the selection specifies |
| Voice.PartialsSound | src/audioSynthesis.js:544-551 | every oscillator belongs to a harmonic louder than 0.01, with that harmonic's frequency, wave and amplitude |
| Voice.PartialsComplete | src/audioSynthesis.js:544 | every harmonic louder than 0.01 gets an oscillator |
| Voice.PartialsOrdered | src/audioSynthesis.js:543-556 | oscillators are in rising harmonic order |
| Voice.DefaultBankIsFull | src/audioSynthesis.js:14 | with the default harmonics all six partials sound, in order |
| Voice.AllAudibleKeepsAll | src/audioSynthesis.js:543-558 | when every harmonic is audible, oscillator j is harmonic j |
| Voice.HammerAsWritten | src/audioSynthesis.js:613-620 | the hammer-on touches every oscillator but the first, reading the harmonic table by oscillator position |
| Voice.HammerAsWrittenMisreadsBank | src/audioSynthesis.js:615-618 | with harmonics [1.0, 0.005, 0.5] the second oscillator is harmonic 2 at 0.5, yet it is driven from 0.0075 to 0.005 |
| Voice.Hammer | src/audioSynthesis.js:613-620 | the corrected hammer-on gives one gain per oscillator |
| Voice.HammerEmphasises | src/audioSynthesis.js:613-620 | in the corrected hammer-on, exactly the overtones are emphasised; each starts above its own amplitude and settles at that amplitude |
| Voice.HammerAgreesOnFullBank | src/audioSynthesis.js:613-620 | when every harmonic is audible the written and corrected hammer-ons agree |
| Playback.Cursor | src/audioSynthesis.js:670-686 | the schedule has a start for every note, each start being the notes and pauses before it, and the returned time is the total |
| Playback.ScheduleGroup | src/audioSynthesis.js:674-680 | the inner loop starts each note at the cursor plus the durations before it and moves the cursor past them all |
| Playback.RunCursor | src/audioSynthesis.js:670-686 | the nested loops compute the specified schedule |
| Playback.SumPrefixGrows | src/audioSynthesis.js:679 | with non-negative durations the cursor never goes back |
| Playback.ElapsedSplits | src/audioSynthesis.js:673-686 | the total is all note durations plus all pauses |
| Playback.ConstantGapTotal | src/audioSynthesis.js:683 | with a constant pause, the total is the notes plus one pause per group |
| Playback.SumAllNonNegative | src/audioSynthesis.js:679 | non-negative durations sum to a non-negative time |
| Playback.TotalCoversNotes | src/audioSynthesis.js:670-686 | the total is at least the time the notes take |
| Playback.ElapsedPrefixGrows | src/audioSynthesis.js:673-684 | the time after more groups is never less |
| Playback.StartWithinGroup | src/audioSynthesis.js:674-680 | a note starts before its group ends |
| Playback.StartWithinTotal | src/audioSynthesis.js:670-686 | every note starts within the returned total |
| Playback.StartsNondecreasing | src/audioSynthesis.js:670-686 | notes start in playing order |
| Playback.BeatDuration | src/audioSynthesis.js:671 | a positive tempo and a non-negative speed give a non-negative beat, and a positive speed a positive one |
| Playback.PhrasePlayTime | src/audioSynthesis.js:674-679 | the notes of a phrase whose notes last 0.25 to 0.75 seconds, as generated notes do, play for between a quarter and three quarters of a second per note |
| Playback.SectionPlayTime | src/audioSynthesis.js:698-703 | a section of b beats with two such notes per beat plays its notes for between b/2 and 3b/2 seconds |
| Playback.PhraseGaps | src/audioSynthesis.js:683 | the pauses after n phrases add up to n half-beats, and a non-negative beat never moves the cursor back |
| Playback.SectionGaps | src/audioSynthesis.js:707 | a non-negative beat gives no negative chord-change pause, so the cursor never moves back |
| Playback.ScaledSum | src/audioSynthesis.js:707 | scaling every pause by one factor scales their total by it |
| Playback.SectionPauses | src/audioSynthesis.js:707 | the chord-change pauses add up to a tenth of a beat per beat of the progression |
| Playback.SoloSchedule | src/audioSynthesis.js:665-687 | a phrase solo is scheduled phrase by phrase; a solo without phrases cannot be walked |
| Playback.ProgressionSchedule | src/audioSynthesis.js:689-711 | a section solo is scheduled section by section; a solo without sections cannot be walked |
| Playback.ScheduleSolo | src/audioSynthesis.js:670-686 | the `playSolo` loops compute the solo's schedule |
| Playback.ScheduleProgression | src/audioSynthesis.js:694-710 | the `playProgression` loops compute the progression's schedule |
| Playback.SoloTotal | src/audioSynthesis.js:670-686 | at any non-zero tempo `playSolo` returns the note time plus half a beat per phrase; at a positive tempo and speed that is never less than the note time |
| Playback.ProgressionTotal | src/audioSynthesis.js:694-710 | at any non-zero tempo `playProgression` returns the note time plus a tenth of a beat per beat of the progression; at a positive tempo and speed that is never less than the note time |
| Synthesizer.Route | src/audioSynthesis.js:723-738 | the source feeds the first stage, each stage feeds the next, and the last feeds the master gain; with an empty chain the source goes straight to the master |
| Synthesizer.RouteThroughRouted | src/audioSynthesis.js:723-738 | a note passes through an effect exactly when that effect is enabled and holds a node |
| Synthesizer.InitializeRoutesEnabled | src/audioSynthesis.js:94-107 | after initialisation an effect is in the chain exactly when it is enabled, except the EQ, which never has a `node` |
| Synthesizer.GuitarSynthesizer.constructor | src/audioSynthesis.js:2-32 | a new synthesizer holds the starting effect table, an empty chain, and is not initialised |
| Synthesizer.GuitarSynthesizer.Initialize | src/audioSynthesis.js:35-58 | succeeds when already initialised or when an audio context is available; a first success attaches the graphs and rebuilds the chain, and a failure changes nothing |
| Synthesizer.GuitarSynthesizer.RebuildEffectChain | src/audioSynthesis.js:477-489 | the chain becomes the chain of the current table; the table is unchanged |
| Synthesizer.GuitarSynthesizer.ToggleEffect | src/audioSynthesis.js:525-530 | an unknown name changes nothing; otherwise the effect's `enabled` is set and the chain is rebuilt |
| Synthesizer.GuitarSynthesizer.UpdateEffect | src/audioSynthesis.js:491-523 | an unknown name changes nothing; otherwise the named property is written and the chain is left as it was |
| Synthesizer.GuitarSynthesizer.WriteParam | src/audioSynthesis.js:837 | a preset's parameter write keeps the chain current |
| Synthesizer.GuitarSynthesizer.ApplyParams | src/audioSynthesis.js:835-839 | the parameter loop performs the entry's writes in order |
| Synthesizer.GuitarSynthesizer.ApplyPresetEntry | src/audioSynthesis.js:829-839 | one preset entry toggles its effect, then writes its parameters |
| Synthesizer.GuitarSynthesizer.ApplyEntryList | src/audioSynthesis.js:828-840 | the loop over a preset's entries gives the table the preset specifies, with the chain current |
| Synthesizer.GuitarSynthesizer.ApplyEffectPreset | src/audioSynthesis.js:741-841 | an unknown preset changes nothing; a known one leaves the table its entries specify, with the chain rebuilt |
| Synthesizer.GuitarSynthesizer.ConnectThroughEffects | src/audioSynthesis.js:723-738 | the connections made are the route through the current chain |
| Synthesizer.GuitarSynthesizer.PlaySolo | src/audioSynthesis.js:665-687 | initialises on first use; once initialised, returns the solo's schedule, whose total is the time `playSolo` returns |
| Synthesizer.GuitarSynthesizer.PlayProgression | src/audioSynthesis.js:689-711 | initialises on first use; once initialised, returns the progression's schedule |

## Findings

| source | as written | input that shows it | evidently intended | confidence | as-written member | corrected member |
|---|---|---|---|---|---|---|
| src/audioSynthesis.js:613-620 | the hammer-on reads `harmonics[index]` by oscillator position, but inaudible harmonics get no oscillator, so positions and harmonic numbers drift apart | harmonics [1.0, 0.005, 0.5]: the second oscillator is harmonic 2 (amplitude 0.5) but is ramped from 0.0075 to 0.005 | emphasise each overtone from 1.5 times its own amplitude back to that amplitude | not executed | Voice.HammerAsWrittenMisreadsBank | Voice.HammerEmphasises |

## Left out

- Web Audio plumbing is left out: node creation, `connect`, `setValueAtTime` scheduling, reverb impulses, the distortion curve, oscillator start and stop, and `dispose`. The model keeps the values written and the routing made.
- `midiToFreq` and the `frequency` field of a note are left out, because they need floating-point powers; notes carry their MIDI number and name.
- `Math.random()` becomes explicit draws in [0, 1) passed by the caller, and timers and `await` become a sequential schedule and a `contextAvailable` flag for whether an audio context can be made.
- When no audio context can be made, `initialize` rethrows the error (src/audioSynthesis.js:54-56), so `playSolo` and `playProgression` reject. In the model, `Synthesizer.GuitarSynthesizer.Initialize` returns `ok == false` and leaves the state unchanged, and `PlaySolo` and `PlayProgression` return `None`.
- Default arguments are not modelled as defaults: every operation takes them as explicit parameters, so a caller passes the defaults by hand. These are `scaleType = 'blues'` of `generateScale`, `length = 4` of `generateLick`, `length = 8` of the two rhythm generators, the `generateSolo` option defaults (key 60, 'blues', 4 phrases of 8 notes, tempo 120), the `'twelve_bar'` progression and key 60 of `generateSoloOverProgression`, and `playbackSpeed = 1.0` of `playSolo` and `playProgression`.
- The application shell (src/app.js, the page and its controls) is not part of this model.
- An unknown scale type or progression throws a TypeError in the code; the model returns a `Failure` naming it.
- `BluesGenerator.GenerateLick` requires a non-empty scale: an empty scale makes the code index `undefined` and produce notes with no pitch, which a `Pitch` cannot hold.
- Negative MIDI keys are left out (`Pitch` is a natural number), because `%` on negatives differs between JavaScript and Dafny.
- `Playback.BeatDuration` requires a non-zero tempo; the code divides by zero and schedules with an infinite beat.
- `Playback.SoloSchedule` and `Playback.ProgressionSchedule` give `None` for a solo of the other kind, where the code's loop over a missing field throws.
- Lookups of effect and preset names that hit inherited object members (`"constructor"`, `"toString"`) are treated as unknown names.
- The effect chain holds effect names, not graph nodes; routing works on those names.
- `applyTechnique` is modelled only for the hammer-on; bend, slide, vibrato and pull-off schedule parameter ramps and are left out with the rest of the audio timing.
- Non-numeric knob values are not coerced: the settings arithmetic takes reals.
- `setMasterVolume`, `updateSynthParams` and `playNote` are left out, because they only forward values to audio nodes; `createGuitarOscillator` is modelled only for which harmonics sound.
- `getEffectSettings` is left out: it hands back the live effect table object itself, and the model has no aliasing of the table to express what a caller could do with it.
- The compressor's settings are left out: attack and release are fixed constants and threshold and ratio are passed through unchanged, so there is no arithmetic to state.
- The fixed 0.5 wet and 0.5 dry levels of the chorus, phaser and flanger, and the distortion's fixed post-gain of 0.3, are left out: they do not depend on any knob.
- The flanger's base delay time is never set by its settings routine, so the model only relates the delay knob to the size of the swing (`EffectSettings.FlangerDepth`).
- `updateEffect`'s call of the matching settings routine is modelled by the separate settings arithmetic in `EffectSettings`, not as a step of `Synthesizer.GuitarSynthesizer.UpdateEffect`.
