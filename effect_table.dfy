/** The effect state of `GuitarSynthesizer` (src/audioSynthesis.js) as values:
    the table of eight effect records, the chain derived from it, and the
    preset table with the writes a preset performs.

    A record is a JavaScript object, so it is a map from property names to
    values; a property that is absent reads as `undefined`, which is falsy,
    exactly as `Holds` treats it. The class in the `Synthesizer` module
    updates a table of this shape in place and is specified by the
    functions here. */
module EffectTable {
  import opened Options

  /** A property value: a boolean, a number, an audio node graph (an object,
      always truthy) or `null`. */
  datatype Value = Flag(b: bool) | Num(x: real) | Graph | Null

  /** JavaScript truthiness of a value. */
  predicate Truthy(v: Value) {
    match v
    case Flag(b) => b
    case Num(x) => x != 0.0
    case Graph => true
    case Null => false
  }

  /** A property name of an effect record. The names the JavaScript uses have
      their own constructor; `Other` carries any other name, and `PropOf`
      only builds it for such names, so each string has one property. */
  datatype Prop =
    | Enabled | Node | Nodes
    | Gain | Tone | Time | Feedback | Mix | Rate | Depth | Threshold | Ratio
    | Frequency | Q | Sensitivity | AutoSweep | DelayMs | Bass | Mid | Treble
    | Other(name: string)

  /** The property name as the JavaScript spells it. */
  function PropName(p: Prop): string {
    match p
    case Enabled => "enabled"
    case Node => "node"
    case Nodes => "nodes"
    case Gain => "gain"
    case Tone => "tone"
    case Time => "time"
    case Feedback => "feedback"
    case Mix => "mix"
    case Rate => "rate"
    case Depth => "depth"
    case Threshold => "threshold"
    case Ratio => "ratio"
    case Frequency => "frequency"
    case Q => "q"
    case Sensitivity => "sensitivity"
    case AutoSweep => "autoSweep"
    case DelayMs => "delay"
    case Bass => "bass"
    case Mid => "mid"
    case Treble => "treble"
    case Other(name) => name
  }

  /** The property a string names; since `PropName` recovers the string,
      distinct strings name distinct properties. */
  function PropOf(s: string): (p: Prop)
    ensures PropName(p) == s
  {
    if s == "enabled" then Enabled
    else if s == "node" then Node
    else if s == "nodes" then Nodes
    else if s == "gain" then Gain
    else if s == "tone" then Tone
    else if s == "time" then Time
    else if s == "feedback" then Feedback
    else if s == "mix" then Mix
    else if s == "rate" then Rate
    else if s == "depth" then Depth
    else if s == "threshold" then Threshold
    else if s == "ratio" then Ratio
    else if s == "frequency" then Frequency
    else if s == "q" then Q
    else if s == "sensitivity" then Sensitivity
    else if s == "autoSweep" then AutoSweep
    else if s == "delay" then DelayMs
    else if s == "bass" then Bass
    else if s == "mid" then Mid
    else if s == "treble" then Treble
    else Other(s)
  }

  /** Every property the JavaScript names is found under its own name again. */
  lemma {:induction false} PropRoundTrip(p: Prop)
    requires !p.Other?
    ensures PropOf(PropName(p)) == p
  {
  }

  type Record = map<Prop, Value>

  /** `record[key]` is truthy; an absent key reads as `undefined`. */
  predicate Holds(r: Record, key: Prop) {
    key in r && Truthy(r[key])
  }

  /** The eight keys of the `effects` object. */
  datatype EffectName = Compressor | Distortion | Wah | Phaser | Flanger | Eq | Chorus | Delay

  type Table = map<EffectName, Record>

  /** The table has a record for every effect. */
  predicate Full(t: Table) {
    forall e: EffectName :: e in t
  }

  /** The property name of an effect in the `effects` object. */
  function Name(e: EffectName): string {
    match e
    case Compressor => "compressor"
    case Distortion => "distortion"
    case Wah => "wah"
    case Phaser => "phaser"
    case Flanger => "flanger"
    case Eq => "eq"
    case Chorus => "chorus"
    case Delay => "delay"
  }

  /** `this.effects[effectName]` as a lookup: the effect a string names, or
      `None` when no effect has that name. */
  function Parse(s: string): (r: Option<EffectName>)
    ensures r.Some? ==> Name(r.value) == s
  {
    if s == "compressor" then Some(Compressor)
    else if s == "distortion" then Some(Distortion)
    else if s == "wah" then Some(Wah)
    else if s == "phaser" then Some(Phaser)
    else if s == "flanger" then Some(Flanger)
    else if s == "eq" then Some(Eq)
    else if s == "chorus" then Some(Chorus)
    else if s == "delay" then Some(Delay)
    else None
  }

  /** Every effect is found under its own name, so `Parse` and `Name` are
      inverse: `Parse(s) == Some(e)` exactly when `s == Name(e)`. */
  lemma {:induction false} ParseName(e: EffectName)
    ensures Parse(Name(e)) == Some(e)
  {
    match e
    case Compressor =>
    case Distortion => assert Name(e) != "compressor";
    case Wah => assert Name(e) != "compressor" && Name(e) != "distortion";
    case Phaser => assert Name(e) != "compressor" && Name(e) != "distortion";
    case Flanger => assert Name(e) != "compressor" && Name(e) != "distortion";
    case Eq => assert Name(e) != "compressor" && Name(e) != "distortion";
    case Chorus => assert Name(e) != "compressor" && Name(e) != "distortion";
    case Delay => assert Name(e) != "compressor" && Name(e) != "distortion";
  }

  /** The initial `effects` object: every effect disabled, no node graph
      yet, and the EQ holding its (absent) graph under `nodes`. */
  const InitialEffects: Table := map[
    Distortion := map[Enabled := Flag(false), Gain := Num(50.0), Tone := Num(50.0), Node := Null],
    Delay := map[Enabled := Flag(false), Time := Num(300.0), Feedback := Num(30.0), Mix := Num(25.0),
                 Node := Null],
    Chorus := map[Enabled := Flag(false), Rate := Num(1.5), Depth := Num(50.0), Node := Null],
    Compressor := map[Enabled := Flag(false), Threshold := Num(-24.0), Ratio := Num(4.0), Node := Null],
    Wah := map[Enabled := Flag(false), Frequency := Num(800.0), Q := Num(10.0), Sensitivity := Num(50.0),
               AutoSweep := Flag(false), Node := Null],
    Phaser := map[Enabled := Flag(false), Rate := Num(0.5), Depth := Num(70.0), Feedback := Num(30.0),
                  Node := Null],
    Flanger := map[Enabled := Flag(false), Rate := Num(0.3), Depth := Num(80.0), Feedback := Num(20.0),
                   DelayMs := Num(5.0), Node := Null],
    Eq := map[Enabled := Flag(false), Bass := Num(0.0), Mid := Num(0.0), Treble := Num(0.0),
              Nodes := Null]
  ]

  /** The initial table has all eight effects, all disabled, and the EQ has
      no `node` property. */
  lemma {:induction false} InitialEffectsShape()
    ensures Full(InitialEffects)
    ensures forall e :: e in InitialEffects ==> InitialEffects[e][Enabled] == Flag(false)
    ensures Node !in InitialEffects[Eq]
  {
    forall e: EffectName
      ensures e in InitialEffects
    {
      match e
      case Compressor => case Distortion => case Wah => case Phaser =>
      case Flanger => case Eq => case Chorus => case Delay =>
    }
  }

  // ---------------------------------------------------------------------------
  // The effect chain

  /** Signal-chain order: compressor, distortion, wah, phaser, flanger, eq,
      chorus, delay. */
  const EffectOrder: seq<EffectName> :=
    [Compressor, Distortion, Wah, Phaser, Flanger, Eq, Chorus, Delay]

  /** The position of an effect in `EffectOrder`. */
  function Rank(e: EffectName): (r: nat)
    ensures r < |EffectOrder| && EffectOrder[r] == e
  {
    match e
    case Compressor => 0
    case Distortion => 1
    case Wah => 2
    case Phaser => 3
    case Flanger => 4
    case Eq => 5
    case Chorus => 6
    case Delay => 7
  }

  /** `effect.enabled && effect.node`: the test that puts an effect in the
      chain. */
  predicate Routed(t: Table, e: EffectName) {
    e in t && Holds(t[e], Enabled) && Holds(t[e], Node)
  }

  /** The routed effects of `order`, in the order given. */
  function Filter(order: seq<EffectName>, t: Table): (chain: seq<EffectName>)
    ensures |chain| <= |order|
  {
    if order == [] then []
    else
      var last := order[|order| - 1];
      Filter(order[..|order| - 1], t) + (if Routed(t, last) then [last] else [])
  }

  /** The chain `rebuildEffectChain` builds from table `t`. */
  function ChainOf(t: Table): seq<EffectName> {
    Filter(EffectOrder, t)
  }

  /** An effect is filtered in exactly when it is in the order and routed. */
  lemma {:induction false} FilterMembers(order: seq<EffectName>, t: Table, e: EffectName)
    ensures e in Filter(order, t) <==> e in order && Routed(t, e)
    decreases |order|
  {
    if order != [] {
      var init := order[..|order| - 1];
      FilterMembers(init, t, e);
      assert order == init + [order[|order| - 1]];
    }
  }

  /** Filtering keeps the relative order of the effects it keeps. */
  lemma {:induction false} FilterOrdered(order: seq<EffectName>, t: Table)
    requires forall i, j :: 0 <= i < j < |order| ==> Rank(order[i]) < Rank(order[j])
    ensures var chain := Filter(order, t);
      forall i, j :: 0 <= i < j < |chain| ==> Rank(chain[i]) < Rank(chain[j])
    decreases |order|
  {
    if order != [] {
      var init := order[..|order| - 1];
      var last := order[|order| - 1];
      FilterOrdered(init, t);
      var front := Filter(init, t);
      forall i | 0 <= i < |front|
        ensures Rank(front[i]) < Rank(last)
      {
        FilterMembers(init, t, front[i]);
        var k :| 0 <= k < |init| && init[k] == front[i];
        assert order[k] == front[i];
      }
    }
  }

  /** Filtering depends on the table only through which effects are routed. */
  lemma {:induction false} FilterDependsOnlyOnRouting(order: seq<EffectName>, t1: Table, t2: Table)
    requires forall e :: Routed(t1, e) <==> Routed(t2, e)
    ensures Filter(order, t1) == Filter(order, t2)
    decreases |order|
  {
    if order != [] {
      FilterDependsOnlyOnRouting(order[..|order| - 1], t1, t2);
    }
  }

  /** The chain holds exactly the routed effects, each once, in signal-chain
      order, so at most eight of them. */
  lemma {:induction false} ChainFacts(t: Table)
    ensures forall e :: e in ChainOf(t) <==> Routed(t, e)
    ensures forall i, j :: 0 <= i < j < |ChainOf(t)| ==> Rank(ChainOf(t)[i]) < Rank(ChainOf(t)[j])
    ensures forall i, j :: 0 <= i < j < |ChainOf(t)| ==> ChainOf(t)[i] != ChainOf(t)[j]
    ensures |ChainOf(t)| <= 8
  {
    forall e
      ensures e in ChainOf(t) <==> Routed(t, e)
    {
      FilterMembers(EffectOrder, t, e);
      assert EffectOrder[Rank(e)] == e;
    }
    OrderRanked();
    FilterOrdered(EffectOrder, t);
    var chain := ChainOf(t);
    assert chain == Filter(EffectOrder, t);
    forall i, j | 0 <= i < j < |chain|
      ensures chain[i] != chain[j]
    {
      assert Rank(chain[i]) < Rank(chain[j]);
    }
  }

  /** `EffectOrder` lists the effects by rising rank. */
  lemma {:induction false} OrderRanked()
    ensures forall i, j :: 0 <= i < j < |EffectOrder| ==> Rank(EffectOrder[i]) < Rank(EffectOrder[j])
  {
    forall i | 0 <= i < |EffectOrder|
      ensures Rank(EffectOrder[i]) == i
    {
      var e := EffectOrder[i];
      assert EffectOrder[Rank(e)] == e;
    }
  }

  /** The chain does not depend on the order in which effects were toggled:
      two tables that route the same effects have the same chain. */
  lemma {:induction false} ChainDependsOnlyOnRouting(t1: Table, t2: Table)
    requires forall e :: Routed(t1, e) <==> Routed(t2, e)
    ensures ChainOf(t1) == ChainOf(t2)
  {
    FilterDependsOnlyOnRouting(EffectOrder, t1, t2);
  }

  /** The EQ keeps its graph under `nodes`, so while its record has no truthy
      `node` it never enters the chain, enabled or not. */
  lemma {:induction false} EqNeverInChain(t: Table)
    requires Eq in t && !Holds(t[Eq], Node)
    ensures Eq !in ChainOf(t)
  {
    FilterMembers(EffectOrder, t, Eq);
  }

  /** Writing a property other than `enabled` and `node` leaves the chain as
      it was. */
  lemma {:induction false} ChainIgnoresParams(t: Table, e: EffectName, key: Prop, v: Value)
    requires e in t && key != Enabled && key != Node
    ensures ChainOf(t[e := t[e][key := v]]) == ChainOf(t)
  {
    var t' := t[e := t[e][key := v]];
    forall f
      ensures Routed(t', f) <==> Routed(t, f)
    {
      if f == e {
        assert Holds(t'[f], Enabled) == Holds(t[f], Enabled);
      }
    }
    ChainDependsOnlyOnRouting(t', t);
  }

  // ---------------------------------------------------------------------------
  // Writes: toggling, updating and attaching node graphs

  /** `toggleEffect`'s write: set `enabled`; no effect of that name, no
      change. */
  function Toggle(t: Table, e: EffectName, enabled: bool): (t': Table)
    ensures t'.Keys == t.Keys
  {
    if e in t then t[e := t[e][Enabled := Flag(enabled)]] else t
  }

  /** `updateEffect`'s write: set one property of one record. */
  function Update(t: Table, e: EffectName, key: Prop, v: Value): (t': Table)
    ensures t'.Keys == t.Keys
  {
    if e in t then t[e := t[e][key := v]] else t
  }

  /** A toggle changes that effect's `enabled` property and nothing else. */
  lemma {:induction false} ToggleTouchesOnlyEnabled(t: Table, e: EffectName, enabled: bool)
    requires e in t
    ensures var t' := Toggle(t, e, enabled);
      && t'[e][Enabled] == Flag(enabled)
      && (forall k :: k != Enabled ==> (k in t'[e] <==> k in t[e]))
      && (forall k :: k != Enabled && k in t[e] ==> t'[e][k] == t[e][k])
      && (forall f :: f in t && f != e ==> t'[f] == t[f])
  {
  }

  /** `createXEffect` for all eight effects: the graph goes under `node`,
      except for the EQ, which stores it under `nodes`. */
  function Attach(t: Table): (t': Table)
    ensures t'.Keys == t.Keys
  {
    map e | e in t :: if e == Eq then t[e][Nodes := Graph] else t[e][Node := Graph]
  }

  /** Once the graphs exist an effect is routed exactly when it is enabled,
      except the EQ, which is routed only if something else gave it a truthy
      `node`. */
  lemma {:induction false} AttachRouting(t: Table, e: EffectName)
    ensures Routed(Attach(t), e) <==> e in t && Holds(t[e], Enabled) && (e != Eq || Holds(t[e], Node))
  {
    if e in t {
      if e == Eq {
        assert Attach(t)[e] == t[e][Nodes := Graph];
      } else {
        assert Attach(t)[e] == t[e][Node := Graph];
      }
    }
  }

  /** Filtering one more effect appends it when it is routed. */
  lemma {:induction false} FilterSnoc(order: seq<EffectName>, e: EffectName, t: Table)
    ensures Filter(order + [e], t) == Filter(order, t) + (if Routed(t, e) then [e] else [])
  {
    assert (order + [e])[..|order|] == order;
  }

  /** A table that routes nothing has an empty chain. */
  lemma {:induction false} FilterNoneRouted(order: seq<EffectName>, t: Table)
    requires forall e :: !Routed(t, e)
    ensures Filter(order, t) == []
    decreases |order|
  {
    if order != [] {
      FilterNoneRouted(order[..|order| - 1], t);
    }
  }

  /** The routed effects of a table in `EffectOrder`, one at a time. */
  function Keep(t: Table, e: EffectName): seq<EffectName> {
    if Routed(t, e) then [e] else []
  }

  /** The first half of `EffectOrder` filtered, effect by effect. */
  lemma {:induction false} FirstHalfUnrolled(t: Table)
    ensures Filter(EffectOrder[..4], t)
            == Keep(t, Compressor) + Keep(t, Distortion) + Keep(t, Wah) + Keep(t, Phaser)
  {
    var o := EffectOrder;
    FilterSnoc(o[..0], o[0], t);
    assert o[..1] == o[..0] + [o[0]];
    FilterSnoc(o[..1], o[1], t);
    assert o[..2] == o[..1] + [o[1]];
    FilterSnoc(o[..2], o[2], t);
    assert o[..3] == o[..2] + [o[2]];
    FilterSnoc(o[..3], o[3], t);
    assert o[..4] == o[..3] + [o[3]];
  }

  /** The chain written out effect by effect in `EffectOrder`. */
  lemma {:induction false} ChainUnrolled(t: Table)
    ensures ChainOf(t) == Keep(t, Compressor) + Keep(t, Distortion) + Keep(t, Wah) + Keep(t, Phaser)
                          + Keep(t, Flanger) + Keep(t, Eq) + Keep(t, Chorus) + Keep(t, Delay)
  {
    var o := EffectOrder;
    FirstHalfUnrolled(t);
    FilterSnoc(o[..4], o[4], t);
    assert o[..5] == o[..4] + [o[4]];
    FilterSnoc(o[..5], o[5], t);
    assert o[..6] == o[..5] + [o[5]];
    FilterSnoc(o[..6], o[6], t);
    assert o[..7] == o[..6] + [o[6]];
    FilterSnoc(o[..7], o[7], t);
    assert o == o[..7] + [o[7]];
  }

  /** With every effect disabled the initial chain is empty. */
  lemma {:induction false} InitialChainEmpty()
    ensures ChainOf(InitialEffects) == []
  {
    InitialEffectsShape();
    FilterNoneRouted(EffectOrder, InitialEffects);
  }

  // ---------------------------------------------------------------------------
  // Presets

  /** One effect of a preset: its `enabled` flag and the other properties it
      sets, in the order the preset lists them. */
  datatype PresetEntry = PresetEntry(effect: EffectName, enabled: bool, params: seq<(Prop, Value)>)

  /** Writes `params` into record `e` one after another, as the inner
      `forEach` of `applyEffectPreset` does. */
  function UpdateAll(t: Table, e: EffectName, params: seq<(Prop, Value)>): (t': Table)
    ensures t'.Keys == t.Keys
    decreases |params|
  {
    if params == [] then t
    else
      var last := params[|params| - 1];
      Update(UpdateAll(t, e, params[..|params| - 1]), e, last.0, last.1)
  }

  /** The same writes on the record alone. */
  function SetAll(r: Record, params: seq<(Prop, Value)>): Record
    decreases |params|
  {
    if params == [] then r
    else
      var last := params[|params| - 1];
      SetAll(r, params[..|params| - 1])[last.0 := last.1]
  }

  /** Writing into one record of the table changes that record as `SetAll`
      says and no other record. */
  lemma {:induction false} UpdateAllTouchesOneRecord(t: Table, e: EffectName, params: seq<(Prop, Value)>)
    requires e in t
    ensures UpdateAll(t, e, params) == t[e := SetAll(t[e], params)]
    decreases |params|
  {
    if params != [] {
      UpdateAllTouchesOneRecord(t, e, params[..|params| - 1]);
    }
  }

  /** The property names of a parameter list are distinct. */
  predicate DistinctKeys(params: seq<(Prop, Value)>) {
    forall i, j :: 0 <= i < j < |params| ==> params[i].0 != params[j].0
  }

  /** Each listed property ends with its listed value. */
  lemma {:induction false} SetAllListed(r: Record, params: seq<(Prop, Value)>, q: nat)
    requires DistinctKeys(params) && q < |params|
    ensures params[q].0 in SetAll(r, params) && SetAll(r, params)[params[q].0] == params[q].1
    decreases |params|
  {
    if q < |params| - 1 {
      SetAllListed(r, params[..|params| - 1], q);
    }
  }

  /** A property the list does not name keeps its presence and value. */
  lemma {:induction false} SetAllUnlisted(r: Record, params: seq<(Prop, Value)>, k: Prop)
    requires forall q :: 0 <= q < |params| ==> params[q].0 != k
    ensures k in SetAll(r, params) <==> k in r
    ensures k in r ==> SetAll(r, params)[k] == r[k]
    decreases |params|
  {
    if params != [] {
      SetAllUnlisted(r, params[..|params| - 1], k);
    }
  }

  /** One entry of a preset: toggle, then write the listed properties. */
  function ApplyEntry(t: Table, entry: PresetEntry): (t': Table)
    ensures t'.Keys == t.Keys
  {
    UpdateAll(Toggle(t, entry.effect, entry.enabled), entry.effect, entry.params)
  }

  /** All entries of a preset, in order. */
  function ApplyEntries(t: Table, entries: seq<PresetEntry>): (t': Table)
    ensures t'.Keys == t.Keys
    decreases |entries|
  {
    if entries == [] then t
    else ApplyEntry(ApplyEntries(t, entries[..|entries| - 1]), entries[|entries| - 1])
  }

  /** Applying one more entry applies it to the table the earlier ones left. */
  lemma {:induction false} ApplyEntriesStep(t: Table, entries: seq<PresetEntry>, j: nat)
    requires j < |entries|
    ensures ApplyEntries(t, entries[..j + 1]) == ApplyEntry(ApplyEntries(t, entries[..j]), entries[j])
  {
    assert entries[..j + 1][..j] == entries[..j] && entries[..j + 1][j] == entries[j];
  }

  /** The record one entry produces from the old record. */
  function EntryRecord(r: Record, entry: PresetEntry): Record {
    SetAll(r[Enabled := Flag(entry.enabled)], entry.params)
  }

  /** A list of entries names each effect at most once. */
  predicate DistinctEffects(entries: seq<PresetEntry>) {
    forall i, j :: 0 <= i < j < |entries| ==> entries[i].effect != entries[j].effect
  }

  /** Applying entries for distinct effects: the record of entry `j` is its
      old record as that entry rewrites it, and a record no entry names is
      unchanged. */
  lemma {:induction false} ApplyEntriesFacts(t: Table, entries: seq<PresetEntry>)
    requires Full(t) && DistinctEffects(entries)
    ensures var t' := ApplyEntries(t, entries);
      && (forall j :: 0 <= j < |entries| ==> t'[entries[j].effect] == EntryRecord(t[entries[j].effect], entries[j]))
      && (forall f :: (forall j :: 0 <= j < |entries| ==> entries[j].effect != f) ==> t'[f] == t[f])
    decreases |entries|
  {
    if entries != [] {
      var n := |entries| - 1;
      var init := entries[..n];
      var last := entries[n];
      ApplyEntriesFacts(t, init);
      var mid := ApplyEntries(t, init);
      UpdateAllTouchesOneRecord(Toggle(mid, last.effect, last.enabled), last.effect, last.params);
      forall j | 0 <= j < n
        ensures ApplyEntries(t, entries)[entries[j].effect] == EntryRecord(t[entries[j].effect], entries[j])
      {
        assert init[j] == entries[j];
      }
      forall f | forall j :: 0 <= j < |entries| ==> entries[j].effect != f
        ensures ApplyEntries(t, entries)[f] == t[f]
      {
        assert last.effect != f;
        forall j | 0 <= j < n
          ensures init[j].effect != f
        {
          assert init[j] == entries[j];
        }
      }
    }
  }

  /** The key order of every preset object. */
  const PresetKeyOrder: seq<EffectName> :=
    [Distortion, Delay, Chorus, Compressor, Wah, Phaser, Flanger, Eq]

  /** An entry writes distinct named parameters, never `enabled` or `node`. */
  predicate EntryWellFormed(entry: PresetEntry) {
    && DistinctKeys(entry.params)
    && forall q :: 0 <= q < |entry.params| ==>
         entry.params[q].0 != Enabled && entry.params[q].0 != Node && !entry.params[q].0.Other?
  }

  /** A preset as `applyEffectPreset` needs it: one well-formed entry per
      effect, in the presets' key order. */
  predicate PresetWellFormed(entries: seq<PresetEntry>) {
    && |entries| == |PresetKeyOrder|
    && forall j :: 0 <= j < |entries| ==> entries[j].effect == PresetKeyOrder[j] && EntryWellFormed(entries[j])
  }

  /** The eight presets of `applyEffectPreset`. */
  datatype PresetName = Clean | Blues | Rock | Lead | Funk | Autowah | Ambient | Reggae

  /** The `presets[presetName]` lookup; `None` when there is no such preset. */
  function PresetNamed(name: string): Option<PresetName> {
    if name == "clean" then Some(Clean)
    else if name == "blues" then Some(Blues)
    else if name == "rock" then Some(Rock)
    else if name == "lead" then Some(Lead)
    else if name == "funk" then Some(Funk)
    else if name == "autowah" then Some(Autowah)
    else if name == "ambient" then Some(Ambient)
    else if name == "reggae" then Some(Reggae)
    else None
  }

  /** An effect switched off with no parameters. */
  function Off(e: EffectName): PresetEntry {
    PresetEntry(e, false, [])
  }

  /** What preset `p` says about effect `e`. */
  function Entry(p: PresetName, e: EffectName): (entry: PresetEntry)
    ensures entry.effect == e
  {
    match p
    case Clean => Off(e)
    case Blues =>
      (match e
       case Distortion => PresetEntry(e, true, [(Gain, Num(35.0)), (Tone, Num(60.0))])
       case Compressor => PresetEntry(e, true, [(Threshold, Num(-18.0)), (Ratio, Num(3.0))])
       case Eq => PresetEntry(e, true, [(Bass, Num(2.0)), (Mid, Num(3.0)), (Treble, Num(1.0))])
       case _ => Off(e))
    case Rock =>
      (match e
       case Distortion => PresetEntry(e, true, [(Gain, Num(65.0)), (Tone, Num(45.0))])
       case Compressor => PresetEntry(e, true, [(Threshold, Num(-15.0)), (Ratio, Num(6.0))])
       case Eq => PresetEntry(e, true, [(Bass, Num(4.0)), (Mid, Num(2.0)), (Treble, Num(3.0))])
       case _ => Off(e))
    case Lead =>
      (match e
       case Distortion => PresetEntry(e, true, [(Gain, Num(75.0)), (Tone, Num(70.0))])
       case Delay => PresetEntry(e, true, [(Time, Num(250.0)), (Feedback, Num(25.0)), (Mix, Num(30.0))])
       case Compressor => PresetEntry(e, true, [(Threshold, Num(-12.0)), (Ratio, Num(8.0))])
       case Eq => PresetEntry(e, true, [(Bass, Num(1.0)), (Mid, Num(5.0)), (Treble, Num(4.0))])
       case _ => Off(e))
    case Funk =>
      (match e
       case Compressor => PresetEntry(e, true, [(Threshold, Num(-20.0)), (Ratio, Num(4.0))])
       case Wah => PresetEntry(e, true, [(Frequency, Num(600.0)), (Q, Num(15.0)), (Sensitivity, Num(70.0)),
                                         (AutoSweep, Flag(true))])
       case Phaser => PresetEntry(e, true, [(Rate, Num(0.3)), (Depth, Num(60.0)), (Feedback, Num(25.0))])
       case Eq => PresetEntry(e, true, [(Bass, Num(1.0)), (Mid, Num(2.0)), (Treble, Num(-1.0))])
       case _ => Off(e))
    case Autowah =>
      (match e
       case Distortion => PresetEntry(e, true, [(Gain, Num(25.0)), (Tone, Num(55.0))])
       case Compressor => PresetEntry(e, true, [(Threshold, Num(-16.0)), (Ratio, Num(5.0))])
       case Wah => PresetEntry(e, true, [(Frequency, Num(800.0)), (Q, Num(20.0)), (Sensitivity, Num(80.0)),
                                         (AutoSweep, Flag(true))])
       case Eq => PresetEntry(e, true, [(Bass, Num(0.0)), (Mid, Num(3.0)), (Treble, Num(1.0))])
       case _ => Off(e))
    case Ambient =>
      (match e
       case Delay => PresetEntry(e, true, [(Time, Num(500.0)), (Feedback, Num(45.0)), (Mix, Num(50.0))])
       case Chorus => PresetEntry(e, true, [(Rate, Num(0.8)), (Depth, Num(70.0))])
       case Phaser => PresetEntry(e, true, [(Rate, Num(0.2)), (Depth, Num(50.0)), (Feedback, Num(20.0))])
       case Flanger => PresetEntry(e, true, [(Rate, Num(0.15)), (Depth, Num(60.0)), (Feedback, Num(15.0)),
                                             (DelayMs, Num(8.0))])
       case Eq => PresetEntry(e, true, [(Bass, Num(-2.0)), (Mid, Num(0.0)), (Treble, Num(2.0))])
       case _ => Off(e))
    case Reggae =>
      (match e
       case Delay => PresetEntry(e, true, [(Time, Num(400.0)), (Feedback, Num(35.0)), (Mix, Num(40.0))])
       case Compressor => PresetEntry(e, true, [(Threshold, Num(-22.0)), (Ratio, Num(3.0))])
       case Phaser => PresetEntry(e, true, [(Rate, Num(0.4)), (Depth, Num(45.0)), (Feedback, Num(15.0))])
       case Eq => PresetEntry(e, true, [(Bass, Num(3.0)), (Mid, Num(-2.0)), (Treble, Num(1.0))])
       case _ => Off(e))
  }

  /** The entries of preset `p` in the key order of the preset objects,
      which `Object.keys` visits. */
  function Entries(p: PresetName): (entries: seq<PresetEntry>)
    ensures |entries| == |PresetKeyOrder|
  {
    seq(|PresetKeyOrder|, j requires 0 <= j < |PresetKeyOrder| => Entry(p, PresetKeyOrder[j]))
  }

  /** Every entry of every preset writes distinct parameters, never
      `enabled` or `node`. */
  lemma {:induction false} EntryWellFormedAlways(p: PresetName, e: EffectName)
    ensures EntryWellFormed(Entry(p, e))
  {
    match p
    case Clean =>
    case Blues => BluesWellFormed(e);
    case Rock => RockWellFormed(e);
    case Lead => LeadWellFormed(e);
    case Funk => FunkWellFormed(e);
    case Autowah => AutowahWellFormed(e);
    case Ambient => AmbientWellFormed(e);
    case Reggae => ReggaeWellFormed(e);
  }

  lemma {:induction false} BluesWellFormed(e: EffectName)
    ensures EntryWellFormed(Entry(Blues, e))
  {
  }

  lemma {:induction false} RockWellFormed(e: EffectName)
    ensures EntryWellFormed(Entry(Rock, e))
  {
  }

  lemma {:induction false} LeadWellFormed(e: EffectName)
    ensures EntryWellFormed(Entry(Lead, e))
  {
  }

  lemma {:induction false} FunkWellFormed(e: EffectName)
    ensures EntryWellFormed(Entry(Funk, e))
  {
  }

  lemma {:induction false} AutowahWellFormed(e: EffectName)
    ensures EntryWellFormed(Entry(Autowah, e))
  {
  }

  lemma {:induction false} AmbientWellFormed(e: EffectName)
    ensures EntryWellFormed(Entry(Ambient, e))
  {
  }

  lemma {:induction false} ReggaeWellFormed(e: EffectName)
    ensures EntryWellFormed(Entry(Reggae, e))
  {
  }

  /** Every preset lists the eight effects once each, in key order, with
      well-formed entries. */
  lemma {:induction false} PresetsWellFormed(p: PresetName)
    ensures PresetWellFormed(Entries(p))
  {
    forall j | 0 <= j < |PresetKeyOrder|
      ensures EntryWellFormed(Entries(p)[j])
    {
      EntryWellFormedAlways(p, PresetKeyOrder[j]);
    }
  }

  /** Distinct positions of the key order hold distinct effects. */
  lemma {:induction false} KeyOrderDistinct(entries: seq<PresetEntry>)
    requires PresetWellFormed(entries)
    ensures DistinctEffects(entries)
  {
    forall i, j | 0 <= i < j < |entries|
      ensures entries[i].effect != entries[j].effect
    {
      assert PresetKeyOrder[i] != PresetKeyOrder[j];
    }
  }

  /** What a well-formed preset does to a full table: entry `j`'s effect ends
      with the entry's `enabled` flag and listed values, keeps every other
      property, and is in the new chain exactly when the entry enables it
      and its record already had a truthy `node`. */
  lemma {:induction false} PresetOutcome(t: Table, entries: seq<PresetEntry>, j: nat)
    requires Full(t) && PresetWellFormed(entries) && j < |entries|
    ensures var t' := ApplyEntries(t, entries);
      var e := entries[j].effect;
      var ps := entries[j].params;
      && Full(t')
      && Enabled in t'[e] && t'[e][Enabled] == Flag(entries[j].enabled)
      && (forall q :: 0 <= q < |ps| ==> ps[q].0 in t'[e] && t'[e][ps[q].0] == ps[q].1)
      && (forall k :: k != Enabled && (forall q :: 0 <= q < |ps| ==> ps[q].0 != k) ==>
            (k in t'[e] <==> k in t[e]) && (k in t[e] ==> t'[e][k] == t[e][k]))
      && (e in ChainOf(t') <==> entries[j].enabled && Holds(t[e], Node))
  {
    var t' := ApplyEntries(t, entries);
    var e := entries[j].effect;
    var ps := entries[j].params;
    var toggled := t[e][Enabled := Flag(entries[j].enabled)];
    KeyOrderDistinct(entries);
    ApplyEntriesFacts(t, entries);
    assert t'[e] == SetAll(toggled, ps);
    SetAllUnlisted(toggled, ps, Enabled);
    SetAllUnlisted(toggled, ps, Node);
    forall q | 0 <= q < |ps|
      ensures ps[q].0 in t'[e] && t'[e][ps[q].0] == ps[q].1
    {
      SetAllListed(toggled, ps, q);
    }
    forall k | k != Enabled && (forall q :: 0 <= q < |ps| ==> ps[q].0 != k)
      ensures (k in t'[e] <==> k in t[e]) && (k in t[e] ==> t'[e][k] == t[e][k])
    {
      SetAllUnlisted(toggled, ps, k);
    }
    ChainFacts(t');
  }

  /** The position of each effect in the presets' key order. */
  function KeyPosition(e: EffectName): (j: nat)
    ensures j < |PresetKeyOrder| && PresetKeyOrder[j] == e
  {
    match e
    case Distortion => 0
    case Delay => 1
    case Chorus => 2
    case Compressor => 3
    case Wah => 4
    case Phaser => 5
    case Flanger => 6
    case Eq => 7
  }

  /** The clean preset disables all eight effects and so empties the chain. */
  lemma {:induction false} CleanEmptiesChain(t: Table)
    requires Full(t)
    ensures var t' := ApplyEntries(t, Entries(Clean));
      && (forall e :: Enabled in t'[e] && t'[e][Enabled] == Flag(false))
      && ChainOf(t') == []
  {
    PresetsWellFormed(Clean);
    var t' := ApplyEntries(t, Entries(Clean));
    forall e
      ensures Enabled in t'[e] && t'[e][Enabled] == Flag(false) && !Routed(t', e)
    {
      PresetOutcome(t, Entries(Clean), KeyPosition(e));
    }
    FilterNoneRouted(EffectOrder, t');
  }
}
