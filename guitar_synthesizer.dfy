/**
 * The control state of the guitar synthesizer: the table of effect
 * records, the effect chain derived from it, and the initialisation flag,
 * with the operations that change them and the routing and playback
 * schedules they lead to. The audio graph itself is not modelled: an effect
 * holding its graph is a record whose `node` (for the EQ, `nodes`) is a
 * `Graph` value, and the chain holds effect names where the JavaScript holds
 * their graphs.
 */
module Synthesizer {
  import opened Options
  import opened EffectTable
  import opened BluesGenerator
  import opened Playback

  /** An end of a connection made by `connectThroughEffects`. */
  datatype Port = Source | Stage(effect: EffectName) | Master

  /** The connections from a note's source through a chain to the master
      gain: source to the first effect, each effect to the next, the last
      to master; with no effects, source straight to master. */
  function Route(chain: seq<EffectName>): (links: seq<(Port, Port)>)
    ensures |links| == |chain| + 1
    ensures links[0].0 == Source && links[|chain|].1 == Master
    ensures forall i :: 0 <= i < |chain| ==> links[i].1 == Stage(chain[i]) && links[i + 1].0 == Stage(chain[i])
  {
    seq(|chain| + 1, i requires 0 <= i <= |chain| =>
      (if i == 0 then Source else Stage(chain[i - 1]),
       if i == |chain| then Master else Stage(chain[i])))
  }

  /** Once the chain is current, a note passes through an effect exactly
      when that effect is routed. */
  lemma {:induction false} RouteThroughRouted(t: Table, e: EffectName)
    ensures (exists i :: 0 <= i < |ChainOf(t)| && Route(ChainOf(t))[i].1 == Stage(e)) <==> Routed(t, e)
  {
    var chain := ChainOf(t);
    ChainFacts(t);
    if Routed(t, e) {
      var i :| 0 <= i < |chain| && chain[i] == e;
      assert Route(chain)[i].1 == Stage(e);
    }
  }

  class GuitarSynthesizer {
    var effects: Table
    var effectChain: seq<EffectName>
    var isInitialized: bool

    /** Every effect has its record. */
    predicate Valid()
      reads this
    {
      Full(effects)
    }

    /** The chain is the canonical order filtered to routed effects. */
    predicate ChainCurrent()
      reads this
    {
      effectChain == ChainOf(effects)
    }

    /** What `initialize` leaves behind, from the state before it and
        whether an audio context could be had. */
    predicate InitializedFrom(effects0: Table, chain0: seq<EffectName>, initialized0: bool, contextAvailable: bool)
      reads this
    {
      if initialized0 then effects == effects0 && effectChain == chain0 && isInitialized
      else if contextAvailable then effects == Attach(effects0) && ChainCurrent() && isInitialized
      else effects == effects0 && effectChain == chain0 && !isInitialized
    }

    constructor()
      ensures effects == InitialEffects && effectChain == [] && !isInitialized
      ensures Valid() && ChainCurrent()
    {
      effects := InitialEffects;
      effectChain := [];
      isInitialized := false;
      InitialEffectsShape();
      InitialChainEmpty();
    }

    /** `initialize`: does nothing once initialised; otherwise builds every
        effect's graph and the chain, unless no audio context is available,
        in which case it fails and nothing changes. */
    method Initialize(contextAvailable: bool) returns (ok: bool)
      requires Valid()
      modifies this
      ensures Valid()
      ensures ok <==> old(isInitialized) || contextAvailable
      ensures InitializedFrom(old(effects), old(effectChain), old(isInitialized), contextAvailable)
    {
      if isInitialized {
        return true;
      }
      if !contextAvailable {
        return false;
      }
      effects := Attach(effects);
      RebuildEffectChain();
      isInitialized := true;
      return true;
    }

    /** `rebuildEffectChain`: one pass over the canonical order, keeping the
        effects that are enabled and hold their graph. */
    method RebuildEffectChain()
      requires Valid()
      modifies this
      ensures Valid() && ChainCurrent()
      ensures effects == old(effects) && isInitialized == old(isInitialized)
    {
      effectChain := [];
      var i := 0;
      while i < |EffectOrder|
        invariant 0 <= i <= |EffectOrder|
        invariant effects == old(effects) && isInitialized == old(isInitialized)
        invariant effectChain == Filter(EffectOrder[..i], effects)
      {
        var e := EffectOrder[i];
        assert EffectOrder[..i + 1][..i] == EffectOrder[..i];
        if Holds(effects[e], Enabled) && Holds(effects[e], Node) {
          effectChain := effectChain + [e];
        }
        i := i + 1;
      }
      assert EffectOrder[..i] == EffectOrder;
    }

    /** `toggleEffect`: an unknown name changes nothing; otherwise only that
        effect's `enabled` is written and the chain is rebuilt. */
    method ToggleEffect(name: string, enabled: bool)
      requires Valid()
      modifies this
      ensures Valid() && isInitialized == old(isInitialized)
      ensures Parse(name).None? ==> effects == old(effects) && effectChain == old(effectChain)
      ensures Parse(name).Some? ==> effects == Toggle(old(effects), Parse(name).value, enabled) && ChainCurrent()
    {
      var found := Parse(name);
      if found.None? {
        return;
      }
      var e := found.value;
      effects := effects[e := effects[e][Enabled := Flag(enabled)]];
      RebuildEffectChain();
    }

    /** `updateEffect`: an unknown name changes nothing; otherwise exactly
        one property of that one record is written, whatever its name, and
        the chain is left as it was. */
    method UpdateEffect(name: string, parameter: string, value: Value)
      requires Valid()
      modifies this
      ensures Valid() && isInitialized == old(isInitialized) && effectChain == old(effectChain)
      ensures Parse(name).None? ==> effects == old(effects)
      ensures Parse(name).Some? ==> effects == Update(old(effects), Parse(name).value, PropOf(parameter), value)
    {
      var found := Parse(name);
      if found.None? {
        return;
      }
      var e := found.value;
      effects := effects[e := effects[e][PropOf(parameter) := value]];
    }

    /** One `updateEffect` call of `applyEffectPreset`, by the names the
        preset spells. The property is neither `enabled` nor `node`, so the
        chain stays current. */
    method WriteParam(e: EffectName, key: Prop, value: Value)
      requires Valid() && ChainCurrent()
      requires key != Enabled && key != Node && !key.Other?
      modifies this
      ensures Valid() && ChainCurrent() && isInitialized == old(isInitialized)
      ensures effects == Update(old(effects), e, key, value)
    {
      ParseName(e);
      PropRoundTrip(key);
      ChainIgnoresParams(effects, e, key, value);
      UpdateEffect(Name(e), PropName(key), value);
    }

    /** The inner loop of `applyEffectPreset`: writes an entry's parameters
        one after another. */
    method ApplyParams(e: EffectName, params: seq<(Prop, Value)>)
      requires Valid() && ChainCurrent()
      requires forall q :: 0 <= q < |params| ==> params[q].0 != Enabled && params[q].0 != Node && !params[q].0.Other?
      modifies this
      ensures Valid() && ChainCurrent() && isInitialized == old(isInitialized)
      ensures effects == UpdateAll(old(effects), e, params)
    {
      var q := 0;
      while q < |params|
        invariant 0 <= q <= |params|
        invariant Valid() && ChainCurrent() && isInitialized == old(isInitialized)
        invariant effects == UpdateAll(old(effects), e, params[..q])
      {
        assert params[..q + 1][..q] == params[..q];
        WriteParam(e, params[q].0, params[q].1);
        q := q + 1;
      }
      assert params[..q] == params;
    }

    /** One entry of a preset: `toggleEffect`, then its parameters. */
    method ApplyPresetEntry(entry: PresetEntry)
      requires Valid() && EntryWellFormed(entry)
      modifies this
      ensures Valid() && ChainCurrent() && isInitialized == old(isInitialized)
      ensures effects == ApplyEntry(old(effects), entry)
    {
      ParseName(entry.effect);
      ToggleEffect(Name(entry.effect), entry.enabled);
      ApplyParams(entry.effect, entry.params);
    }

    /** The outer loop of `applyEffectPreset`: every entry in turn. */
    method ApplyEntryList(entries: seq<PresetEntry>)
      requires Valid() && |entries| > 0
      requires forall j :: 0 <= j < |entries| ==> EntryWellFormed(entries[j])
      modifies this
      ensures Valid() && ChainCurrent() && isInitialized == old(isInitialized)
      ensures effects == ApplyEntries(old(effects), entries)
    {
      var j := 0;
      while j < |entries|
        invariant 0 <= j <= |entries|
        invariant Valid() && isInitialized == old(isInitialized)
        invariant j > 0 ==> ChainCurrent()
        invariant effects == ApplyEntries(old(effects), entries[..j])
      {
        ApplyPresetEntry(entries[j]);
        ApplyEntriesStep(old(effects), entries, j);
        j := j + 1;
      }
      assert entries[..j] == entries;
    }

    /** `applyEffectPreset`: an unknown preset changes nothing; otherwise
        every entry of the preset is toggled and its parameters written, in
        the preset's order, and the chain ends current. */
    method ApplyEffectPreset(name: string)
      requires Valid()
      modifies this
      ensures Valid() && isInitialized == old(isInitialized)
      ensures PresetNamed(name).None? ==> effects == old(effects) && effectChain == old(effectChain)
      ensures PresetNamed(name).Some? ==>
        effects == ApplyEntries(old(effects), Entries(PresetNamed(name).value)) && ChainCurrent()
    {
      var preset := PresetNamed(name);
      if preset.None? {
        return;
      }
      PresetsWellFormed(preset.value);
      ApplyEntryList(Entries(preset.value));
    }

    /** `connectThroughEffects`: the connections a note's source makes,
        through the current chain in its order, to the master gain. */
    method ConnectThroughEffects() returns (links: seq<(Port, Port)>)
      ensures links == Route(effectChain)
    {
      var current := Source;
      links := [];
      var i := 0;
      while i < |effectChain|
        invariant 0 <= i <= |effectChain|
        invariant current == if i == 0 then Source else Stage(effectChain[i - 1])
        invariant links == Route(effectChain)[..i]
      {
        links := links + [(current, Stage(effectChain[i]))];
        current := Stage(effectChain[i]);
        i := i + 1;
      }
      links := links + [(current, Master)];
    }

    /** `playSolo`: initialises if need be, then walks the phrases with the
        time cursor. Fails when initialisation fails or the solo has no
        phrases to walk. */
    method PlaySolo(solo: Solo, speed: real, contextAvailable: bool) returns (r: Option<Schedule>)
      requires Valid() && TempoOf(solo) != 0
      modifies this
      ensures Valid()
      ensures InitializedFrom(old(effects), old(effectChain), old(isInitialized), contextAvailable)
      ensures r == if old(isInitialized) || contextAvailable then SoloSchedule(solo, speed) else None
    {
      if !isInitialized {
        var ok := Initialize(contextAvailable);
        if !ok {
          return None;
        }
      }
      r := ScheduleSolo(solo, speed);
    }

    /** `playProgression`: as `playSolo`, walking sections. */
    method PlayProgression(solo: Solo, speed: real, contextAvailable: bool) returns (r: Option<Schedule>)
      requires Valid() && TempoOf(solo) != 0
      modifies this
      ensures Valid()
      ensures InitializedFrom(old(effects), old(effectChain), old(isInitialized), contextAvailable)
      ensures r == if old(isInitialized) || contextAvailable then ProgressionSchedule(solo, speed) else None
    {
      if !isInitialized {
        var ok := Initialize(contextAvailable);
        if !ok {
          return None;
        }
      }
      r := ScheduleProgression(solo, speed);
    }
  }

  /** After a successful first initialisation an effect is in the chain
      exactly when it was enabled, except the EQ, which would also need a
      truthy `node`. */
  lemma {:induction false} InitializeRoutesEnabled(effects0: Table, e: EffectName)
    requires Full(effects0)
    ensures e in ChainOf(Attach(effects0)) <==> Holds(effects0[e], Enabled) && (e != Eq || Holds(effects0[e], Node))
  {
    ChainFacts(Attach(effects0));
    AttachRouting(effects0, e);
  }
}
