/** The feature-gated `scope!` of the older `profiling` crate
    (profiling/src/lib.rs). It has lines for puffin, optick and tracing only,
    and its data form tags optick events with the key "scope_tag". */
module LegacyMacros {
  import opened Syntax
  import opened Expansion
  import Macros

  /** The backends the older `scope!` has lines for. */
  const LegacyBackends: Features := {Puffin, Optick, Tracing}

  function ScopeArmOf(name: string, b: Backend): Block {
    match b
    case Puffin => [Exec(PuffinProfileScope(name))]
    case Optick => [Exec(OptickEvent(Some(name)))]
    case Tracing => [Let("_span", TracingSpan(Info, name, None, None)), Let("_span_entered", TracingEnter("_span"))]
    case _ => []
  }

  function ScopeArm(name: string): Backend -> Block {
    b => ScopeArmOf(name, b)
  }

  /** `scope!(name)` */
  function Scope(f: Features, name: string): (r: Block) {
    Expand(SourceOrder, f, ScopeArm(name))
  }

  function ScopeDataArmOf(name: string, data: string, b: Backend): Block {
    match b
    case Puffin => [Exec(PuffinProfileScopeData(name, data))]
    case Optick => [Exec(OptickEvent(Some(name))), Exec(OptickTag("scope_tag", data))]
    case Tracing => [Let("_span", TracingSpan(Info, name, Some(data), None)), Let("_span_entered", TracingEnter("_span"))]
    case _ => []
  }

  function ScopeDataArm(name: string, data: string): Backend -> Block {
    b => ScopeDataArmOf(name, data, b)
  }

  /** `scope!(name, data)` */
  function ScopeData(f: Features, name: string, data: string): (r: Block) {
    Expand(SourceOrder, f, ScopeDataArm(name, data))
  }

  /** Renames the key of an optick tag from "tag" to "scope_tag". */
  function Retag(s: Stmt): seq<Stmt> {
    match s
    case Exec(OptickTag(_, d)) => [Exec(OptickTag("scope_tag", d))]
    case _ => [s]
  }

  /** The older `scope!(name)` is the main crate's `scope!(name)` with
      superluminal and tracy switched off. */
  lemma ScopeAgreesWithMainCrate(f: Features, name: string)
    ensures Scope(f, name) == Macros.Scope(f * LegacyBackends, name)
  {
    ExpandRestrict(SourceOrder, f, LegacyBackends, ScopeArm(name));
    ExpandCongruent(SourceOrder, f * LegacyBackends, ScopeArm(name), Macros.ScopeArm(name));
  }

  /** The older `scope!(name, data)` is the main crate's with superluminal
      and tracy switched off and optick's tag key renamed. */
  lemma ScopeDataAgreesWithMainCrate(f: Features, name: string, data: string)
    ensures ScopeData(f, name, data) == FlatMap(Macros.ScopeData(f * LegacyBackends, name, data), Retag)
  {
    var g := f * LegacyBackends;
    ExpandRestrict(SourceOrder, f, LegacyBackends, ScopeDataArm(name, data));
    forall b | b in SourceOrder && b in g
      ensures ScopeDataArm(name, data)(b) == FlatMap(Macros.ScopeDataArm(name, data)(b), Retag)
    {
      var arm := Macros.ScopeDataArmOf(name, data, b);
      match b
      case Puffin =>
      case Optick =>
        FlatMapPair(arm[0], arm[1], Retag);
      case Tracing =>
        FlatMapPair(arm[0], arm[1], Retag);
    }
    ExpandFlatMap(SourceOrder, g, Macros.ScopeDataArm(name, data), ScopeDataArm(name, data), Retag);
  }

  lemma ArmsCountOnce(name: string, data: string, b: Backend)
    requires b in LegacyBackends
    ensures Count(ScopeArm(name)(b), Opens) == 1
    ensures Count(ScopeDataArm(name, data)(b), Opens) == 1
    ensures Count(ScopeDataArm(name, data)(b), CarriesData) == 1
  {
    var arm := ScopeDataArmOf(name, data, b);
    if b == Optick {
      CountPair(arm[0], arm[1], Opens);
      CountPair(arm[0], arm[1], CarriesData);
    } else if b == Tracing {
      CountPair(ScopeArmOf(name, b)[0], ScopeArmOf(name, b)[1], Opens);
      CountPair(arm[0], arm[1], Opens);
      CountPair(arm[0], arm[1], CarriesData);
    }
  }

  /** Each enabled backend among puffin, optick and tracing opens one scope;
      superluminal and tracy open none. */
  lemma ScopeOpensPerBackend(f: Features, name: string, data: string)
    ensures Count(Scope(f, name), Opens) == |f * LegacyBackends|
    ensures Count(ScopeData(f, name, data), Opens) == |f * LegacyBackends|
  {
    forall b | b in SourceOrder && b in f && b !in LegacyBackends
      ensures ScopeArm(name)(b) == [] && ScopeDataArm(name, data)(b) == []
    {
    }
    forall b | b in SourceOrder && b in f * LegacyBackends
      ensures Count(ScopeArm(name)(b), Opens) == 1 && Count(ScopeDataArm(name, data)(b), Opens) == 1
    {
      ArmsCountOnce(name, data, b);
    }
    SourceOrderDistinct();
    ExpandCountRestricted(SourceOrder, f, LegacyBackends, ScopeArm(name), Opens);
    ExpandCountRestricted(SourceOrder, f, LegacyBackends, ScopeDataArm(name, data), Opens);
  }

  /** `scope!(name, data)` forwards the data once to each enabled backend
      among puffin, optick and tracing, and to no other. */
  lemma ScopeDataForwardsPerBackend(f: Features, name: string, data: string)
    ensures Count(ScopeData(f, name, data), CarriesData) == |f * LegacyBackends|
  {
    forall b | b in SourceOrder && b in f && b !in LegacyBackends ensures ScopeDataArm(name, data)(b) == [] {
    }
    forall b | b in SourceOrder && b in f * LegacyBackends
      ensures Count(ScopeDataArm(name, data)(b), CarriesData) == 1
    {
      ArmsCountOnce(name, data, b);
    }
    SourceOrderDistinct();
    ExpandCountRestricted(SourceOrder, f, LegacyBackends, ScopeDataArm(name, data), CarriesData);
  }
}
