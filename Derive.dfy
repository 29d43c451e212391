/** The older `#[profiling::function]` attribute of the `profiling-derive`
    crate. Its new body lists, for puffin, optick and tracing, one
    feature-gated entry statement, then the original body; superluminal and
    tracy get nothing.

    As written, the tracing line creates a span that is neither bound nor
    entered, and names it by stringifying the tokens of a string literal
    followed by `.name`, so the span is called `"f".name` (quotes included)
    instead of `f`. `FunctionAsWritten` models those lines as they stand;
    `DeriveFunction` binds and enters a span named after the function, as the
    `profiling-procmacros` rewrite does. */
module Derive {
  import opened Syntax
  import opened Expansion
  import ProcMacros

  /** The backends the derive attribute instruments. */
  const DeriveBackends: Features := {Puffin, Optick, Tracing}

  // ---------------------------------------------------------------------
  // As written
  // ---------------------------------------------------------------------

  /** `stringify!` of the tokens `"ident" . name`. */
  function SpanNameAsWritten(ident: string): string {
    "\"" + ident + "\".name"
  }

  function PreludeArmAsWrittenOf(ident: string, b: Backend): Block {
    match b
    case Puffin => [Exec(PuffinProfileFunction)]
    case Optick => [Exec(OptickEvent(None))]
    case Tracing => [Exec(TracingSpan(Info, SpanNameAsWritten(ident), None, None))]
    case _ => []
  }

  function PreludeArmAsWritten(ident: string): Backend -> Block {
    b => PreludeArmAsWrittenOf(ident, b)
  }

  /** The attribute as written: only the body changes, and the original body
      ends the new one. */
  function FunctionAsWritten(f: Features, item: ItemFn): (r: ItemFn)
    ensures r.attrs == item.attrs && r.vis == item.vis && r.sig == item.sig
    ensures |r.block| >= 1 && r.block[|r.block| - 1] == Nested(item.block)
  {
    item.(block := Expand(SourceOrder, f, PreludeArmAsWritten(item.sig.ident)) + [Nested(item.block)])
  }

  lemma PreludeArmsAsWrittenOwned(ident: string)
    ensures Owned(SourceOrder, PreludeArmAsWritten(ident))
  {
    forall b, i | b in SourceOrder && 0 <= i < |PreludeArmAsWritten(ident)(b)|
      ensures StmtOwner(PreludeArmAsWritten(ident)(b)[i]) == Some(b)
    {
      match b
      case Puffin =>
      case Optick =>
      case Superluminal =>
      case Tracy =>
      case Tracing =>
    }
  }

  /** As written, the puffin and optick entry lines open a scope and the
      tracing line does not. */
  lemma PreludeArmAsWrittenOpens(ident: string, b: Backend)
    ensures Count(PreludeArmAsWritten(ident)(b), Opens) == if b in {Puffin, Optick} then 1 else 0
  {
    var arm := PreludeArmAsWrittenOf(ident, b);
    if arm != [] {
      assert arm[1..] == [];
    }
  }

  lemma PreludeAsWrittenOpens(f: Features, ident: string)
    ensures Count(Expand(SourceOrder, f, PreludeArmAsWritten(ident)), Opens) == |f * {Puffin, Optick}|
  {
    var arm := PreludeArmAsWritten(ident);
    forall b | b in SourceOrder && b in f && b !in {Puffin, Optick} ensures Count(arm(b), Opens) == 0 {
      PreludeArmAsWrittenOpens(ident, b);
    }
    forall b | b in SourceOrder && b in f * {Puffin, Optick} ensures Count(arm(b), Opens) == 1 {
      PreludeArmAsWrittenOpens(ident, b);
    }
    SourceOrderDistinct();
    ExpandCountRestricted(SourceOrder, f, {Puffin, Optick}, arm, Opens);
  }

  /** As written, the new body opens one scope per enabled backend among
      puffin and optick only: the tracing line opens nothing, whatever else
      is enabled. */
  lemma AsWrittenOpensPerBackend(f: Features, item: ItemFn)
    ensures Count(FunctionAsWritten(f, item).block, Opens) == |f * {Puffin, Optick}|
  {
    var prelude := Expand(SourceOrder, f, PreludeArmAsWritten(item.sig.ident));
    PreludeAsWrittenOpens(f, item.sig.ident);
    CountAppend(prelude, [Nested(item.block)], Opens);
    assert Count([Nested(item.block)], Opens) == 0;
  }

  /** As written, backend `b`'s statements in the new body are its entry
      line when it is enabled, and nothing otherwise; with tracing enabled
      that line is a span named `SpanNameAsWritten`, never the function's
      own name. */
  lemma AsWrittenProjection(f: Features, item: ItemFn, b: Backend)
    ensures Project(FunctionAsWritten(f, item).block, b) ==
      if b in f then PreludeArmAsWrittenOf(item.sig.ident, b) else []
    ensures Tracing in f ==>
              Project(FunctionAsWritten(f, item).block, Tracing) ==
              [Exec(TracingSpan(Info, SpanNameAsWritten(item.sig.ident), None, None))]
  {
    var ident := item.sig.ident;
    SourceOrderDistinct();
    PreludeArmsAsWrittenOwned(ident);
    ExpandProject(SourceOrder, f, PreludeArmAsWritten(ident), b);
    ExpandProject(SourceOrder, f, PreludeArmAsWritten(ident), Tracing);
    ProjectAppend(Expand(SourceOrder, f, PreludeArmAsWritten(ident)), [Nested(item.block)], b);
    ProjectAppend(Expand(SourceOrder, f, PreludeArmAsWritten(ident)), [Nested(item.block)], Tracing);
  }

  /** With only tracing enabled, the code as written gives its span a name
      other than the function's, and the new body opens no scope at all: the
      span is dropped unentered on the statement that creates it. */
  lemma TracingPreludeAsWrittenOpensNothing(item: ItemFn)
    ensures var r := FunctionAsWritten({Tracing}, item).block;
      |r| == 2 && StmtName(r[0]).Some? && StmtName(r[0]) != Some(item.sig.ident) &&
      Count(r, Opens) == 0
  {
    var ident := item.sig.ident;
    SourceOrderDistinct();
    ExpandSingle(SourceOrder, Tracing, PreludeArmAsWritten(ident));
    assert |SpanNameAsWritten(ident)| == |ident| + 7;
    CountPair(Exec(TracingSpan(Info, SpanNameAsWritten(ident), None, None)), Nested(item.block), Opens);
  }

  // ---------------------------------------------------------------------
  // Corrected
  // ---------------------------------------------------------------------

  /** The entry lines for backend `b`: the tracing span carries the
      function's name and is entered for the rest of the body. */
  function PreludeArmOf(ident: string, b: Backend): Block {
    match b
    case Puffin => [Exec(PuffinProfileFunction)]
    case Optick => [Exec(OptickEvent(None))]
    case Tracing => [Let("_fn_span", TracingSpan(Info, ident, None, None)), Let("_fn_span_entered", TracingEnter("_fn_span"))]
    case _ => []
  }

  function PreludeArm(ident: string): Backend -> Block {
    b => PreludeArmOf(ident, b)
  }

  function Prelude(f: Features, ident: string): (r: Block) {
    Expand(SourceOrder, f, PreludeArm(ident))
  }

  /** The attribute applied to `item` in a build with feature set `f`: only
      the body changes, and the original body ends the new one. */
  function DeriveFunction(f: Features, item: ItemFn): (r: ItemFn)
    ensures r.attrs == item.attrs && r.vis == item.vis && r.sig == item.sig
    ensures |r.block| >= 1 && r.block[|r.block| - 1] == Nested(item.block)
  {
    item.(block := Prelude(f, item.sig.ident) + [Nested(item.block)])
  }

  lemma PreludeArmsOwned(ident: string)
    ensures Owned(SourceOrder, PreludeArm(ident))
  {
    forall b, i | b in SourceOrder && 0 <= i < |PreludeArm(ident)(b)|
      ensures StmtOwner(PreludeArm(ident)(b)[i]) == Some(b)
    {
      match b
      case Puffin =>
      case Optick =>
      case Superluminal =>
      case Tracy =>
      case Tracing =>
    }
  }

  /** Superluminal and tracy contribute nothing, so only the enabled members
      of `DeriveBackends` matter. */
  lemma PreludeIgnoresOtherBackends(f: Features, ident: string)
    ensures Prelude(f, ident) == Prelude(f * DeriveBackends, ident)
  {
    ExpandRestrict(SourceOrder, f, DeriveBackends, PreludeArm(ident));
  }

  lemma PreludeArmOpensOnce(ident: string, b: Backend)
    requires b in DeriveBackends
    ensures Count(PreludeArm(ident)(b), Opens) == 1
  {
    var arm := PreludeArmOf(ident, b);
    if b == Tracing {
      CountPair(arm[0], arm[1], Opens);
    }
  }

  lemma PreludeOpensOnePerBackend(f: Features, ident: string)
    ensures Count(Prelude(f, ident), Opens) == |f * DeriveBackends|
  {
    forall b | b in SourceOrder && b in f && b !in DeriveBackends ensures PreludeArm(ident)(b) == [] {
    }
    forall b | b in SourceOrder && b in f * DeriveBackends ensures Count(PreludeArm(ident)(b), Opens) == 1 {
      PreludeArmOpensOnce(ident, b);
    }
    SourceOrderDistinct();
    ExpandCountRestricted(SourceOrder, f, DeriveBackends, PreludeArm(ident), Opens);
  }

  /** The new body opens exactly one scope per enabled backend among puffin,
      optick and tracing. */
  lemma DeriveOpensOnePerBackend(f: Features, item: ItemFn)
    ensures Count(DeriveFunction(f, item).block, Opens) == |f * DeriveBackends|
  {
    var ident := item.sig.ident;
    PreludeOpensOnePerBackend(f, ident);
    CountAppend(Prelude(f, ident), [Nested(item.block)], Opens);
    assert Count([Nested(item.block)], Opens) == 0;
  }

  /** Backend `b`'s statements in the new body are its own entry lines when
      it is enabled, and nothing otherwise. */
  lemma DeriveProjection(f: Features, item: ItemFn, b: Backend)
    ensures Project(DeriveFunction(f, item).block, b) ==
      if b in f then PreludeArmOf(item.sig.ident, b) else []
  {
    SourceOrderDistinct();
    PreludeArmsOwned(item.sig.ident);
    ExpandProject(SourceOrder, f, PreludeArm(item.sig.ident), b);
    ProjectAppend(Prelude(f, item.sig.ident), [Nested(item.block)], b);
  }

  /** The entry lines come backend by backend in the order puffin, optick,
      tracing, and the original body follows them. */
  lemma DeriveInSourceOrder(f: Features, item: ItemFn)
    ensures SortedBy(Prelude(f, item.sig.ident), SourcePosition)
    ensures DeriveFunction(f, item).block == Prelude(f, item.sig.ident) + [Nested(item.block)]
  {
    PreludeArmsOwned(item.sig.ident);
    SourceOrderRanked();
    ExpandSorted(SourceOrder, f, PreludeArm(item.sig.ident), SourcePosition);
  }

  /** Every name the new body passes to a backend is the function's. */
  lemma DeriveNamesFunction(f: Features, item: ItemFn)
    ensures forall i :: 0 <= i < |DeriveFunction(f, item).block| ==>
      StmtName(DeriveFunction(f, item).block[i]) in {None, Some(item.sig.ident)}
  {
    var ident := item.sig.ident;
    var p := (s: Stmt) => StmtName(s) in {None, Some(ident)};
    forall b, i | b in SourceOrder && b in f && 0 <= i < |PreludeArm(ident)(b)|
      ensures p(PreludeArm(ident)(b)[i])
    {
      match b
      case Puffin =>
      case Optick =>
      case Superluminal =>
      case Tracy =>
      case Tracing =>
    }
    ExpandAll(SourceOrder, f, PreludeArm(ident), p);
  }

  /** The attribute leaves the body as a bare block exactly when none of
      puffin, optick and tracing is enabled. */
  lemma DeriveIsBareBlockIff(f: Features, item: ItemFn)
    ensures DeriveFunction(f, item).block == [Nested(item.block)] <==> f * DeriveBackends == {}
  {
    var ident := item.sig.ident;
    ExpandEmptyIff(SourceOrder, f, PreludeArm(ident));
    if f * DeriveBackends != {} {
      var b :| b in f * DeriveBackends;
      assert PreludeArm(ident)(b) != [];
      assert |Prelude(f, ident)| > 0;
    } else {
      forall b | b in SourceOrder && b in f ensures PreludeArm(ident)(b) == [] {
        assert b !in DeriveBackends;
      }
      assert Prelude(f, ident) == [];
    }
  }

  /** Without tracing, the code as written and the corrected rewrite agree:
      the two differ only in the tracing line. */
  lemma AsWrittenAgreesOffTracing(f: Features, item: ItemFn)
    requires Tracing !in f
    ensures FunctionAsWritten(f, item) == DeriveFunction(f, item)
  {
    var ident := item.sig.ident;
    forall b | b in SourceOrder && b in f ensures PreludeArmAsWritten(ident)(b) == PreludeArm(ident)(b) {
      match b
      case Puffin =>
      case Optick =>
      case Superluminal =>
      case Tracy =>
    }
    ExpandCongruent(SourceOrder, f, PreludeArmAsWritten(ident), PreludeArm(ident));
  }

  /** With a single one of its backends enabled, the corrected derive
      attribute and the `profiling-procmacros` attribute rewrite a function
      identically. */
  lemma DeriveAgreesWithProcMacros(b: Backend, item: ItemFn)
    requires b in DeriveBackends
    ensures DeriveFunction({b}, item) == ProcMacros.FunctionAttribute(ProcMacros.Only(b), item)
  {
    SourceOrderDistinct();
    ExpandSingle(SourceOrder, b, PreludeArm(item.sig.ident));
    var body := ProcMacros.ImplBlock(ProcMacros.Only(b), item.block, item.sig.ident);
    match b
    case Puffin =>
      assert body == PreludeArmOf(item.sig.ident, b) + [Nested(item.block)];
    case Optick =>
      assert body == PreludeArmOf(item.sig.ident, b) + [Nested(item.block)];
    case Tracing =>
      assert body == PreludeArmOf(item.sig.ident, b) + [Nested(item.block)];
  }
}
