/** The `#[profiling::function]` attribute of the `profiling-procmacros`
    crate: it parses a free function, takes its identifier as the scope name
    and replaces only its body with a new block made of the selected
    backend's entry statements followed by the original body.

    Each backend has its own `impl_block` definition under
    `#[cfg(feature = ...)]`, plus one under "none of the five". Enabling two
    features leaves two definitions of `impl_block`, which does not compile;
    `SelectImplBlock` models that as an error. */
module ProcMacros {
  import opened Syntax
  import opened Expansion
  import Macros

  /** Which `impl_block` is compiled in. */
  datatype Selection = NoBackend | Only(backend: Backend)

  /** Rust's "defined multiple times" error for `impl_block`. */
  datatype ConfigError = DuplicateImplBlock(definitions: nat)

  /** The order of the feature-gated `impl_block` definitions in the file. */
  const ImplBlockOrder: seq<Backend> := [Puffin, Optick, Superluminal, Tracing, Tracy]

  function OnlyEach(enabled: seq<Backend>): (r: seq<Selection>)
    ensures |r| == |enabled|
    ensures forall i :: 0 <= i < |r| ==> r[i] == Only(enabled[i])
  {
    if enabled == [] then [] else [Only(enabled[0])] + OnlyEach(enabled[1..])
  }

  /** The `impl_block` definitions that survive `cfg` evaluation, in file
      order: the no-backend one only when none of the five features is on,
      then one per enabled feature. */
  function CompiledImplBlocks(f: Features): seq<Selection> {
    (if f == {} then [NoBackend] else []) + OnlyEach(Enabled(ImplBlockOrder, f))
  }

  /** Exactly one `impl_block` exists when at most one feature is enabled,
      and one per feature otherwise. */
  lemma CompiledImplBlocksCount(f: Features)
    ensures |CompiledImplBlocks(f)| == if f == {} then 1 else |f|
    ensures |CompiledImplBlocks(f)| == 1 <==> |f| <= 1
  {
    AllEnabledCard(ImplBlockOrder, f);
  }

  /** The build either has exactly one `impl_block` or fails to compile. */
  function SelectImplBlock(f: Features): Result<Selection, ConfigError> {
    var blocks := CompiledImplBlocks(f);
    if |blocks| == 1 then Ok(blocks[0]) else Err(DuplicateImplBlock(|blocks|))
  }

  /** With one feature enabled, the compiled variant is that feature's. */
  lemma CompiledImplBlocksSingle(f: Features)
    requires |f| == 1
    ensures exists b :: f == {b} && CompiledImplBlocks(f) == [Only(b)]
  {
    var e := Enabled(ImplBlockOrder, f);
    AllEnabledCard(ImplBlockOrder, f);
    var b := e[0];
    assert b in f;
    assert f == {b} by {
      assert |f - {b}| == |f| - 1;
    }
    assert CompiledImplBlocks(f) == [Only(b)];
  }

  /** The selection succeeds exactly when at most one feature is enabled; it
      picks the no-backend variant for no feature and the feature's own
      variant for a single one. */
  lemma SelectImplBlockSpec(f: Features)
    ensures SelectImplBlock(f).Ok? <==> |f| <= 1
    ensures SelectImplBlock(f) == Ok(NoBackend) <==> f == {}
    ensures forall b :: SelectImplBlock(f) == Ok(Only(b)) <==> f == {b}
  {
    CompiledImplBlocksCount(f);
    if |f| == 1 {
      CompiledImplBlocksSingle(f);
    } else if f == {} {
      assert CompiledImplBlocks(f) == [NoBackend];
    }
  }

  /** `impl_block(body, name)` for the compiled-in variant. */
  function ImplBlock(sel: Selection, body: Block, name: string): (r: Block)
    // the original body is the last statement of the new block
    ensures |r| >= 1 && r[|r| - 1] == Nested(body)
    // everything before it is backend instrumentation, so the body occurs once
    ensures forall i :: 0 <= i < |r| - 1 ==> sel.Only? && StmtOwner(r[i]) == Some(sel.backend)
    // the only name the instrumentation uses is the function's
    ensures forall i :: 0 <= i < |r| - 1 ==> StmtName(r[i]) in {None, Some(name)}
    ensures sel == NoBackend ==> r == [Nested(body)]
    // puffin and optick: one entry statement that does not use the name
    ensures sel in {Only(Puffin), Only(Optick)} ==> |r| == 2 && r[0].Exec? && StmtName(r[0]) == None
    // superluminal and tracy: one guard bound to a local, named after the function
    ensures sel in {Only(Superluminal), Only(Tracy)} ==>
      |r| == 2 && r[0].Let? && ReturnsHandle(r[0].init) && StmtName(r[0]) == Some(name)
    // tracing: a span named after the function, then its entered guard
    ensures sel == Only(Tracing) ==>
      |r| == 3 && r[0].Let? && r[0].init.TracingSpan? && StmtName(r[0]) == Some(name) &&
      r[1].Let? && r[1].init == TracingEnter(r[0].local)
  {
    match sel
    case NoBackend => [Nested(body)]
    case Only(Puffin) => [Exec(PuffinProfileFunction), Nested(body)]
    case Only(Optick) => [Exec(OptickEvent(None)), Nested(body)]
    case Only(Superluminal) => [Let("_superluminal_guard", SuperluminalGuardNew(name)), Nested(body)]
    case Only(Tracing) =>
      [Let("_fn_span", TracingSpan(Info, name, None, None)),
       Let("_fn_span_entered", TracingEnter("_fn_span")),
       Nested(body)]
    case Only(Tracy) => [Let("_tracy_span", TracySpanNew(name, "", 0)), Nested(body)]
  }

  /** The attribute's effect on one function: the name is the signature's
      identifier and only the body changes. */
  function FunctionAttribute(sel: Selection, item: ItemFn): (r: ItemFn)
    ensures r.attrs == item.attrs && r.vis == item.vis && r.sig == item.sig
    ensures |r.block| >= 1 && r.block[|r.block| - 1] == Nested(item.block)
    ensures forall i :: 0 <= i < |r.block| - 1 ==> StmtName(r.block[i]) in {None, Some(item.sig.ident)}
  {
    item.(block := ImplBlock(sel, item.block, item.sig.ident))
  }

  /** The attribute in a build with feature set `f`. */
  function FunctionMacro(f: Features, item: ItemFn): Result<ItemFn, ConfigError> {
    match SelectImplBlock(f)
    case Ok(sel) => Ok(FunctionAttribute(sel, item))
    case Err(e) => Err(e)
  }

  /** The attribute compiles exactly when at most one feature is enabled;
      with none, the new body is a block holding only the original body. */
  lemma FunctionMacroSpec(f: Features, item: ItemFn)
    ensures FunctionMacro(f, item).Ok? <==> |f| <= 1
    ensures f == {} ==> FunctionMacro(f, item) == Ok(item.(block := [Nested(item.block)]))
  {
    SelectImplBlockSpec(f);
  }

  /** Under superluminal and tracy the attribute opens the same scope as
      `scope!` called with the function's name at the top of its body. */
  lemma ImplBlockAgreesWithScope(b: Backend, body: Block, name: string)
    requires b == Superluminal || b == Tracy
    ensures ImplBlock(Only(b), body, name) == Macros.Scope({b}, name) + [Nested(body)]
  {
    SourceOrderDistinct();
    ExpandSingle(SourceOrder, b, Macros.ScopeArm(name));
  }
}
