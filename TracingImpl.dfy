/** The tracing-only implementation of the older `profiling` crate
    (profiling/src/tracing_impl.rs): `scope!`, `function_scope!`,
    `register_thread!` and `finish_frame!` written directly against `tracing`,
    with no feature gates. */
module TracingImpl {
  import opened Syntax
  import opened Expansion
  import Macros

  /** A span of level INFO bound to `_span` and entered for the rest of the
      enclosing block. */
  function EnteredSpan(name: string, tag: Option<string>, message: Option<string>): Block {
    [Let("_span", TracingSpan(Info, name, tag, message)), Let("_span_entered", TracingEnter("_span"))]
  }

  /** `scope!(name)` */
  function Scope(name: string): (r: Block) {
    EnteredSpan(name, None, None)
  }

  /** `scope!(name, data)`: the data is the span's `tag` field. */
  function ScopeData(name: string, data: string): (r: Block) {
    EnteredSpan(name, Some(data), None)
  }

  /** The tracing-only `scope!` expands exactly as the main crate's `scope!`
      does in a build with only tracing enabled. */
  lemma ScopeAgreesWithMainCrate(name: string, data: string)
    ensures Scope(name) == Macros.Scope({Tracing}, name)
    ensures ScopeData(name, data) == Macros.ScopeData({Tracing}, name, data)
  {
    SourceOrderDistinct();
    ExpandSingle(SourceOrder, Tracing, Macros.ScopeArm(name));
    ExpandSingle(SourceOrder, Tracing, Macros.ScopeDataArm(name, data));
  }

  /** The panic of `type_name.len() - 3` when the length is below 3. */
  datatype Panic = TypeNameTooShort

  /** What `core::any::type_name` reports for the local `struct S` after the
      path of its enclosing function. */
  const LocalTypeSuffix: string := "::S"

  /** `&type_name[..type_name.len() - 3]`: the type name without its last
      three characters. */
  function FunctionName(typeName: string): (r: Result<string, Panic>)
    ensures r.Ok? <==> |typeName| >= 3
    ensures r.Ok? ==> r.value + typeName[|typeName| - 3..] == typeName
  {
    if |typeName| < 3 then Err(TypeNameTooShort) else Ok(typeName[..|typeName| - 3])
  }

  /** For the type name of a struct declared in a function, the recovered
      name is the function's path. */
  lemma FunctionNameOfLocalType(path: string)
    ensures FunctionName(path + LocalTypeSuffix) == Ok(path)
  {
    assert (path + LocalTypeSuffix)[..|path|] == path;
  }

  /** `function_scope!()`: a span named "function_scope" whose message is
      the function name. */
  function FunctionScope(typeName: string): (r: Result<Block, Panic>) {
    match FunctionName(typeName)
    case Ok(fname) => Ok(EnteredSpan("function_scope", None, Some(fname)))
    case Err(e) => Err(e)
  }

  /** `function_scope!(data)`: the same span with the data as its `tag`. */
  function FunctionScopeData(typeName: string, data: string): (r: Result<Block, Panic>) {
    match FunctionName(typeName)
    case Ok(fname) => Ok(EnteredSpan("function_scope", Some(data), Some(fname)))
    case Err(e) => Err(e)
  }

  /** Inside a function at `path`, `function_scope!()` opens one scope: a
      span with the fixed name "function_scope" and the path as its message,
      bound and then entered. */
  lemma FunctionScopeInFunction(path: string)
    ensures FunctionScope(path + LocalTypeSuffix).Ok?
    ensures var s := FunctionScope(path + LocalTypeSuffix).value;
      |s| == 2 && Count(s, Opens) == 1 &&
      s[0] == Let("_span", TracingSpan(Info, "function_scope", None, Some(path))) &&
      s[1] == Let("_span_entered", TracingEnter(s[0].local))
  {
    FunctionNameOfLocalType(path);
    var s := EnteredSpan("function_scope", None, Some(path));
    CountPair(s[0], s[1], Opens);
  }

  /** `function_scope!(data)` fails exactly when `function_scope!()` does,
      and otherwise differs from it only by carrying `data`. */
  lemma FunctionScopeDataExtendsFunctionScope(typeName: string, data: string)
    ensures FunctionScopeData(typeName, data).Ok? <==> FunctionScope(typeName).Ok?
    ensures FunctionScopeData(typeName, data).Ok? ==>
      FlatMap(FunctionScopeData(typeName, data).value, Macros.EraseData) == FunctionScope(typeName).value &&
      Count(FunctionScopeData(typeName, data).value, CarriesData) == 1 &&
      StmtData(FunctionScopeData(typeName, data).value[0]) == Some(data)
  {
    if FunctionScopeData(typeName, data).Ok? {
      var s := FunctionScopeData(typeName, data).value;
      FlatMapPair(s[0], s[1], Macros.EraseData);
      CountPair(s[0], s[1], CarriesData);
    }
  }

  /** `register_thread!()` and `register_thread!(name)` expand to nothing. */
  function RegisterThread(name: Option<string>): (r: Block) {
    []
  }

  /** The tracing-only `register_thread!` agrees with the main crate's in a
      build with only tracing enabled: neither names the thread. */
  lemma RegisterThreadAgreesWithMainCrate(name: Option<string>, t: Macros.Thread)
    ensures name.Some? ==> RegisterThread(name) == Macros.RegisterThread({Tracing}, name.value)
    ensures RegisterThread(None) == Macros.RegisterCurrentThread({Tracing}, t)
  {
    Macros.RegisterThreadEmptyIff({Tracing}, Macros.ThreadLabel(t));
    if name.Some? {
      Macros.RegisterThreadEmptyIff({Tracing}, name.value);
    }
  }

  /** `finish_frame!()`: an INFO event with `tracy.frame_mark = true`. */
  function FinishFrame(): (r: Block) {
    [Exec(TracingFrameEvent(Info, true))]
  }

  /** Unlike the main crate's `finish_frame!`, which has no tracing line,
      the tracing-only one emits one frame-mark event and opens no scope. */
  lemma FinishFrameDiffersFromMainCrate()
    ensures Macros.FinishFrame({Tracing}) == []
    ensures |FinishFrame()| == 1 && Count(FinishFrame(), Opens) == 0
    ensures FinishFrame()[0].call.TracingFrameEvent? && FinishFrame()[0].call.frameMark
  {
    Macros.FinishFrameEmptyIff({Tracing});
  }
}
