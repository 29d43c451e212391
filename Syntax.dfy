/** The vocabulary every expansion is written in: the five profiling backends
    (one per `profile-with-*` cargo feature), the calls that expanded code
    makes into them, and the statements that carry those calls. The backend
    libraries themselves are opaque: a call is recorded, never executed. */
module Syntax {

  datatype Option<+T> = None | Some(value: T)

  datatype Result<+T, +E> = Ok(value: T) | Err(error: E)

  /** A profiling backend, selected at build time by its cargo feature. */
  datatype Backend = Puffin | Optick | Superluminal | Tracy | Tracing

  /** The set of enabled `profile-with-*` features of one build. */
  type Features = set<Backend>

  /** The order in which the runtime macros list their `#[cfg(feature = ...)]` arms. */
  const SourceOrder: seq<Backend> := [Puffin, Optick, Superluminal, Tracy, Tracing]

  /** `tracing::Level`; only `INFO` is ever used. */
  datatype Level = Info

  /** One call into a backend API, as it appears in expanded code. Source
      locations (`file!()`, `line!()`, puffin's `current_file_name!()`) are not
      part of the model. */
  datatype Call =
    // puffin
    | PuffinProfileFunction                                 // profile_function!()
    | PuffinProfileScope(name: string)                      // profile_scope!(name)
    | PuffinProfileScopeData(name: string, data: string)    // profile_scope_data!(name, data)
    | PuffinNewFrame                                        // GlobalProfiler::lock().new_frame()
    // optick
    | OptickEvent(eventName: Option<string>)                  // event!() or event!(name)
    | OptickTag(key: string, data: string)                  // tag!(key, data)
    | OptickRegisterThread(name: string)                    // register_thread(name)
    | OptickNextFrame                                       // next_frame()
    // superluminal
    | SuperluminalGuardNew(name: string)                    // SuperluminalGuard::new(name)
    | SuperluminalGuardNewWithData(name: string, data: string)
    | SuperluminalSetThreadName(name: string)               // set_current_thread_name(name)
    // tracy
    | TracySpanNew(name: string, fnName: string, callstackDepth: nat)  // Span::new(name, function, file, line, depth)
    | TracyEmitText(span: string, text: string)            // <span>.emit_text(text)
    | TracySetThreadName(name: string)                      // set_thread_name(name)
    | TracyFinishFrame                                      // finish_continuous_frame!()
    // tracing
    | TracingSpan(level: Level, name: string, tag: Option<string>, message: Option<string>)  // span!(...)
    | TracingEnter(span: string)                            // <span>.enter()
    | TracingFrameEvent(level: Level, frameMark: bool)      // event!(level, tracy.frame_mark = ...)

  /** The backend whose API a call belongs to. */
  function Owner(c: Call): Backend {
    match c
    case PuffinProfileFunction | PuffinProfileScope(_) | PuffinProfileScopeData(_, _) | PuffinNewFrame => Puffin
    case OptickEvent(_) | OptickTag(_, _) | OptickRegisterThread(_) | OptickNextFrame => Optick
    case SuperluminalGuardNew(_) | SuperluminalGuardNewWithData(_, _) | SuperluminalSetThreadName(_) => Superluminal
    case TracySpanNew(_, _, _) | TracyEmitText(_, _) | TracySetThreadName(_) | TracyFinishFrame => Tracy
    case TracingSpan(_, _, _, _) | TracingEnter(_) | TracingFrameEvent(_, _) => Tracing
  }

  /** The scope or thread name a call is given, if it takes one. */
  function NameArg(c: Call): Option<string> {
    match c
    case PuffinProfileScope(n) => Some(n)
    case PuffinProfileScopeData(n, _) => Some(n)
    case OptickEvent(l) => l
    case OptickRegisterThread(n) => Some(n)
    case SuperluminalGuardNew(n) => Some(n)
    case SuperluminalGuardNewWithData(n, _) => Some(n)
    case SuperluminalSetThreadName(n) => Some(n)
    case TracySpanNew(n, _, _) => Some(n)
    case TracySetThreadName(n) => Some(n)
    case TracingSpan(_, n, _, _) => Some(n)
    case _ => None
  }

  /** The user data a call forwards to its backend, if any. */
  function DataArg(c: Call): Option<string> {
    match c
    case PuffinProfileScopeData(_, d) => Some(d)
    case OptickTag(_, d) => Some(d)
    case SuperluminalGuardNewWithData(_, d) => Some(d)
    case TracyEmitText(_, d) => Some(d)
    case TracingSpan(_, _, t, _) => t
    case _ => None
  }

  /** Calls that open a profiling scope: the scope is live from this call on. */
  predicate OpensScope(c: Call) {
    c.PuffinProfileFunction? || c.PuffinProfileScope? || c.PuffinProfileScopeData? ||
    c.OptickEvent? || c.SuperluminalGuardNew? || c.SuperluminalGuardNewWithData? ||
    c.TracySpanNew? || c.TracingEnter?
  }

  /** Calls whose result is an RAII handle: the scope it stands for closes
      when the handle is dropped, so it must be bound to stay open. */
  predicate ReturnsHandle(c: Call) {
    c.SuperluminalGuardNew? || c.SuperluminalGuardNewWithData? ||
    c.TracySpanNew? || c.TracingSpan? || c.TracingEnter?
  }

  /** A statement of an expanded block. `Let` binds a call's result to a local
      (which then lives to the end of the enclosing block); `Exec` evaluates a
      call and drops its result at once; `Nested` is a block statement;
      `User` is one of the program's own statements, kept as opaque text. */
  datatype Stmt =
    | Let(local: string, init: Call)
    | Exec(call: Call)
    | Nested(block: seq<Stmt>)
    | User(code: string)

  type Block = seq<Stmt>

  function StmtCall(s: Stmt): Option<Call> {
    match s
    case Let(_, c) => Some(c)
    case Exec(c) => Some(c)
    case _ => None
  }

  function StmtOwner(s: Stmt): Option<Backend> {
    match s
    case Let(_, c) => Some(Owner(c))
    case Exec(c) => Some(Owner(c))
    case _ => None
  }

  function StmtName(s: Stmt): Option<string> {
    match s
    case Let(_, c) => NameArg(c)
    case Exec(c) => NameArg(c)
    case _ => None
  }

  function StmtData(s: Stmt): Option<string> {
    match s
    case Let(_, c) => DataArg(c)
    case Exec(c) => DataArg(c)
    case _ => None
  }

  predicate Opens(s: Stmt) {
    StmtCall(s).Some? && OpensScope(StmtCall(s).value)
  }

  predicate CarriesData(s: Stmt) {
    StmtData(s).Some?
  }

  predicate Always(s: Stmt) {
    true
  }

  /** A function signature; only its identifier matters to the rewrite, the
      rest is carried through untouched. */
  datatype Signature = Signature(ident: string, inputs: seq<string>, output: string)

  /** A parsed free function (`syn::ItemFn`): attributes, visibility,
      signature and body block. */
  datatype ItemFn = ItemFn(attrs: seq<string>, vis: string, sig: Signature, block: Block)
}
