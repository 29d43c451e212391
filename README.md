# profiling — a Dafny model of the instrumentation core

`profiling` is a Rust crate that lets an application say *where* to profile
without choosing a profiler. The application writes
`#[profiling::function]`, `scope!`, `manual_scope!`, `register_thread!`,
`finish_frame!` or `function_scope!`. Each of these expands into calls to
whichever backend the build enables: puffin, optick, superluminal, tracy or
tracing.

This project models three things:

- **The function attribute.** It replaces the body of a function with a
  block: the selected backend's entry statements, then the original body.
  - `ProcMacros` models the current `profiling-procmacros` crate. It has one
    `impl_block` per backend, selected by `cfg`.
  - `Derive` models the older `profiling-derive` crate. It builds one block
    of feature-gated lines.
- **The runtime macros.** Each macro is a function from the set of enabled
  backend features (and the macro's arguments) to the ordered list of
  statements it expands to. A statement is a binding or a call into an
  abstract backend call.
  - `Expansion` holds the general shape: the lines of each backend, kept when
    its feature is on, in the order the macro lists them. It also holds the
    lemmas every such macro satisfies: counting, projection onto one backend,
    order, and restriction to a subset of backends.
  - `Macros` instantiates them for `scope!`, `register_thread!` and
    `finish_frame!` of src/lib.rs.
  - `LegacyMacros` covers the older `scope!` of profiling/src/lib.rs.
  - `TracingImpl` covers the tracing-only macros of
    profiling/src/tracing_impl.rs, including how `function_scope!` recovers
    the function path from a type name.
- **The guards.** These are the guards of src/guard.rs, plus `manual_scope!`,
  which builds a `Guard` out of them.
  - `Guards` models each backend library as a recorder. Constructing a guard
    appends its begin (or enter) call to the log of a `Profiler` object.
  - A guard's explicit `Drop` method appends the matching end (or exit) call.
  - The profiler's invariant `Valid` ties the log to the live guards. On each
    channel, begins minus ends equals the number of guards alive there.
    The channels are puffin's scopes, superluminal's events, tracy's zones, and
    one channel per tracing subscriber and span id.
  - Every constructor and `Drop` preserves `Valid`.
  - `ManualScopeRegion` proves that making a `manual_scope!` guard and
    dropping it leaves every channel at its earlier depth. This holds even
    when the default tracing subscriber changes in between.

`Syntax` holds the shared vocabulary: backends and feature sets, backend
calls, statements, blocks and parsed functions.

Three facts of the code shape the model:

- Enabling several features in `profiling-procmacros` leaves several
  definitions of `impl_block`, which the compiler rejects.
  `ProcMacros.SelectImplBlock` models that as the error
  `DuplicateImplBlock`.
- The runtime macros of src/lib.rs and profiling/src/lib.rs expand every
  enabled backend's lines, so their properties are stated for any feature
  set.
- src/lib.rs has no `function_scope!`. Of the older crate's definitions,
  only profiling/src/tracing_impl.rs gives it behaviour, and it is
  modelled there; the definitions in profiling/src/empty_impl.rs (both
  arms empty) and profiling/src/type_check_impl.rs (type checking only)
  amount to the case with no backend feature on.

## Model

| member | source | states |
|---|---|---|
| ProcMacros.CompiledImplBlocksCount | profiling-procmacros/src/lib.rs:25-113 | The number of `impl_block` definitions that survive `cfg` is 1 with no feature and one per enabled feature otherwise, so exactly one exists iff at most one feature is on |
| ProcMacros.CompiledImplBlocksSingle | profiling-procmacros/src/lib.rs:43-113 | With one feature enabled, the only surviving definition is that feature's own |
| ProcMacros.SelectImplBlockSpec | profiling-procmacros/src/lib.rs:25-113 | Selection succeeds iff at most one feature is on. It gives the no-backend variant iff no feature is on, and backend `b`'s variant iff the feature set is `{b}` |
| ProcMacros.ImplBlock | profiling-procmacros/src/lib.rs:32-113 | The new block ends with the original body. Everything before it belongs to the selected backend and names nothing but the function. No backend gives exactly the body. Puffin and optick add one statement without the name. Superluminal and tracy add one guard bound to a local and named after the function. Tracing adds a span named after the function, then a binding of its entered guard |
| ProcMacros.FunctionAttribute | profiling-procmacros/src/lib.rs:7-23 | Attributes, visibility and signature are kept. The original body is the last statement. Every name the instrumentation passes is the signature's identifier |
| ProcMacros.FunctionMacroSpec | profiling-procmacros/src/lib.rs:25-41 | The attribute compiles iff at most one feature is on. With none, the new body is a block holding only the original body |
| ProcMacros.ImplBlockAgreesWithScope | profiling-procmacros/src/lib.rs:71-113 | Under superluminal or tracy, the new body is `scope!(name)` of src/lib.rs for that backend, followed by the original body |
| Derive.FunctionAsWritten | profiling-derive/src/lib.rs:11-35 | As written: attributes, visibility and signature are kept, and the original body is the last statement |
| Derive.PreludeArmsAsWrittenOwned | profiling-derive/src/lib.rs:16-24 | As written, every entry line calls into the backend whose feature gates it |
| Derive.PreludeArmAsWrittenOpens | profiling-derive/src/lib.rs:17-24 | As written, the puffin and optick lines each open one scope and the tracing line opens none |
| Derive.AsWrittenOpensPerBackend | profiling-derive/src/lib.rs:15-28 | As written, the new body opens one scope per enabled backend among puffin and optick, and none for tracing, whatever else is on |
| Derive.AsWrittenProjection | profiling-derive/src/lib.rs:15-28 | As written, backend `b`'s statements are its entry line when `b` is on and none otherwise; with tracing on, its one statement is an unbound span named `"f".name` |
| Derive.AsWrittenAgreesOffTracing | profiling-derive/src/lib.rs:15-28 | With tracing off, the code as written and the corrected rewrite give the same function |
| Derive.TracingPreludeAsWrittenOpensNothing | profiling-derive/src/lib.rs:23-24 | With only tracing on, the code as written adds one statement whose span name differs from the function's, and the new body opens no scope |
| Derive.DeriveFunction | profiling-derive/src/lib.rs:11-35 | Corrected rewrite: attributes, visibility and signature are kept, and the original body is the last statement |
| Derive.PreludeArmsOwned | profiling-derive/src/lib.rs:16-24 | Every entry line calls into the backend whose feature gates it |
| Derive.PreludeIgnoresOtherBackends | profiling-derive/src/lib.rs:15-28 | Superluminal and tracy contribute nothing: the prelude for `f` equals the prelude for `f` restricted to puffin, optick and tracing |
| Derive.PreludeOpensOnePerBackend | profiling-derive/src/lib.rs:16-24 | Corrected rewrite: the prelude opens one scope per enabled backend among puffin, optick and tracing |
| Derive.DeriveOpensOnePerBackend | profiling-derive/src/lib.rs:15-28 | Corrected rewrite: the new body opens one scope per enabled backend among puffin, optick and tracing |
| Derive.DeriveInSourceOrder | profiling-derive/src/lib.rs:16-27 | Entry lines come backend by backend in the order puffin, optick, tracing, and the original body follows them |
| Derive.DeriveProjection | profiling-derive/src/lib.rs:15-28 | Corrected rewrite: backend `b`'s statements in the new body are exactly its entry lines when `b` is on, and none otherwise |
| Derive.DeriveNamesFunction | profiling-derive/src/lib.rs:12-24 | Corrected rewrite: every name the new body passes to a backend is the function's identifier |
| Derive.DeriveIsBareBlockIff | profiling-derive/src/lib.rs:15-28 | The new body is the original body alone iff none of puffin, optick and tracing is on |
| Derive.DeriveAgreesWithProcMacros | profiling-derive/src/lib.rs:15-28 | Corrected rewrite: with a single one of puffin, optick or tracing on, the derive rewrite equals the `profiling-procmacros` rewrite |
| Macros.ScopeArmsOwned | src/lib.rs:32-76 | Every line of both forms of `scope!` calls into the backend whose feature gates it |
| Macros.ScopeOpensOnePerBackend | src/lib.rs:33-51 | `scope!(name)` opens exactly one scope per enabled backend |
| Macros.ScopeProjection | src/lib.rs:33-51 | In `scope!(name)`, backend `b` contributes exactly its own lines when enabled and nothing otherwise |
| Macros.ScopeNamesAndBindings | src/lib.rs:41-50 | Every name passed to a backend is `name`, and every handle-returning call is bound to a local, so it lives to the end of the enclosing block |
| Macros.ScopeInSourceOrder | src/lib.rs:32-76 | Both forms emit their lines backend by backend in the order puffin, optick, superluminal, tracy, tracing |
| Macros.ScopeDataExtendsScope | src/lib.rs:53-75 | Erasing the data from `scope!(name, data)` gives `scope!(name)`. The data form opens the same scopes and only adds data |
| Macros.ScopeDataForwardsOncePerBackend | src/lib.rs:53-75 | `scope!(name, data)` hands the data to each enabled backend exactly once |
| Macros.ScopeDataForwardsOnlyData | src/lib.rs:53-75 | The only data `scope!(name, data)` forwards is `data` |
| Macros.ScopeDataProjection | src/lib.rs:53-75 | In `scope!(name, data)`, backend `b` contributes exactly its own lines when enabled: puffin's scope with data, optick's event then a tag keyed "tag", superluminal's guard with data, tracy's span then its text, tracing's span with field `tag` and its entered guard |
| Macros.RegisterThreadCount | src/lib.rs:182-193 | `register_thread!(name)` has exactly as many lines as there are enabled backends among optick, superluminal and tracy; which backend receives each line is stated by `Macros.RegisterThreadProjection` |
| Macros.RegisterThreadProjection | src/lib.rs:182-193 | Each backend's lines in `register_thread!(name)`: optick gets `optick::register_thread(name)`, superluminal `set_current_thread_name(name)` and tracy `set_thread_name(name)`, each iff enabled; puffin and tracing get none |
| Macros.RegisterThreadPassesName | src/lib.rs:182-193 | Every line of `register_thread!(name)` is a plain call that passes `name` |
| Macros.RegisterThreadEmptyIff | src/lib.rs:182-193 | `register_thread!(name)` expands to nothing iff only puffin and tracing (or nothing) are enabled |
| Macros.Decimal | src/lib.rs:178 | The rendering of a thread id's counter is a non-empty string of decimal digits |
| Macros.ParseDecimalInverse | src/lib.rs:178 | Reading the decimal rendering back gives the number |
| Macros.UnnamedLabelRoundTrip | src/lib.rs:175-178 | The fallback label `Thread ThreadId(N)` of an unnamed thread can be parsed back to its id |
| Macros.UnnamedLabelsDistinct | src/lib.rs:175-178 | Unnamed threads with different ids are registered under different labels |
| Macros.RegisterCurrentThread | src/lib.rs:174-181 | `register_thread!()` is `register_thread!(name)` with the thread's own name when it has one, and with `Thread ThreadId(N)` otherwise |
| Macros.FinishFrameCount | src/lib.rs:199-212 | `finish_frame!()` makes one frame call per enabled backend among puffin, optick and tracy |
| Macros.FinishFrameEmptyIff | src/lib.rs:199-212 | `finish_frame!()` expands to nothing iff only superluminal and tracing (or nothing) are enabled |
| Macros.FinishFrameProjection | src/lib.rs:199-212 | Each backend contributes exactly its own frame call when enabled and nothing otherwise |
| Macros.NoBackendExpandsToNothing | src/lib.rs:32-212 | With no backend feature on, no runtime macro (both forms of `scope!` and `register_thread!`, and `finish_frame!`) makes any backend call |
| LegacyMacros.ScopeAgreesWithMainCrate | profiling/src/lib.rs:3-14 | The older `scope!(name)` equals src/lib.rs's `scope!(name)` with superluminal and tracy switched off |
| LegacyMacros.ScopeDataAgreesWithMainCrate | profiling/src/lib.rs:16-30 | The older `scope!(name, data)` equals src/lib.rs's with superluminal and tracy off and optick's tag key renamed to "scope_tag" |
| LegacyMacros.ScopeOpensPerBackend | profiling/src/lib.rs:2-31 | Both older forms open one scope per enabled backend among puffin, optick and tracing, and none for superluminal or tracy |
| LegacyMacros.ScopeDataForwardsPerBackend | profiling/src/lib.rs:16-30 | The older `scope!(name, data)` hands the data once to each enabled backend among puffin, optick and tracing |
| TracingImpl.ScopeAgreesWithMainCrate | profiling/src/tracing_impl.rs:2-11 | The tracing-only `scope!` in both forms equals src/lib.rs's `scope!` in a tracing-only build: an INFO span (with field `tag` in the data form), bound and entered |
| TracingImpl.FunctionName | profiling/src/tracing_impl.rs:16-20 | Slicing off the last three characters succeeds iff the type name has at least three, and the result plus those three characters is the type name |
| TracingImpl.FunctionNameOfLocalType | profiling/src/tracing_impl.rs:16-20 | For the type name `path::S` of the local struct, the recovered name is `path` |
| TracingImpl.FunctionScopeInFunction | profiling/src/tracing_impl.rs:15-28 | Inside a function at `path`, `function_scope!()` opens one scope: a span named "function_scope" with `path` as its message, bound and then entered |
| TracingImpl.FunctionScopeDataExtendsFunctionScope | profiling/src/tracing_impl.rs:29-43 | `function_scope!(data)` fails exactly when `function_scope!()` does. Otherwise erasing its data gives `function_scope!()`, and it carries `data` once, as the span's `tag` |
| TracingImpl.RegisterThreadAgreesWithMainCrate | profiling/src/tracing_impl.rs:47-50 | Both forms of the tracing-only `register_thread!` make no backend call, as src/lib.rs's make none in a tracing-only build |
| TracingImpl.FinishFrameDiffersFromMainCrate | profiling/src/tracing_impl.rs:53-57 | The tracing-only `finish_frame!` emits one INFO event with frame mark set and opens no scope. In a tracing-only build, src/lib.rs's version emits nothing |
| Guards.PuffinScope.New | src/lib.rs:97-101 | Creating a puffin scope appends one begin with the name and data, and makes it live on puffin's channel; the invariant holds |
| Guards.PuffinScope.Drop | src/guard.rs:2-3 | Dropping it appends one end and retires it; the invariant holds |
| Guards.SuperluminalGuard.New | src/guard.rs:28-31 | `new(name)` appends exactly one `begin_event(name)` and makes the guard live |
| Guards.SuperluminalGuard.NewWithData | src/guard.rs:24-39 | `new_with_data` appends exactly one begin with the data and the default colour 0xFFFFFFFF |
| Guards.SuperluminalGuard.Drop | src/guard.rs:42-46 | Drop appends exactly one `end_event` and retires the guard, keeping begins and ends balanced |
| Guards.TracySpan.New | src/lib.rs:111 | Creating a tracy span appends one zone begin with the name |
| Guards.TracySpan.EmitText | src/lib.rs:139-143 | `emit_text` on a live span appends the text and leaves every live set unchanged |
| Guards.TracySpan.Drop | src/guard.rs:9-10 | Dropping the span appends one zone end and retires it |
| Guards.TracingGuard.New | src/guard.rs:63-69 | The guard captures the current default subscriber, keeps the span, and appends an enter on that subscriber iff the span has an id |
| Guards.TracingGuard.Drop | src/guard.rs:72-78 | Drop appends an exit iff the span has an id, on the subscriber captured at construction, so enter and exit pair up on the same channel |
| Guards.Guard.constructor | src/guard.rs:1-13 | The guard holds one optional component per backend among puffin, superluminal, tracy and tracing, and nothing for optick |
| Guards.Guard.Drop | src/guard.rs:1-13 | Dropping the guard drops its components in field order, appends exactly their end calls, and retires each one |
| Guards.OpenPuffin | src/lib.rs:96-104 | The puffin field is a new scope iff puffin is on and scopes are on, and `None` otherwise |
| Guards.OpenSuperluminal | src/lib.rs:107-108 | The superluminal field is a new guard iff superluminal is on, begun with data in the data form |
| Guards.OpenTracy | src/lib.rs:138-143 | The tracy field is a new span iff tracy is on; the data form then emits the data as text on it |
| Guards.OpenTracing | src/lib.rs:145-150 | The tracing field is a new `TracingGuard` over an INFO span named `name` (with `tag = data` in the data form) iff tracing is on |
| Guards.ManualScope | src/lib.rs:92-153 | `manual_scope!` appends its components' begin calls in field order and returns a live guard holding a puffin scope iff puffin and scopes are on, and a superluminal, tracy or tracing component iff that backend is on, none of them alive before the call. Dropping the guard will make exactly the matching end calls |
| Guards.ManualScopeBeginsOpen | src/lib.rs:94-118 | The begin calls raise the depth of each channel the guard uses by one and touch no other channel |
| Guards.ManualScopeEndsClose | src/guard.rs:1-13 | The end calls lower the depth of each of those channels by one |
| Guards.ManualScopeLeavesDepth | src/lib.rs:84-90 | A guard's begins followed by its ends leave every channel at the depth it had |
| Guards.ManualScopeForwardsData | src/lib.rs:121-152 | In the data form, puffin's scope, superluminal's event (default colour) and tracy's text carry the data, each iff that backend is on |
| Guards.ManualScopeWithoutData | src/lib.rs:93-119 | The one-argument form gives puffin the empty string as data, and makes no superluminal begin with data and no tracy text |
| Guards.ManualScopeIgnoresOptick | src/guard.rs:4-6 | Enabling optick changes neither the begin calls, nor the end calls, nor the channels of a `manual_scope!` guard |
| Guards.ManualScopeRegion | src/lib.rs:84-90 | Making a guard, changing the default subscriber and dropping the guard appends its begins and then its ends. The ends use the subscriber captured at the start. Every channel returns to its depth, and the live sets are unchanged |

## Left out

- The profiling libraries themselves (puffin, optick, tracy_client, superluminal_perf and tracing's dispatch) are opaque: the macros name their calls, and the guards record begin and end calls in a log.
- Tracing span creation is not recorded as an event. A span is an input value whose id (`None` for a disabled span) is a parameter, because whether a subscriber assigns an id is decided inside tracing.
- Which subscriber is the default is the state of a `Dispatcher` object that code may change. Thread-local dispatch is not modelled.
- `puffin::are_scopes_on()` is a boolean parameter of `manual_scope!`.
- `file!()`, `line!()` and `puffin::current_file_name!()` are not modelled: the recorded begin calls omit the source location they pass.
- `core::any::type_name` is an input string. `function_scope!` slices bytes; the model slices characters, so it does not model a panic on a non-character boundary.
- `std::thread::current()` is a `Thread` parameter (an optional name and a non-zero 64-bit id). The `Debug` rendering of a thread id is taken to be `ThreadId(N)` with N in decimal.
- syn/quote tokenising and printing are left out: a parsed function is an abstract `ItemFn` and its body a sequence of statements. The parse error of `parse_macro_input!` on a non-function item is not modelled.
- The `#[profiling::all_functions]` and `#[profiling::skip]` rewriter is not part of this model; its implementation is not among the files modelled.
- profiling/src/empty_impl.rs and the two type_check_impl.rs files are left out. Their expansions are empty or only type-level, which the model covers as the case with no backend feature on.
- The demo applications and examples are left out: window and event loops, rendering and busy-wait timing.
- Local bindings that make no backend call are not represented as statements: the `thread_name` binding of `register_thread!()` (src/lib.rs:175-178) is modelled as the name it computes, and the `function_name` binding of `function_scope!` (profiling/src/tracing_impl.rs:16-20 and 30-34) as the message it yields.
- The model assumes one feature set shared by the crate that invokes the macros and the profiling crates that define them. In Rust the gates inside `macro_rules!` bodies and in the derive attribute's output are read in the invoking crate, while the `Guard` fields and `impl_block` definitions are gated in the defining crate; a mismatch between the two, which the compiler rejects, is not modelled.
- The spelling of `stringify!` output is assumed to be `"f".name` with no spaces. The compiler may space those tokens differently; the derive finding needs only that the result differs from the function's name.
- Rust's drop on unwinding is not modelled: scope exit is an explicit `Drop` call.
- The runtime effect of `scope!` expansions is left out. They are modelled as the statements they expand to, and their locals' reverse drop order is not tied to the guard log.
- Guards.ManualScope: states that each component is not among the guards alive before the call, rather than that it is freshly allocated. This is enough for the balance proofs and keeps the proof within the solver's budget.
- Guards.Guard.Drop: drops the components in field declaration order. The model does not check that this is LIFO with respect to other guards on the same backend.

## Findings

| source | as written | input that shows it | evidently intended | confidence | as-written member | corrected member |
|---|---|---|---|---|---|---|
| profiling-derive/src/lib.rs:24 | the span name is produced by stringifying the quoted function name followed by `.name` | a function `f` built with only tracing on: its span is named `"f".name`, quotes included, which is not `f` | the span is named `f`, as in profiling-procmacros/src/lib.rs:92 | high; not executed | Derive.TracingPreludeAsWrittenOpensNothing | Derive.DeriveNamesFunction |
| profiling-derive/src/lib.rs:23-24 | the span is created in an expression statement and neither bound nor entered, so it is dropped at once | any function built with only tracing on: the new body contains no scope-opening statement | the span is bound and entered for the rest of the body, as in profiling-procmacros/src/lib.rs:92-93 | high; not executed | Derive.TracingPreludeAsWrittenOpensNothing | Derive.DeriveOpensOnePerBackend |
