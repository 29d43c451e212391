/** The runtime macros of the `profiling` crate (src/lib.rs): `scope!`,
    `register_thread!` and `finish_frame!`, each a straight list of
    `#[cfg(feature = ...)]`-gated lines, expanded for a set of enabled
    backends. (`manual_scope!` builds a `Guard`; it is modelled with the
    guards in module Guards.) */
module Macros {
  import opened Syntax
  import opened Expansion

  // ---------------------------------------------------------------------
  // scope!(name) and scope!(name, data)
  // ---------------------------------------------------------------------

  /** The lines of `scope!(name)` gated on backend `b`. Handle-returning calls
      are bound to a local so that the scope stays open until the enclosing
      block exits; tracy's callstack depth is 0. */
  function ScopeArmOf(name: string, b: Backend): Block {
    match b
    case Puffin => [Exec(PuffinProfileScope(name))]
    case Optick => [Exec(OptickEvent(Some(name)))]
    case Superluminal => [Let("_superluminal_guard", SuperluminalGuardNew(name))]
    case Tracy => [Let("_tracy_span", TracySpanNew(name, "", 0))]
    case Tracing => [Let("_span", TracingSpan(Info, name, None, None)), Let("_span_entered", TracingEnter("_span"))]
  }

  function ScopeArm(name: string): Backend -> Block {
    b => ScopeArmOf(name, b)
  }

  /** `scope!(name)` */
  function Scope(f: Features, name: string): (r: Block) {
    Expand(SourceOrder, f, ScopeArm(name))
  }

  /** The lines of `scope!(name, data)` gated on backend `b`: optick tags the
      event with key "tag", tracy emits the data as text on the new span,
      tracing records it as the span's `tag` field. */
  function ScopeDataArmOf(name: string, data: string, b: Backend): Block {
    match b
    case Puffin => [Exec(PuffinProfileScopeData(name, data))]
    case Optick => [Exec(OptickEvent(Some(name))), Exec(OptickTag("tag", data))]
    case Superluminal => [Let("_superluminal_guard", SuperluminalGuardNewWithData(name, data))]
    case Tracy => [Let("_tracy_span", TracySpanNew(name, "", 0)), Exec(TracyEmitText("_tracy_span", data))]
    case Tracing => [Let("_span", TracingSpan(Info, name, Some(data), None)), Let("_span_entered", TracingEnter("_span"))]
  }

  function ScopeDataArm(name: string, data: string): Backend -> Block {
    b => ScopeDataArmOf(name, data, b)
  }

  /** `scope!(name, data)` */
  function ScopeData(f: Features, name: string, data: string): (r: Block) {
    Expand(SourceOrder, f, ScopeDataArm(name, data))
  }

  /** Forgetting the data: each data-carrying call becomes its data-less
      counterpart and calls that only attach data disappear. */
  function EraseData(s: Stmt): seq<Stmt> {
    match s
    case Exec(PuffinProfileScopeData(n, _)) => [Exec(PuffinProfileScope(n))]
    case Exec(OptickTag(_, _)) => []
    case Exec(TracyEmitText(_, _)) => []
    case Let(x, SuperluminalGuardNewWithData(n, _)) => [Let(x, SuperluminalGuardNew(n))]
    case Let(x, TracingSpan(l, n, _, m)) => [Let(x, TracingSpan(l, n, None, m))]
    case _ => [s]
  }

  lemma ScopeArmsOwned(name: string, data: string)
    ensures Owned(SourceOrder, ScopeArm(name))
    ensures Owned(SourceOrder, ScopeDataArm(name, data))
  {
    forall b, i | b in SourceOrder && 0 <= i < |ScopeArm(name)(b)|
      ensures StmtOwner(ScopeArm(name)(b)[i]) == Some(b)
    {
      match b
      case Puffin =>
      case Optick =>
      case Superluminal =>
      case Tracy =>
      case Tracing =>
    }
    forall b, i | b in SourceOrder && 0 <= i < |ScopeDataArm(name, data)(b)|
      ensures StmtOwner(ScopeDataArm(name, data)(b)[i]) == Some(b)
    {
      match b
      case Puffin =>
      case Optick =>
      case Superluminal =>
      case Tracy =>
      case Tracing =>
    }
  }

  lemma ScopeArmOpensOnce(name: string, b: Backend)
    ensures Count(ScopeArm(name)(b), Opens) == 1
  {
    var arm := ScopeArmOf(name, b);
    if b == Tracing {
      CountPair(arm[0], arm[1], Opens);
    }
  }

  /** `scope!(name)` opens exactly one scope per enabled backend. */
  lemma ScopeOpensOnePerBackend(f: Features, name: string)
    ensures Count(Scope(f, name), Opens) == |f|
  {
    forall b | b in SourceOrder && b in f ensures Count(ScopeArm(name)(b), Opens) == 1 {
      ScopeArmOpensOnce(name, b);
    }
    ExpandCount(SourceOrder, f, ScopeArm(name), Opens);
    AllEnabledCard(SourceOrder, f);
  }

  /** In `scope!(name)`, backend `b` contributes exactly its own lines when
      enabled and nothing otherwise; the arms follow the source order. */
  lemma ScopeProjection(f: Features, name: string, b: Backend)
    ensures Project(Scope(f, name), b) == if b in f then ScopeArmOf(name, b) else []
  {
    SourceOrderDistinct();
    ScopeArmsOwned(name, "");
    ExpandProject(SourceOrder, f, ScopeArm(name), b);
  }

  /** Every name passed to a backend by `scope!(name)` is `name`, and every
      handle-returning call is bound to a local, so it lives until the
      enclosing block exits. */
  lemma ScopeNamesAndBindings(f: Features, name: string)
    ensures forall i :: 0 <= i < |Scope(f, name)| ==>
      var s := Scope(f, name)[i];
      (StmtName(s).Some? ==> StmtName(s) == Some(name)) &&
      (StmtCall(s).Some? && ReturnsHandle(StmtCall(s).value) ==> s.Let?)
  {
    var p := (s: Stmt) =>
      (StmtName(s).Some? ==> StmtName(s) == Some(name)) &&
      (StmtCall(s).Some? && ReturnsHandle(StmtCall(s).value) ==> s.Let?);
    forall b, i | b in SourceOrder && b in f && 0 <= i < |ScopeArm(name)(b)|
      ensures p(ScopeArm(name)(b)[i])
    {
      match b
      case Puffin =>
      case Optick =>
      case Superluminal =>
      case Tracy =>
      case Tracing =>
    }
    ExpandAll(SourceOrder, f, ScopeArm(name), p);
  }

  /** Both forms of `scope!` emit their lines backend by backend in the order
      the macro lists them: puffin, optick, superluminal, tracy, tracing. */
  lemma ScopeInSourceOrder(f: Features, name: string, data: string)
    ensures SortedBy(Scope(f, name), SourcePosition)
    ensures SortedBy(ScopeData(f, name, data), SourcePosition)
  {
    ScopeArmsOwned(name, data);
    SourceOrderRanked();
    ExpandSorted(SourceOrder, f, ScopeArm(name), SourcePosition);
    ExpandSorted(SourceOrder, f, ScopeDataArm(name, data), SourcePosition);
  }

  /** `scope!(name, data)` opens the same scopes as `scope!(name)`: erasing
      the data from its expansion gives the expansion without data. */
  lemma ScopeDataExtendsScope(f: Features, name: string, data: string)
    ensures FlatMap(ScopeData(f, name, data), EraseData) == Scope(f, name)
  {
    forall b | b in SourceOrder && b in f
      ensures ScopeArm(name)(b) == FlatMap(ScopeDataArm(name, data)(b), EraseData)
    {
      var arm := ScopeDataArmOf(name, data, b);
      match b
      case Puffin =>
      case Optick =>
        FlatMapPair(arm[0], arm[1], EraseData);
      case Superluminal =>
      case Tracy =>
        FlatMapPair(arm[0], arm[1], EraseData);
      case Tracing =>
        FlatMapPair(arm[0], arm[1], EraseData);
    }
    ExpandFlatMap(SourceOrder, f, ScopeDataArm(name, data), ScopeArm(name), EraseData);
  }

  lemma ScopeDataArmForwardsOnce(name: string, data: string, b: Backend)
    ensures Count(ScopeDataArm(name, data)(b), CarriesData) == 1
  {
    var arm := ScopeDataArmOf(name, data, b);
    if b in {Optick, Tracy, Tracing} {
      CountPair(arm[0], arm[1], CarriesData);
    }
  }

  /** `scope!(name, data)` forwards data exactly once to every enabled
      backend. */
  lemma ScopeDataForwardsOncePerBackend(f: Features, name: string, data: string)
    ensures Count(ScopeData(f, name, data), CarriesData) == |f|
  {
    forall b | b in SourceOrder && b in f ensures Count(ScopeDataArm(name, data)(b), CarriesData) == 1 {
      ScopeDataArmForwardsOnce(name, data, b);
    }
    ExpandCount(SourceOrder, f, ScopeDataArm(name, data), CarriesData);
    AllEnabledCard(SourceOrder, f);
  }

  /** The only data `scope!(name, data)` forwards is `data`. */
  lemma ScopeDataForwardsOnlyData(f: Features, name: string, data: string)
    ensures forall i :: 0 <= i < |ScopeData(f, name, data)| ==>
      StmtData(ScopeData(f, name, data)[i]) in {None, Some(data)}
  {
    var p := (s: Stmt) => StmtData(s) in {None, Some(data)};
    forall b, i | b in SourceOrder && b in f && 0 <= i < |ScopeDataArm(name, data)(b)|
      ensures p(ScopeDataArm(name, data)(b)[i])
    {
      match b
      case Puffin =>
      case Optick =>
      case Superluminal =>
      case Tracy =>
      case Tracing =>
    }
    ExpandAll(SourceOrder, f, ScopeDataArm(name, data), p);
  }

  /** In `scope!(name, data)`, backend `b` contributes exactly its own lines
      when enabled and nothing otherwise. */
  lemma ScopeDataProjection(f: Features, name: string, data: string, b: Backend)
    ensures Project(ScopeData(f, name, data), b) == if b in f then ScopeDataArmOf(name, data, b) else []
  {
    SourceOrderDistinct();
    ScopeArmsOwned(name, data);
    ExpandProject(SourceOrder, f, ScopeDataArm(name, data), b);
  }

  // ---------------------------------------------------------------------
  // register_thread!(name) and register_thread!()
  // ---------------------------------------------------------------------

  /** The lines of `register_thread!(name)` gated on `b`; puffin takes the
      thread's name itself and has no line, tracing has none either. */
  function RegisterThreadArmOf(name: string, b: Backend): Block {
    match b
    case Optick => [Exec(OptickRegisterThread(name))]
    case Superluminal => [Exec(SuperluminalSetThreadName(name))]
    case Tracy => [Exec(TracySetThreadName(name))]
    case _ => []
  }

  function RegisterThreadArm(name: string): Backend -> Block {
    b => RegisterThreadArmOf(name, b)
  }

  /** `register_thread!(name)` */
  function RegisterThread(f: Features, name: string): (r: Block) {
    Expand(SourceOrder, f, RegisterThreadArm(name))
  }

  /** The backends with a `register_thread!` line. */
  const ThreadNamingBackends: Features := {Optick, Superluminal, Tracy}

  /** `register_thread!(name)` makes one call to each enabled backend among
      optick, superluminal and tracy, and none to any other. */
  lemma RegisterThreadCount(f: Features, name: string)
    ensures |RegisterThread(f, name)| == |f * ThreadNamingBackends|
  {
    var g := ThreadNamingBackends;
    ExpandRestrict(SourceOrder, f, g, RegisterThreadArm(name));
    forall b | b in SourceOrder && b in f * g ensures Count(RegisterThreadArm(name)(b), Always) == 1 {
      match b
      case Optick =>
      case Superluminal =>
      case Tracy =>
    }
    ExpandCount(SourceOrder, f * g, RegisterThreadArm(name), Always);
    CountAlways(RegisterThread(f, name));
    AllEnabledCard(SourceOrder, f * g);
  }

  /** Each backend's lines in `register_thread!(name)`: optick registers
      the thread, superluminal and tracy set its name, each only when
      enabled, and puffin and tracing receive no call. */
  lemma RegisterThreadProjection(f: Features, name: string, b: Backend)
    ensures Project(RegisterThread(f, name), b) == if b in f then RegisterThreadArmOf(name, b) else []
    ensures Project(RegisterThread(f, name), Optick) ==
              if Optick in f then [Exec(OptickRegisterThread(name))] else []
    ensures Project(RegisterThread(f, name), Superluminal) ==
              if Superluminal in f then [Exec(SuperluminalSetThreadName(name))] else []
    ensures Project(RegisterThread(f, name), Tracy) ==
              if Tracy in f then [Exec(TracySetThreadName(name))] else []
    ensures Project(RegisterThread(f, name), Puffin) == [] && Project(RegisterThread(f, name), Tracing) == []
  {
    SourceOrderDistinct();
    assert Owned(SourceOrder, RegisterThreadArm(name)) by {
      forall c, i | c in SourceOrder && 0 <= i < |RegisterThreadArm(name)(c)|
        ensures StmtOwner(RegisterThreadArm(name)(c)[i]) == Some(c)
      {
        match c
        case Puffin =>
        case Optick =>
        case Superluminal =>
        case Tracy =>
        case Tracing =>
      }
    }
    ExpandProject(SourceOrder, f, RegisterThreadArm(name), b);
    ExpandProject(SourceOrder, f, RegisterThreadArm(name), Optick);
    ExpandProject(SourceOrder, f, RegisterThreadArm(name), Superluminal);
    ExpandProject(SourceOrder, f, RegisterThreadArm(name), Tracy);
    ExpandProject(SourceOrder, f, RegisterThreadArm(name), Puffin);
    ExpandProject(SourceOrder, f, RegisterThreadArm(name), Tracing);
  }

  /** Every line of `register_thread!(name)` is a plain call that passes
      `name`. */
  lemma RegisterThreadPassesName(f: Features, name: string)
    ensures forall i :: 0 <= i < |RegisterThread(f, name)| ==>
      RegisterThread(f, name)[i].Exec? && StmtName(RegisterThread(f, name)[i]) == Some(name)
  {
    var p := (s: Stmt) => s.Exec? && StmtName(s) == Some(name);
    forall b, i | b in SourceOrder && b in f && 0 <= i < |RegisterThreadArm(name)(b)|
      ensures p(RegisterThreadArm(name)(b)[i])
    {
      match b
      case Puffin =>
      case Optick =>
      case Superluminal =>
      case Tracy =>
      case Tracing =>
    }
    ExpandAll(SourceOrder, f, RegisterThreadArm(name), p);
  }

  /** `register_thread!(name)` expands to nothing exactly when no backend
      other than puffin and tracing is enabled. */
  lemma RegisterThreadEmptyIff(f: Features, name: string)
    ensures RegisterThread(f, name) == [] <==> f <= {Puffin, Tracing}
  {
    ExpandEmptyIff(SourceOrder, f, RegisterThreadArm(name));
    if f <= {Puffin, Tracing} {
      forall b | b in SourceOrder && b in f ensures RegisterThreadArm(name)(b) == [] {
        assert b == Puffin || b == Tracing;
      }
    } else {
      var b :| b in f && b !in {Puffin, Tracing};
      assert b in SourceOrder && RegisterThreadArm(name)(b) != [] by {
        match b
        case Optick =>
        case Superluminal =>
        case Tracy =>
      }
    }
  }

  /** A thread id (`std::thread::ThreadId`): a non-zero 64-bit counter. */
  type ThreadId = x: int | 1 <= x < 0x1_0000_0000_0000_0000 witness 1

  /** What `std::thread::current()` reports: an optional name and an id. */
  datatype Thread = Thread(name: Option<string>, id: ThreadId)

  function DigitChar(d: nat): char
    requires d < 10
  {
    ('0' as int + d) as char
  }

  /** Decimal rendering of a natural number, most significant digit first. */
  function Decimal(n: nat): (s: string)
    ensures |s| >= 1
    ensures forall i :: 0 <= i < |s| ==> '0' <= s[i] <= '9'
  {
    if n < 10 then [DigitChar(n)] else Decimal(n / 10) + [DigitChar(n % 10)]
  }

  function ParseDecimal(s: string): nat {
    if s == [] then 0
    else
      var c := s[|s| - 1];
      ParseDecimal(s[..|s| - 1]) * 10 + (if '0' <= c <= '9' then c as int - '0' as int else 0)
  }

  lemma {:induction false} ParseDecimalInverse(n: nat)
    ensures ParseDecimal(Decimal(n)) == n
  {
    if n >= 10 {
      var s := Decimal(n);
      assert s[..|s| - 1] == Decimal(n / 10);
      ParseDecimalInverse(n / 10);
    }
  }

  /** The `Debug` rendering of a `ThreadId`. */
  function ThreadIdDebug(id: ThreadId): string {
    "ThreadId(" + Decimal(id) + ")"
  }

  /** The name `register_thread!()` registers: the thread's own name when it
      has one, otherwise "Thread " followed by the `Debug` rendering of its id. */
  function ThreadLabel(t: Thread): string {
    match t.name
    case Some(n) => n
    case None => "Thread " + ThreadIdDebug(t.id)
  }

  /** Reads the id back out of a label produced for an unnamed thread. */
  function ParseUnnamedLabel(text: string): Option<nat> {
    if |text| >= 17 && text[..16] == "Thread ThreadId(" && text[|text| - 1] == ')'
    then Some(ParseDecimal(text[16..|text| - 1]))
    else None
  }

  /** The fallback label of an unnamed thread determines its id. */
  lemma UnnamedLabelRoundTrip(t: Thread)
    requires t.name.None?
    ensures ParseUnnamedLabel(ThreadLabel(t)) == Some(t.id as nat)
  {
    var d := Decimal(t.id);
    var text := ThreadLabel(t);
    assert text == "Thread ThreadId(" + d + ")";
    assert text[..16] == "Thread ThreadId(";
    assert text[16..|text| - 1] == d;
    ParseDecimalInverse(t.id);
  }

  /** Two unnamed threads with different ids are registered under different
      names. */
  lemma UnnamedLabelsDistinct(t: Thread, u: Thread)
    requires t.name.None? && u.name.None? && t.id != u.id
    ensures ThreadLabel(t) != ThreadLabel(u)
  {
    UnnamedLabelRoundTrip(t);
    UnnamedLabelRoundTrip(u);
  }

  /** `register_thread!()`: delegates to `register_thread!(name)` with the
      thread's label. */
  function RegisterCurrentThread(f: Features, t: Thread): (r: Block)
    ensures t.name.Some? ==> r == RegisterThread(f, t.name.value)
    ensures t.name.None? ==> r == RegisterThread(f, "Thread ThreadId(" + Decimal(t.id) + ")")
  {
    assert t.name.None? ==> ThreadLabel(t) == "Thread ThreadId(" + Decimal(t.id) + ")";
    RegisterThread(f, ThreadLabel(t))
  }

  // ---------------------------------------------------------------------
  // finish_frame!()
  // ---------------------------------------------------------------------

  /** The lines of `finish_frame!()` gated on `b`; superluminal has no frame
      end function and this macro has no tracing line. */
  function FinishFrameArmOf(b: Backend): Block {
    match b
    case Puffin => [Exec(PuffinNewFrame)]
    case Optick => [Exec(OptickNextFrame)]
    case Tracy => [Exec(TracyFinishFrame)]
    case _ => []
  }

  function FinishFrameArm(): Backend -> Block {
    b => FinishFrameArmOf(b)
  }

  /** `finish_frame!()` */
  function FinishFrame(f: Features): (r: Block) {
    Expand(SourceOrder, f, FinishFrameArm())
  }

  const FrameBackends: Features := {Puffin, Optick, Tracy}

  /** `finish_frame!()` makes one frame call to each enabled backend among
      puffin, optick and tracy, and none to superluminal or tracing. */
  lemma FinishFrameCount(f: Features)
    ensures |FinishFrame(f)| == |f * FrameBackends|
  {
    forall b | b in SourceOrder && b in f && b !in FrameBackends ensures FinishFrameArm()(b) == [] {
    }
    forall b | b in SourceOrder && b in f * FrameBackends ensures Count(FinishFrameArm()(b), Always) == 1 {
    }
    SourceOrderDistinct();
    ExpandCountRestricted(SourceOrder, f, FrameBackends, FinishFrameArm(), Always);
    CountAlways(FinishFrame(f));
  }

  /** `finish_frame!()` expands to nothing exactly when only superluminal
      and tracing are enabled. */
  lemma FinishFrameEmptyIff(f: Features)
    ensures FinishFrame(f) == [] <==> f <= {Superluminal, Tracing}
  {
    ExpandEmptyIff(SourceOrder, f, FinishFrameArm());
    if !(f <= {Superluminal, Tracing}) {
      var b :| b in f && b !in {Superluminal, Tracing};
      assert b in SourceOrder && FinishFrameArm()(b) != [] by {
        match b
        case Puffin =>
        case Optick =>
        case Tracy =>
      }
    }
  }

  /** In `finish_frame!()`, each backend contributes exactly its own frame
      call when enabled and nothing otherwise. */
  lemma FinishFrameProjection(f: Features, b: Backend)
    ensures Project(FinishFrame(f), b) == if b in f then FinishFrameArmOf(b) else []
  {
    SourceOrderDistinct();
    assert Owned(SourceOrder, FinishFrameArm()) by {
      forall c, i | c in SourceOrder && 0 <= i < |FinishFrameArm()(c)|
        ensures StmtOwner(FinishFrameArm()(c)[i]) == Some(c)
      {
        match c
        case Puffin =>
        case Optick =>
        case Superluminal =>
        case Tracy =>
        case Tracing =>
      }
    }
    ExpandProject(SourceOrder, f, FinishFrameArm(), b);
  }

  /** With no backend feature enabled every runtime macro expands to nothing. */
  lemma NoBackendExpandsToNothing(name: string, data: string, t: Thread)
    ensures Scope({}, name) == [] && ScopeData({}, name, data) == []
    ensures RegisterThread({}, name) == [] && RegisterCurrentThread({}, t) == []
    ensures FinishFrame({}) == []
  {
    ExpandEmptyIff(SourceOrder, {}, ScopeArm(name));
    ExpandEmptyIff(SourceOrder, {}, ScopeDataArm(name, data));
    ExpandEmptyIff(SourceOrder, {}, RegisterThreadArm(name));
    ExpandEmptyIff(SourceOrder, {}, RegisterThreadArm(ThreadLabel(t)));
    ExpandEmptyIff(SourceOrder, {}, FinishFrameArm());
  }
}
