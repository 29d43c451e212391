/** The RAII guards of src/guard.rs and the `manual_scope!` macro that
    builds a `Guard` (src/lib.rs). Each backend library is a recorder: its
    begin and end calls append an `Event` to the log of one `Profiler`.
    Constructing a guard issues its begin call; its `Drop` method, called
    explicitly where Rust would drop the value, issues the matching end call.

    The profiler keeps, as ghost state, the set of guards that are alive on
    each channel, and `Valid` says that every channel's nesting depth in the
    log equals the number of live guards on it: no end without a begin, and
    once every guard is dropped every channel is back at depth zero. */
module Guards {
  import opened Syntax

  newtype u32 = x: int | 0 <= x < 0x1_0000_0000

  /** Superluminal's "use the default color" sentinel. */
  const DefaultSuperluminalColor: u32 := 0xFFFF_FFFF

  /** A `tracing::Dispatch`: which subscriber receives enter and exit. */
  datatype Dispatch = Dispatch(subscriber: nat)

  /** A `tracing::Span`; `id` is `None` for a disabled span. */
  datatype Span = Span(name: string, tag: Option<string>, id: Option<nat>)

  /** A call into a backend library, as recorded. */
  datatype Event =
    | PuffinBegin(name: string, data: string)         // ProfilerScope::new
    | PuffinEnd                                       // drop of ProfilerScope
    | SuperluminalBegin(name: string)                 // begin_event
    | SuperluminalBeginWithData(name: string, data: string, color: u32)
    | SuperluminalEnd                                 // end_event
    | TracyBegin(name: string)                        // Span::new(name, "", file, line, 0)
    | TracyText(text: string)                         // emit_text
    | TracyEnd                                        // drop of tracy_client::Span
    | Enter(dispatch: Dispatch, id: nat)              // subscriber.enter(&id)
    | Exit(dispatch: Dispatch, id: nat)               // subscriber.exit(&id)

  /** What begin and end calls nest on: one stack per library, and one per
      span id and subscriber for tracing. */
  datatype Channel = PuffinScopes | SuperluminalEvents | TracyZones | SpanOn(dispatch: Dispatch, id: nat)

  /** +1 for a begin on `ch`, -1 for an end on `ch`, 0 otherwise. */
  function Delta(e: Event, ch: Channel): int {
    match e
    case PuffinBegin(_, _) => if ch == PuffinScopes then 1 else 0
    case PuffinEnd => if ch == PuffinScopes then -1 else 0
    case SuperluminalBegin(_) => if ch == SuperluminalEvents then 1 else 0
    case SuperluminalBeginWithData(_, _, _) => if ch == SuperluminalEvents then 1 else 0
    case SuperluminalEnd => if ch == SuperluminalEvents then -1 else 0
    case TracyBegin(_) => if ch == TracyZones then 1 else 0
    case TracyText(_) => 0
    case TracyEnd => if ch == TracyZones then -1 else 0
    case Enter(d, id) => if ch == SpanOn(d, id) then 1 else 0
    case Exit(d, id) => if ch == SpanOn(d, id) then -1 else 0
  }

  /** Begins minus ends on `ch` over a log. */
  function Depth(log: seq<Event>, ch: Channel): int {
    if log == [] then 0 else Depth(log[..|log| - 1], ch) + Delta(log[|log| - 1], ch)
  }

  lemma DepthSnoc(log: seq<Event>, e: Event)
    ensures forall ch :: Depth(log + [e], ch) == Depth(log, ch) + Delta(e, ch)
  {
    assert (log + [e])[..|log|] == log;
  }

  /** Depth adds up over consecutive stretches of the log. */
  lemma {:induction false} DepthAppend(a: seq<Event>, b: seq<Event>, ch: Channel)
    ensures Depth(a + b, ch) == Depth(a, ch) + Depth(b, ch)
  {
    if b == [] {
      assert a + b == a;
    } else {
      var c := b[..|b| - 1];
      assert (a + b)[..|a + b| - 1] == a + c;
      DepthAppend(a, c, ch);
    }
  }

  /** The tracing guards alive on channel `SpanOn(d, id)`. */
  ghost function EnteredOn(s: set<TracingGuard>, d: Dispatch, id: nat): set<TracingGuard> {
    set g | g in s && g.subscriber == d && g.span.id == Some(id)
  }

  lemma EnteredOnInsert(s: set<TracingGuard>, g: TracingGuard, d: Dispatch, id: nat)
    requires g !in s
    ensures |EnteredOn(s + {g}, d, id)| ==
      |EnteredOn(s, d, id)| + (if g.subscriber == d && g.span.id == Some(id) then 1 else 0)
  {
    if g.subscriber == d && g.span.id == Some(id) {
      assert EnteredOn(s + {g}, d, id) == EnteredOn(s, d, id) + {g};
    } else {
      assert EnteredOn(s + {g}, d, id) == EnteredOn(s, d, id);
    }
  }

  lemma EnteredOnRemove(s: set<TracingGuard>, g: TracingGuard, d: Dispatch, id: nat)
    requires g in s
    ensures |EnteredOn(s - {g}, d, id)| ==
      |EnteredOn(s, d, id)| - (if g.subscriber == d && g.span.id == Some(id) then 1 else 0)
  {
    if g.subscriber == d && g.span.id == Some(id) {
      assert EnteredOn(s - {g}, d, id) == EnteredOn(s, d, id) - {g};
    } else {
      assert EnteredOn(s - {g}, d, id) == EnteredOn(s, d, id);
    }
  }

  /** The backend libraries of one thread, as a log of the calls made into
      them. */
  class Profiler {
    var events: seq<Event>
    ghost var puffinOpen: set<PuffinScope>
    ghost var superluminalOpen: set<SuperluminalGuard>
    ghost var tracyOpen: set<TracySpan>
    ghost var tracingOpen: set<TracingGuard>

    ghost predicate Valid()
      reads this
    {
      Depth(events, PuffinScopes) == |puffinOpen| &&
      Depth(events, SuperluminalEvents) == |superluminalOpen| &&
      Depth(events, TracyZones) == |tracyOpen| &&
      forall d, id :: Depth(events, SpanOn(d, id)) == |EnteredOn(tracingOpen, d, id)|
    }

    constructor ()
      ensures Valid() && events == []
      ensures puffinOpen == {} && superluminalOpen == {} && tracyOpen == {} && tracingOpen == {}
    {
      events := [];
      puffinOpen := {};
      superluminalOpen := {};
      tracyOpen := {};
      tracingOpen := {};
    }
  }

  /** The thread's default `tracing` dispatcher. */
  class Dispatcher {
    var current: Dispatch

    constructor (d: Dispatch)
      ensures current == d
    {
      current := d;
    }

    /** Installs a new default subscriber. */
    method SetDefault(d: Dispatch)
      modifies this
      ensures current == d
    {
      current := d;
    }
  }

  /** `puffin::ProfilerScope`, opened when puffin scopes are on. */
  class PuffinScope {
    const profiler: Profiler

    constructor New(p: Profiler, name: string, data: string)
      requires p.Valid()
      modifies p
      ensures p.Valid() && profiler == p
      ensures p.events == old(p.events) + [PuffinBegin(name, data)]
      ensures p.puffinOpen == old(p.puffinOpen) + {this}
      ensures p.superluminalOpen == old(p.superluminalOpen) && p.tracyOpen == old(p.tracyOpen)
      ensures p.tracingOpen == old(p.tracingOpen)
    {
      profiler := p;
      new;
      DepthSnoc(p.events, PuffinBegin(name, data));
      p.events := p.events + [PuffinBegin(name, data)];
      p.puffinOpen := p.puffinOpen + {this};
    }

    method Drop()
      requires profiler.Valid() && this in profiler.puffinOpen
      modifies profiler
      ensures profiler.Valid()
      ensures profiler.events == old(profiler.events) + [PuffinEnd]
      ensures profiler.puffinOpen == old(profiler.puffinOpen) - {this}
      ensures profiler.superluminalOpen == old(profiler.superluminalOpen)
      ensures profiler.tracyOpen == old(profiler.tracyOpen)
      ensures profiler.tracingOpen == old(profiler.tracingOpen)
    {
      DepthSnoc(profiler.events, PuffinEnd);
      profiler.events := profiler.events + [PuffinEnd];
      profiler.puffinOpen := profiler.puffinOpen - {this};
    }
  }

  /** `guard::superluminal::SuperluminalGuard`. */
  class SuperluminalGuard {
    const profiler: Profiler

    /** `SuperluminalGuard::new(name)`: one `begin_event(name)`. */
    constructor New(p: Profiler, name: string)
      requires p.Valid()
      modifies p
      ensures p.Valid() && profiler == p
      ensures p.events == old(p.events) + [SuperluminalBegin(name)]
      ensures p.superluminalOpen == old(p.superluminalOpen) + {this}
      ensures p.puffinOpen == old(p.puffinOpen) && p.tracyOpen == old(p.tracyOpen)
      ensures p.tracingOpen == old(p.tracingOpen)
    {
      profiler := p;
      new;
      DepthSnoc(p.events, SuperluminalBegin(name));
      p.events := p.events + [SuperluminalBegin(name)];
      p.superluminalOpen := p.superluminalOpen + {this};
    }

    /** `SuperluminalGuard::new_with_data(name, data)`: one
        `begin_event_with_data` with the default color. */
    constructor NewWithData(p: Profiler, name: string, data: string)
      requires p.Valid()
      modifies p
      ensures p.Valid() && profiler == p
      ensures p.events == old(p.events) + [SuperluminalBeginWithData(name, data, DefaultSuperluminalColor)]
      ensures p.superluminalOpen == old(p.superluminalOpen) + {this}
      ensures p.puffinOpen == old(p.puffinOpen) && p.tracyOpen == old(p.tracyOpen)
      ensures p.tracingOpen == old(p.tracingOpen)
    {
      profiler := p;
      new;
      var e := SuperluminalBeginWithData(name, data, DefaultSuperluminalColor);
      DepthSnoc(p.events, e);
      p.events := p.events + [e];
      p.superluminalOpen := p.superluminalOpen + {this};
    }

    /** `drop`: one `end_event()`. */
    method Drop()
      requires profiler.Valid() && this in profiler.superluminalOpen
      modifies profiler
      ensures profiler.Valid()
      ensures profiler.events == old(profiler.events) + [SuperluminalEnd]
      ensures profiler.superluminalOpen == old(profiler.superluminalOpen) - {this}
      ensures profiler.puffinOpen == old(profiler.puffinOpen)
      ensures profiler.tracyOpen == old(profiler.tracyOpen)
      ensures profiler.tracingOpen == old(profiler.tracingOpen)
    {
      DepthSnoc(profiler.events, SuperluminalEnd);
      profiler.events := profiler.events + [SuperluminalEnd];
      profiler.superluminalOpen := profiler.superluminalOpen - {this};
    }
  }

  /** `tracy_client::Span`, with callstack depth 0. */
  class TracySpan {
    const profiler: Profiler

    constructor New(p: Profiler, name: string)
      requires p.Valid()
      modifies p
      ensures p.Valid() && profiler == p
      ensures p.events == old(p.events) + [TracyBegin(name)]
      ensures p.tracyOpen == old(p.tracyOpen) + {this}
      ensures p.puffinOpen == old(p.puffinOpen) && p.superluminalOpen == old(p.superluminalOpen)
      ensures p.tracingOpen == old(p.tracingOpen)
    {
      profiler := p;
      new;
      DepthSnoc(p.events, TracyBegin(name));
      p.events := p.events + [TracyBegin(name)];
      p.tracyOpen := p.tracyOpen + {this};
    }

    /** `emit_text(text)` on a live span. */
    method EmitText(text: string)
      requires profiler.Valid() && this in profiler.tracyOpen
      modifies profiler
      ensures profiler.Valid()
      ensures profiler.events == old(profiler.events) + [TracyText(text)]
      ensures profiler.puffinOpen == old(profiler.puffinOpen)
      ensures profiler.superluminalOpen == old(profiler.superluminalOpen)
      ensures profiler.tracyOpen == old(profiler.tracyOpen)
      ensures profiler.tracingOpen == old(profiler.tracingOpen)
    {
      DepthSnoc(profiler.events, TracyText(text));
      profiler.events := profiler.events + [TracyText(text)];
    }

    method Drop()
      requires profiler.Valid() && this in profiler.tracyOpen
      modifies profiler
      ensures profiler.Valid()
      ensures profiler.events == old(profiler.events) + [TracyEnd]
      ensures profiler.tracyOpen == old(profiler.tracyOpen) - {this}
      ensures profiler.puffinOpen == old(profiler.puffinOpen)
      ensures profiler.superluminalOpen == old(profiler.superluminalOpen)
      ensures profiler.tracingOpen == old(profiler.tracingOpen)
    {
      DepthSnoc(profiler.events, TracyEnd);
      profiler.events := profiler.events + [TracyEnd];
      profiler.tracyOpen := profiler.tracyOpen - {this};
    }
  }

  /** `guard::tracing::TracingGuard`: owns its span and the subscriber that
      was the default when it was made. */
  class TracingGuard {
    const profiler: Profiler
    const span: Span
    const subscriber: Dispatch

    /** `TracingGuard::new(span)`: captures the current default subscriber
        and enters the span on it when the span has an id. */
    constructor New(p: Profiler, dispatcher: Dispatcher, span: Span)
      requires p.Valid()
      modifies p
      ensures p.Valid() && profiler == p && this.span == span
      ensures subscriber == dispatcher.current
      ensures p.events == old(p.events) +
        (if span.id.Some? then [Enter(dispatcher.current, span.id.value)] else [])
      ensures p.tracingOpen == old(p.tracingOpen) + {this}
      ensures p.puffinOpen == old(p.puffinOpen) && p.superluminalOpen == old(p.superluminalOpen)
      ensures p.tracyOpen == old(p.tracyOpen)
    {
      profiler := p;
      this.span := span;
      subscriber := dispatcher.current;
      new;
      var added := if span.id.Some? then [Enter(subscriber, span.id.value)] else [];
      var log := p.events;
      if span.id.Some? {
        DepthSnoc(log, Enter(subscriber, span.id.value));
      }
      assert forall ch :: Depth(log + added, ch) == Depth(log, ch) + Depth(added, ch) by {
        forall ch ensures Depth(log + added, ch) == Depth(log, ch) + Depth(added, ch) {
          DepthAppend(log, added, ch);
        }
      }
      p.events := log + added;
      p.tracingOpen := p.tracingOpen + {this};
      forall d, id ensures Depth(p.events, SpanOn(d, id)) == |EnteredOn(p.tracingOpen, d, id)| {
        EnteredOnInsert(old(p.tracingOpen), this, d, id);
      }
    }

    /** `drop`: exits the span on the captured subscriber when it has an
        id; the current default is not consulted. */
    method Drop()
      requires profiler.Valid() && this in profiler.tracingOpen
      modifies profiler
      ensures profiler.Valid()
      ensures profiler.events == old(profiler.events) +
        (if span.id.Some? then [Exit(subscriber, span.id.value)] else [])
      ensures profiler.tracingOpen == old(profiler.tracingOpen) - {this}
      ensures profiler.puffinOpen == old(profiler.puffinOpen)
      ensures profiler.superluminalOpen == old(profiler.superluminalOpen)
      ensures profiler.tracyOpen == old(profiler.tracyOpen)
    {
      var p := profiler;
      var added := if span.id.Some? then [Exit(subscriber, span.id.value)] else [];
      var log := p.events;
      if span.id.Some? {
        DepthSnoc(log, Exit(subscriber, span.id.value));
      }
      assert forall ch :: Depth(log + added, ch) == Depth(log, ch) + Depth(added, ch) by {
        forall ch ensures Depth(log + added, ch) == Depth(log, ch) + Depth(added, ch) {
          DepthAppend(log, added, ch);
        }
      }
      p.events := log + added;
      p.tracingOpen := p.tracingOpen - {this};
      forall d, id ensures Depth(p.events, SpanOn(d, id)) == |EnteredOn(p.tracingOpen, d, id)| {
        EnteredOnRemove(old(p.tracingOpen), this, d, id);
      }
    }
  }

  lemma AppendFour(log: seq<Event>, a: seq<Event>, b: seq<Event>, c: seq<Event>, d: seq<Event>)
    ensures log + a + b + c + d == log + (a + b + c + d)
  {
  }

  // ---------------------------------------------------------------------
  // manual_scope! and Guard
  // ---------------------------------------------------------------------

  function DataOrEmpty(data: Option<string>): string {
    if data.Some? then data.value else ""
  }

  /** The begin call of the puffin field: a scope only when scopes are on;
      the one-argument form passes "" as data. */
  function PuffinBegins(f: Features, scopesOn: bool, name: string, data: Option<string>): seq<Event> {
    if Puffin in f && scopesOn then [PuffinBegin(name, DataOrEmpty(data))] else []
  }

  function SuperluminalBegins(f: Features, name: string, data: Option<string>): seq<Event> {
    if Superluminal in f then
      (if data.Some? then [SuperluminalBeginWithData(name, data.value, DefaultSuperluminalColor)]
       else [SuperluminalBegin(name)])
    else []
  }

  /** Tracy's field: a new span, then the data as text on it. */
  function TracyBegins(f: Features, name: string, data: Option<string>): seq<Event> {
    if Tracy in f then [TracyBegin(name)] + (if data.Some? then [TracyText(data.value)] else []) else []
  }

  function TracingBegins(f: Features, d: Dispatch, spanId: Option<nat>): seq<Event> {
    if Tracing in f && spanId.Some? then [Enter(d, spanId.value)] else []
  }

  /** The calls `manual_scope!(guard, name)` (`data` is `None`) or
      `manual_scope!(guard, name, data)` makes, in the order the struct
      expression lists its fields; `d` is the default subscriber and
      `spanId` the id of the new tracing span. */
  function ManualScopeBegins(f: Features, scopesOn: bool, name: string, data: Option<string>,
                             d: Dispatch, spanId: Option<nat>): seq<Event>
  {
    PuffinBegins(f, scopesOn, name, data) + SuperluminalBegins(f, name, data) +
    TracyBegins(f, name, data) + TracingBegins(f, d, spanId)
  }

  /** The calls dropping that guard makes, in field declaration order. */
  function ManualScopeEnds(f: Features, scopesOn: bool, d: Dispatch, spanId: Option<nat>): seq<Event> {
    (if Puffin in f && scopesOn then [PuffinEnd] else []) +
    (if Superluminal in f then [SuperluminalEnd] else []) +
    (if Tracy in f then [TracyEnd] else []) +
    (if Tracing in f && spanId.Some? then [Exit(d, spanId.value)] else [])
  }

  /** `guard::Guard`: one component per enabled backend among puffin,
      superluminal, tracy and tracing (a component whose feature is off, or a
      puffin scope not opened, is `None`). There is no optick component. */
  class Guard {
    const puffin: Option<PuffinScope>
    const superluminal: Option<SuperluminalGuard>
    const tracy: Option<TracySpan>
    const tracing: Option<TracingGuard>

    constructor (puffin: Option<PuffinScope>, superluminal: Option<SuperluminalGuard>,
                 tracy: Option<TracySpan>, tracing: Option<TracingGuard>)
      ensures this.puffin == puffin && this.superluminal == superluminal
      ensures this.tracy == tracy && this.tracing == tracing
      ensures PuffinPart() == (if puffin.Some? then {puffin.value} else {})
      ensures SuperluminalPart() == (if superluminal.Some? then {superluminal.value} else {})
      ensures TracyPart() == (if tracy.Some? then {tracy.value} else {})
      ensures TracingPart() == (if tracing.Some? then {tracing.value} else {})
    {
      this.puffin := puffin;
      this.superluminal := superluminal;
      this.tracy := tracy;
      this.tracing := tracing;
    }

    ghost function PuffinPart(): set<PuffinScope> {
      if puffin.Some? then {puffin.value} else {}
    }

    ghost function SuperluminalPart(): set<SuperluminalGuard> {
      if superluminal.Some? then {superluminal.value} else {}
    }

    ghost function TracyPart(): set<TracySpan> {
      if tracy.Some? then {tracy.value} else {}
    }

    ghost function TracingPart(): set<TracingGuard> {
      if tracing.Some? then {tracing.value} else {}
    }

    /** Every component records into `p` and is still alive. */
    ghost predicate LiveIn(p: Profiler)
      reads p
    {
      (puffin.Some? ==> puffin.value.profiler == p && puffin.value in p.puffinOpen) &&
      (superluminal.Some? ==> superluminal.value.profiler == p && superluminal.value in p.superluminalOpen) &&
      (tracy.Some? ==> tracy.value.profiler == p && tracy.value in p.tracyOpen) &&
      (tracing.Some? ==> tracing.value.profiler == p && tracing.value in p.tracingOpen)
    }

    function TracingEnds(): seq<Event> {
      if tracing.Some? && tracing.value.span.id.Some?
      then [Exit(tracing.value.subscriber, tracing.value.span.id.value)] else []
    }

    /** The end calls that dropping the guard makes: Rust drops the fields
        in declaration order. */
    function Ends(): seq<Event> {
      (if puffin.Some? then [PuffinEnd] else []) +
      (if superluminal.Some? then [SuperluminalEnd] else []) +
      (if tracy.Some? then [TracyEnd] else []) +
      TracingEnds()
    }

    /** Dropping the guard drops each component in field order. */
    method Drop(p: Profiler)
      requires p.Valid() && LiveIn(p)
      modifies p
      ensures p.Valid()
      ensures p.events == old(p.events) + Ends()
      ensures p.puffinOpen == old(p.puffinOpen) - PuffinPart()
      ensures p.superluminalOpen == old(p.superluminalOpen) - SuperluminalPart()
      ensures p.tracyOpen == old(p.tracyOpen) - TracyPart()
      ensures p.tracingOpen == old(p.tracingOpen) - TracingPart()
    {
      ghost var log := p.events;
      DropPuffin(p);
      DropSuperluminal(p);
      DropTracy(p);
      DropTracing(p);
      AppendFour(log, if puffin.Some? then [PuffinEnd] else [],
                 if superluminal.Some? then [SuperluminalEnd] else [],
                 if tracy.Some? then [TracyEnd] else [], TracingEnds());
    }

    method DropPuffin(p: Profiler)
      requires p.Valid()
      requires puffin.Some? ==> puffin.value.profiler == p && puffin.value in p.puffinOpen
      modifies p
      ensures p.Valid()
      ensures p.events == old(p.events) + (if puffin.Some? then [PuffinEnd] else [])
      ensures p.puffinOpen == old(p.puffinOpen) - PuffinPart()
      ensures p.superluminalOpen == old(p.superluminalOpen) && p.tracyOpen == old(p.tracyOpen)
      ensures p.tracingOpen == old(p.tracingOpen)
    {
      if puffin.Some? {
        puffin.value.Drop();
      }
    }

    method DropSuperluminal(p: Profiler)
      requires p.Valid()
      requires superluminal.Some? ==> superluminal.value.profiler == p && superluminal.value in p.superluminalOpen
      modifies p
      ensures p.Valid()
      ensures p.events == old(p.events) + (if superluminal.Some? then [SuperluminalEnd] else [])
      ensures p.superluminalOpen == old(p.superluminalOpen) - SuperluminalPart()
      ensures p.puffinOpen == old(p.puffinOpen) && p.tracyOpen == old(p.tracyOpen)
      ensures p.tracingOpen == old(p.tracingOpen)
    {
      if superluminal.Some? {
        superluminal.value.Drop();
      }
    }

    method DropTracy(p: Profiler)
      requires p.Valid()
      requires tracy.Some? ==> tracy.value.profiler == p && tracy.value in p.tracyOpen
      modifies p
      ensures p.Valid()
      ensures p.events == old(p.events) + (if tracy.Some? then [TracyEnd] else [])
      ensures p.tracyOpen == old(p.tracyOpen) - TracyPart()
      ensures p.puffinOpen == old(p.puffinOpen) && p.superluminalOpen == old(p.superluminalOpen)
      ensures p.tracingOpen == old(p.tracingOpen)
    {
      if tracy.Some? {
        tracy.value.Drop();
      }
    }

    method DropTracing(p: Profiler)
      requires p.Valid()
      requires tracing.Some? ==> tracing.value.profiler == p && tracing.value in p.tracingOpen
      modifies p
      ensures p.Valid()
      ensures p.events == old(p.events) + TracingEnds()
      ensures p.tracingOpen == old(p.tracingOpen) - TracingPart()
      ensures p.puffinOpen == old(p.puffinOpen) && p.superluminalOpen == old(p.superluminalOpen)
      ensures p.tracyOpen == old(p.tracyOpen)
    {
      if tracing.Some? {
        tracing.value.Drop();
      }
    }
  }

  /** The puffin field of `manual_scope!`: `Some(ProfilerScope::new(..))`
      when `are_scopes_on()`, else `None`. */
  method OpenPuffin(p: Profiler, f: Features, scopesOn: bool, name: string, data: Option<string>)
    returns (r: Option<PuffinScope>)
    requires p.Valid()
    modifies p
    ensures p.Valid()
    ensures p.events == old(p.events) + PuffinBegins(f, scopesOn, name, data)
    ensures r.Some? <==> Puffin in f && scopesOn
    ensures r.Some? ==> r.value !in old(p.puffinOpen) && r.value.profiler == p
    ensures p.puffinOpen == old(p.puffinOpen) + (if r.Some? then {r.value} else {})
    ensures p.superluminalOpen == old(p.superluminalOpen) && p.tracyOpen == old(p.tracyOpen)
    ensures p.tracingOpen == old(p.tracingOpen)
  {
    r := None;
    if Puffin in f && scopesOn {
      var s := new PuffinScope.New(p, name, DataOrEmpty(data));
      r := Some(s);
    }
  }

  method OpenSuperluminal(p: Profiler, f: Features, name: string, data: Option<string>)
    returns (r: Option<SuperluminalGuard>)
    requires p.Valid()
    modifies p
    ensures p.Valid()
    ensures p.events == old(p.events) + SuperluminalBegins(f, name, data)
    ensures r.Some? <==> Superluminal in f
    ensures r.Some? ==> r.value !in old(p.superluminalOpen) && r.value.profiler == p
    ensures p.superluminalOpen == old(p.superluminalOpen) + (if r.Some? then {r.value} else {})
    ensures p.puffinOpen == old(p.puffinOpen) && p.tracyOpen == old(p.tracyOpen)
    ensures p.tracingOpen == old(p.tracingOpen)
  {
    r := None;
    if Superluminal in f {
      var s;
      if data.Some? {
        s := new SuperluminalGuard.NewWithData(p, name, data.value);
      } else {
        s := new SuperluminalGuard.New(p, name);
      }
      r := Some(s);
    }
  }

  /** Tracy's field: the span, with the data emitted as text on it. */
  method OpenTracy(p: Profiler, f: Features, name: string, data: Option<string>)
    returns (r: Option<TracySpan>)
    requires p.Valid()
    modifies p
    ensures p.Valid()
    ensures p.events == old(p.events) + TracyBegins(f, name, data)
    ensures r.Some? <==> Tracy in f
    ensures r.Some? ==> r.value !in old(p.tracyOpen) && r.value.profiler == p
    ensures p.tracyOpen == old(p.tracyOpen) + (if r.Some? then {r.value} else {})
    ensures p.puffinOpen == old(p.puffinOpen) && p.superluminalOpen == old(p.superluminalOpen)
    ensures p.tracingOpen == old(p.tracingOpen)
  {
    r := None;
    if Tracy in f {
      var s := new TracySpan.New(p, name);
      if data.Some? {
        s.EmitText(data.value);
      }
      r := Some(s);
    }
  }

  /** Tracing's field: a guard over the span `span!(INFO, name[, tag = data])`,
      whose id is `spanId`. */
  method OpenTracing(p: Profiler, dispatcher: Dispatcher, f: Features, name: string,
                     data: Option<string>, spanId: Option<nat>)
    returns (r: Option<TracingGuard>)
    requires p.Valid()
    modifies p
    ensures p.Valid()
    ensures p.events == old(p.events) + TracingBegins(f, dispatcher.current, spanId)
    ensures r.Some? <==> Tracing in f
    ensures r.Some? ==> (r.value !in old(p.tracingOpen) && r.value.profiler == p &&
                         r.value.subscriber == dispatcher.current && r.value.span == Span(name, data, spanId))
    ensures p.tracingOpen == old(p.tracingOpen) + (if r.Some? then {r.value} else {})
    ensures p.puffinOpen == old(p.puffinOpen) && p.superluminalOpen == old(p.superluminalOpen)
    ensures p.tracyOpen == old(p.tracyOpen)
  {
    r := None;
    if Tracing in f {
      var s := new TracingGuard.New(p, dispatcher, Span(name, data, spanId));
      r := Some(s);
    }
  }

  /** `manual_scope!(guard, name)` and `manual_scope!(guard, name, data)`:
      builds the guard field by field, one component per enabled backend;
      dropping it later ends exactly what it began. */
  method ManualScope(p: Profiler, dispatcher: Dispatcher, f: Features, scopesOn: bool,
                     name: string, data: Option<string>, spanId: Option<nat>) returns (g: Guard)
    requires p.Valid()
    modifies p
    ensures p.Valid() && g.LiveIn(p)
    ensures p.events == old(p.events) + ManualScopeBegins(f, scopesOn, name, data, dispatcher.current, spanId)
    ensures g.Ends() == ManualScopeEnds(f, scopesOn, dispatcher.current, spanId)
    ensures g.puffin.Some? ==> g.puffin.value !in old(p.puffinOpen)
    ensures g.superluminal.Some? ==> g.superluminal.value !in old(p.superluminalOpen)
    ensures g.tracy.Some? ==> g.tracy.value !in old(p.tracyOpen)
    ensures g.tracing.Some? ==> g.tracing.value !in old(p.tracingOpen)
    ensures g.puffin.Some? <==> Puffin in f && scopesOn
    ensures g.superluminal.Some? <==> Superluminal in f
    ensures g.tracy.Some? <==> Tracy in f
    ensures g.tracing.Some? <==> Tracing in f
    ensures p.puffinOpen == old(p.puffinOpen) + g.PuffinPart()
    ensures p.superluminalOpen == old(p.superluminalOpen) + g.SuperluminalPart()
    ensures p.tracyOpen == old(p.tracyOpen) + g.TracyPart()
    ensures p.tracingOpen == old(p.tracingOpen) + g.TracingPart()
  {
    ghost var log := p.events;
    var pu := OpenPuffin(p, f, scopesOn, name, data);
    var su := OpenSuperluminal(p, f, name, data);
    var ty := OpenTracy(p, f, name, data);
    var tr := OpenTracing(p, dispatcher, f, name, data, spanId);
    g := new Guard(pu, su, ty, tr);
    assert g.TracingEnds() == if Tracing in f && spanId.Some? then [Exit(dispatcher.current, spanId.value)] else [];
    AppendFour(log, PuffinBegins(f, scopesOn, name, data), SuperluminalBegins(f, name, data),
               TracyBegins(f, name, data), TracingBegins(f, dispatcher.current, spanId));
  }

  /** The channels a `manual_scope!` guard opens: puffin only when scopes
      are on, tracing only for a span with an id, and never optick. */
  function ManualScopeChannels(f: Features, scopesOn: bool, d: Dispatch, spanId: Option<nat>): set<Channel> {
    (if Puffin in f && scopesOn then {PuffinScopes} else {}) +
    (if Superluminal in f then {SuperluminalEvents} else {}) +
    (if Tracy in f then {TracyZones} else {}) +
    (if Tracing in f && spanId.Some? then {SpanOn(d, spanId.value)} else {})
  }

  lemma DepthOfFour(a: seq<Event>, b: seq<Event>, c: seq<Event>, e: seq<Event>, ch: Channel)
    ensures Depth(a + b + c + e, ch) == Depth(a, ch) + Depth(b, ch) + Depth(c, ch) + Depth(e, ch)
  {
    DepthAppend(a + b + c, e, ch);
    DepthAppend(a + b, c, ch);
    DepthAppend(a, b, ch);
  }

  lemma DepthSingle(e: Event, ch: Channel)
    ensures Depth([e], ch) == Delta(e, ch)
  {
    assert [e][..0] == [];
  }

  function Indicator(b: bool): int {
    if b then 1 else 0
  }

  lemma PuffinBalanced(f: Features, scopesOn: bool, name: string, data: Option<string>, ch: Channel)
    ensures Depth(PuffinBegins(f, scopesOn, name, data), ch) == Indicator(Puffin in f && scopesOn && ch == PuffinScopes)
    ensures Depth(if Puffin in f && scopesOn then [PuffinEnd] else [], ch) ==
      -Indicator(Puffin in f && scopesOn && ch == PuffinScopes)
  {
    DepthSingle(PuffinBegin(name, DataOrEmpty(data)), ch);
    DepthSingle(PuffinEnd, ch);
  }

  lemma SuperluminalBalanced(f: Features, name: string, data: Option<string>, ch: Channel)
    ensures Depth(SuperluminalBegins(f, name, data), ch) == Indicator(Superluminal in f && ch == SuperluminalEvents)
    ensures Depth(if Superluminal in f then [SuperluminalEnd] else [], ch) ==
      -Indicator(Superluminal in f && ch == SuperluminalEvents)
  {
    if data.Some? {
      DepthSingle(SuperluminalBeginWithData(name, data.value, DefaultSuperluminalColor), ch);
    }
    DepthSingle(SuperluminalBegin(name), ch);
    DepthSingle(SuperluminalEnd, ch);
  }

  lemma TracyBalanced(f: Features, name: string, data: Option<string>, ch: Channel)
    ensures Depth(TracyBegins(f, name, data), ch) == Indicator(Tracy in f && ch == TracyZones)
    ensures Depth(if Tracy in f then [TracyEnd] else [], ch) == -Indicator(Tracy in f && ch == TracyZones)
  {
    DepthSingle(TracyEnd, ch);
    if Tracy in f {
      DepthSingle(TracyBegin(name), ch);
      if data.Some? {
        assert TracyBegins(f, name, data) == [TracyBegin(name)] + [TracyText(data.value)];
        DepthSnoc([TracyBegin(name)], TracyText(data.value));
      } else {
        assert TracyBegins(f, name, data) == [TracyBegin(name)];
      }
    }
  }

  lemma TracingBalanced(f: Features, d: Dispatch, spanId: Option<nat>, ch: Channel)
    ensures Depth(TracingBegins(f, d, spanId), ch) == Indicator(Tracing in f && spanId.Some? && ch == SpanOn(d, spanId.value))
    ensures Depth(if Tracing in f && spanId.Some? then [Exit(d, spanId.value)] else [], ch) ==
      -Indicator(Tracing in f && spanId.Some? && ch == SpanOn(d, spanId.value))
  {
    if spanId.Some? {
      DepthSingle(Enter(d, spanId.value), ch);
      DepthSingle(Exit(d, spanId.value), ch);
    }
  }

  /** Membership in `ManualScopeChannels`, one backend at a time. */
  lemma ChannelsIndicator(f: Features, scopesOn: bool, d: Dispatch, spanId: Option<nat>, ch: Channel)
    ensures Indicator(ch in ManualScopeChannels(f, scopesOn, d, spanId)) ==
      Indicator(Puffin in f && scopesOn && ch == PuffinScopes) +
      Indicator(Superluminal in f && ch == SuperluminalEvents) +
      Indicator(Tracy in f && ch == TracyZones) +
      Indicator(Tracing in f && spanId.Some? && ch == SpanOn(d, spanId.value))
  {
  }

  /** The guard's begin calls open each of its channels once; no other
      channel is touched. */
  lemma ManualScopeBeginsOpen(f: Features, scopesOn: bool, name: string, data: Option<string>,
                              d: Dispatch, spanId: Option<nat>, ch: Channel)
    ensures Depth(ManualScopeBegins(f, scopesOn, name, data, d, spanId), ch) ==
      Indicator(ch in ManualScopeChannels(f, scopesOn, d, spanId))
  {
    PuffinBalanced(f, scopesOn, name, data, ch);
    SuperluminalBalanced(f, name, data, ch);
    TracyBalanced(f, name, data, ch);
    TracingBalanced(f, d, spanId, ch);
    DepthOfFour(PuffinBegins(f, scopesOn, name, data), SuperluminalBegins(f, name, data),
                TracyBegins(f, name, data), TracingBegins(f, d, spanId), ch);
    ChannelsIndicator(f, scopesOn, d, spanId, ch);
  }

  /** Dropping the guard closes each of those channels once. */
  lemma ManualScopeEndsClose(f: Features, scopesOn: bool, d: Dispatch, spanId: Option<nat>, ch: Channel)
    ensures Depth(ManualScopeEnds(f, scopesOn, d, spanId), ch) ==
      -Indicator(ch in ManualScopeChannels(f, scopesOn, d, spanId))
  {
    PuffinBalanced(f, scopesOn, "", None, ch);
    SuperluminalBalanced(f, "", None, ch);
    TracyBalanced(f, "", None, ch);
    TracingBalanced(f, d, spanId, ch);
    var a := if Puffin in f && scopesOn then [PuffinEnd] else [];
    var b := if Superluminal in f then [SuperluminalEnd] else [];
    var c := if Tracy in f then [TracyEnd] else [];
    var e := if Tracing in f && spanId.Some? then [Exit(d, spanId.value)] else [];
    assert ManualScopeEnds(f, scopesOn, d, spanId) == a + b + c + e;
    DepthOfFour(a, b, c, e, ch);
    ChannelsIndicator(f, scopesOn, d, spanId, ch);
  }

  /** Appending a guard's begins and then its ends leaves every channel at
      the depth it had. */
  lemma ManualScopeLeavesDepth(log: seq<Event>, f: Features, scopesOn: bool, name: string,
                               data: Option<string>, d: Dispatch, spanId: Option<nat>)
    ensures forall ch :: Depth(log + ManualScopeBegins(f, scopesOn, name, data, d, spanId) +
                                 ManualScopeEnds(f, scopesOn, d, spanId), ch) == Depth(log, ch)
  {
    var b := ManualScopeBegins(f, scopesOn, name, data, d, spanId);
    var e := ManualScopeEnds(f, scopesOn, d, spanId);
    forall ch ensures Depth(log + b + e, ch) == Depth(log, ch) {
      ManualScopeBeginsOpen(f, scopesOn, name, data, d, spanId, ch);
      ManualScopeEndsClose(f, scopesOn, d, spanId, ch);
      DepthAppend(log + b, e, ch);
      DepthAppend(log, b, ch);
    }
  }

  /** `manual_scope!(guard, name, data)` hands `data` to every backend that
      takes it: puffin's scope, superluminal's event (with the default
      color) and a text on tracy's span. */
  lemma ManualScopeForwardsData(f: Features, scopesOn: bool, name: string, data: string,
                                d: Dispatch, spanId: Option<nat>)
    ensures var b := ManualScopeBegins(f, scopesOn, name, Some(data), d, spanId);
      (PuffinBegin(name, data) in b <==> Puffin in f && scopesOn) &&
      (SuperluminalBeginWithData(name, data, DefaultSuperluminalColor) in b <==> Superluminal in f) &&
      (TracyText(data) in b <==> Tracy in f)
  {
    var pu := PuffinBegins(f, scopesOn, name, Some(data));
    var su := SuperluminalBegins(f, name, Some(data));
    var ty := TracyBegins(f, name, Some(data));
    var tr := TracingBegins(f, d, spanId);
    assert ManualScopeBegins(f, scopesOn, name, Some(data), d, spanId) == pu + su + ty + tr;
  }

  /** `manual_scope!(guard, name)` gives puffin the empty string as data and
      makes neither a superluminal call with data nor a tracy text. */
  lemma ManualScopeWithoutData(f: Features, scopesOn: bool, name: string, d: Dispatch, spanId: Option<nat>)
    ensures var b := ManualScopeBegins(f, scopesOn, name, None, d, spanId);
      forall i :: 0 <= i < |b| ==>
        !b[i].TracyText? && !b[i].SuperluminalBeginWithData? && (b[i].PuffinBegin? ==> b[i].data == "")
  {
    var pu := PuffinBegins(f, scopesOn, name, None);
    var su := SuperluminalBegins(f, name, None);
    var ty := TracyBegins(f, name, None);
    var tr := TracingBegins(f, d, spanId);
    var b := pu + su + ty + tr;
    assert ManualScopeBegins(f, scopesOn, name, None, d, spanId) == b;
    forall i | 0 <= i < |b|
      ensures !b[i].TracyText? && !b[i].SuperluminalBeginWithData? && (b[i].PuffinBegin? ==> b[i].data == "")
    {
      if i < |pu| {
        assert b[i] == pu[i];
      } else if i < |pu| + |su| {
        assert b[i] == su[i - |pu|];
      } else if i < |pu| + |su| + |ty| {
        assert b[i] == ty[i - |pu| - |su|];
      } else {
        assert b[i] == tr[i - |pu| - |su| - |ty|];
      }
    }
  }

  /** The guard has no optick field: enabling optick changes neither what
      `manual_scope!` begins nor what dropping its guard ends. */
  lemma ManualScopeIgnoresOptick(f: Features, scopesOn: bool, name: string, data: Option<string>,
                                 d: Dispatch, spanId: Option<nat>)
    ensures ManualScopeBegins(f + {Optick}, scopesOn, name, data, d, spanId) ==
      ManualScopeBegins(f - {Optick}, scopesOn, name, data, d, spanId)
    ensures ManualScopeEnds(f + {Optick}, scopesOn, d, spanId) == ManualScopeEnds(f - {Optick}, scopesOn, d, spanId)
    ensures ManualScopeChannels(f + {Optick}, scopesOn, d, spanId) == ManualScopeChannels(f - {Optick}, scopesOn, d, spanId)
  {
  }

  /** A `manual_scope!` guard made, held while the default subscriber may
      change, then dropped: the log gains the guard's begins and then its
      ends on the subscriber captured at the start, every channel returns to
      the depth it had, and the set of live guards is as before. */
  method ManualScopeRegion(p: Profiler, dispatcher: Dispatcher, f: Features, scopesOn: bool,
                           name: string, data: Option<string>, spanId: Option<nat>,
                           newDefault: Option<Dispatch>)
    requires p.Valid()
    modifies p, dispatcher
    ensures p.Valid()
    ensures p.events == old(p.events) +
      ManualScopeBegins(f, scopesOn, name, data, old(dispatcher.current), spanId) +
      ManualScopeEnds(f, scopesOn, old(dispatcher.current), spanId)
    ensures forall ch :: Depth(p.events, ch) == Depth(old(p.events), ch)
    ensures p.puffinOpen == old(p.puffinOpen) && p.superluminalOpen == old(p.superluminalOpen)
    ensures p.tracyOpen == old(p.tracyOpen) && p.tracingOpen == old(p.tracingOpen)
  {
    ghost var d := dispatcher.current;
    var g := ManualScope(p, dispatcher, f, scopesOn, name, data, spanId);
    if newDefault.Some? {
      dispatcher.SetDefault(newDefault.value);
    }
    g.Drop(p);
    ManualScopeLeavesDepth(old(p.events), f, scopesOn, name, data, d, spanId);
  }
}
