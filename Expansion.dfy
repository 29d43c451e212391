/** How a `macro_rules!` body made of `#[cfg(feature = "...")]`-gated lines
    expands: each backend contributes its own lines (its "arm") when its
    feature is enabled and nothing otherwise, and the arms appear in the order
    the macro lists them. The lemmas here hold for every macro of that shape;
    the per-macro modules instantiate them. */
module Expansion {
  import opened Syntax

  /** The expansion of a macro whose arms are listed in `order`. */
  function Expand(order: seq<Backend>, f: Features, arm: Backend -> Block): (r: Block)
  {
    if order == [] then []
    else (if order[0] in f then arm(order[0]) else []) + Expand(order[1..], f, arm)
  }

  /** The backends of `order` that are enabled, in that order. */
  function Enabled(order: seq<Backend>, f: Features): (r: seq<Backend>)
    ensures forall b :: b in r <==> b in order && b in f
  {
    if order == [] then []
    else (if order[0] in f then [order[0]] else []) + Enabled(order[1..], f)
  }

  /** The backends an order lists. */
  function Members(order: seq<Backend>): (r: set<Backend>)
    ensures forall b :: b in r <==> b in order
  {
    if order == [] then {} else {order[0]} + Members(order[1..])
  }

  predicate Distinct(order: seq<Backend>) {
    forall i, j :: 0 <= i < j < |order| ==> order[i] != order[j]
  }

  function Count(ss: seq<Stmt>, p: Stmt -> bool): (r: nat) {
    if ss == [] then 0 else (if p(ss[0]) then 1 else 0) + Count(ss[1..], p)
  }

  /** The statements of `ss` that call into backend `b`. */
  function Project(ss: seq<Stmt>, b: Backend): (r: seq<Stmt>) {
    if ss == [] then []
    else (if StmtOwner(ss[0]) == Some(b) then [ss[0]] else []) + Project(ss[1..], b)
  }

  function FlatMap(ss: seq<Stmt>, h: Stmt -> seq<Stmt>): (r: seq<Stmt>) {
    if ss == [] then [] else h(ss[0]) + FlatMap(ss[1..], h)
  }

  /** Every statement of `arm(b)` belongs to backend `b`. */
  ghost predicate Owned(order: seq<Backend>, arm: Backend -> Block) {
    forall b, i :: b in order && 0 <= i < |arm(b)| ==> StmtOwner(arm(b)[i]) == Some(b)
  }

  lemma {:induction false} CountAppend(a: seq<Stmt>, b: seq<Stmt>, p: Stmt -> bool)
    ensures Count(a + b, p) == Count(a, p) + Count(b, p)
  {
    if a == [] {
      assert a + b == b;
    } else {
      assert (a + b)[0] == a[0] && (a + b)[1..] == a[1..] + b;
      CountAppend(a[1..], b, p);
    }
  }

  lemma {:induction false} CountAlways(ss: seq<Stmt>)
    ensures Count(ss, Always) == |ss|
  {
    if ss != [] {
      CountAlways(ss[1..]);
    }
  }

  lemma CountPair(a: Stmt, b: Stmt, p: Stmt -> bool)
    ensures Count([a, b], p) == (if p(a) then 1 else 0) + (if p(b) then 1 else 0)
  {
    assert [a, b][1..] == [b];
    assert [b][1..] == [];
    assert Count([b], p) == (if p(b) then 1 else 0) + Count([], p);
    assert Count([a, b], p) == (if p(a) then 1 else 0) + Count([b], p);
  }

  lemma FlatMapPair(a: Stmt, b: Stmt, h: Stmt -> seq<Stmt>)
    ensures FlatMap([a, b], h) == h(a) + h(b)
  {
    assert [a, b][1..] == [b];
    assert [b][1..] == [];
    assert FlatMap([b], h) == h(b) + FlatMap([], h) == h(b);
    assert FlatMap([a, b], h) == h(a) + FlatMap([b], h);
  }

  lemma {:induction false} ProjectAppend(a: seq<Stmt>, c: seq<Stmt>, b: Backend)
    ensures Project(a + c, b) == Project(a, b) + Project(c, b)
  {
    if a == [] {
      assert a + c == c;
    } else {
      assert (a + c)[0] == a[0] && (a + c)[1..] == a[1..] + c;
      ProjectAppend(a[1..], c, b);
    }
  }

  /** Projecting statements that all belong to `c` onto `b` keeps all of them
      or none of them. */
  lemma {:induction false} ProjectOwnedBy(ss: seq<Stmt>, c: Backend, b: Backend)
    requires forall i :: 0 <= i < |ss| ==> StmtOwner(ss[i]) == Some(c)
    ensures Project(ss, b) == if c == b then ss else []
  {
    if ss != [] {
      ProjectOwnedBy(ss[1..], c, b);
      assert ss == [ss[0]] + ss[1..];
    }
  }

  lemma {:induction false} FlatMapAppend(a: seq<Stmt>, c: seq<Stmt>, h: Stmt -> seq<Stmt>)
    ensures FlatMap(a + c, h) == FlatMap(a, h) + FlatMap(c, h)
  {
    if a == [] {
      assert a + c == c;
    } else {
      assert (a + c)[0] == a[0] && (a + c)[1..] == a[1..] + c;
      FlatMapAppend(a[1..], c, h);
    }
  }

  /** The expansion is empty exactly when every enabled backend's arm is. */
  lemma {:induction false} ExpandEmptyIff(order: seq<Backend>, f: Features, arm: Backend -> Block)
    ensures Expand(order, f, arm) == [] <==> forall b :: b in order && b in f ==> arm(b) == []
  {
    if order != [] {
      ExpandEmptyIff(order[1..], f, arm);
      assert forall b :: b in order <==> b == order[0] || b in order[1..];
    }
  }

  /** Two arm functions that agree on the enabled backends expand alike. */
  lemma {:induction false} ExpandCongruent(order: seq<Backend>, f: Features, arm1: Backend -> Block, arm2: Backend -> Block)
    requires forall b :: b in order && b in f ==> arm1(b) == arm2(b)
    ensures Expand(order, f, arm1) == Expand(order, f, arm2)
  {
    if order != [] {
      ExpandCongruent(order[1..], f, arm1, arm2);
    }
  }

  /** Enabling a backend whose arm is empty changes nothing, so the expansion
      only depends on the enabled backends that have an arm. */
  lemma {:induction false} ExpandRestrict(order: seq<Backend>, f: Features, g: Features, arm: Backend -> Block)
    requires forall b :: b in order && b in f && b !in g ==> arm(b) == []
    ensures Expand(order, f, arm) == Expand(order, f * g, arm)
  {
    if order != [] {
      ExpandRestrict(order[1..], f, g, arm);
    }
  }

  /** Per-statement rewriting commutes with the expansion. */
  lemma {:induction false} ExpandFlatMap(order: seq<Backend>, f: Features, arm1: Backend -> Block,
                                         arm2: Backend -> Block, h: Stmt -> seq<Stmt>)
    requires forall b :: b in order && b in f ==> arm2(b) == FlatMap(arm1(b), h)
    ensures FlatMap(Expand(order, f, arm1), h) == Expand(order, f, arm2)
  {
    if order != [] {
      var head := if order[0] in f then arm1(order[0]) else [];
      FlatMapAppend(head, Expand(order[1..], f, arm1), h);
      ExpandFlatMap(order[1..], f, arm1, arm2, h);
    }
  }

  /** A property of every statement of every enabled arm holds of every
      statement of the expansion. */
  lemma {:induction false} ExpandAll(order: seq<Backend>, f: Features, arm: Backend -> Block, p: Stmt -> bool)
    requires forall b, i :: b in order && b in f && 0 <= i < |arm(b)| ==> p(arm(b)[i])
    ensures forall i :: 0 <= i < |Expand(order, f, arm)| ==> p(Expand(order, f, arm)[i])
  {
    if order != [] {
      ExpandAll(order[1..], f, arm, p);
      var head := if order[0] in f then arm(order[0]) else [];
      var rest := Expand(order[1..], f, arm);
      assert Expand(order, f, arm) == head + rest;
      forall i | 0 <= i < |head + rest| ensures p((head + rest)[i]) {
        if i < |head| {
          assert (head + rest)[i] == head[i];
        } else {
          assert (head + rest)[i] == rest[i - |head|];
        }
      }
    }
  }

  /** `rank` strictly increases along `order`. */
  predicate Increasing(order: seq<Backend>, rank: Backend -> int) {
    forall i, j :: 0 <= i < j < |order| ==> rank(order[i]) < rank(order[j])
  }

  /** Of any two statements of `e`, both call into a backend and the earlier
      one's backend has the lower or equal rank. */
  predicate SortedBy(e: seq<Stmt>, rank: Backend -> int) {
    forall i, j :: 0 <= i < j < |e| ==>
      StmtOwner(e[i]).Some? && StmtOwner(e[j]).Some? && rank(StmtOwner(e[i]).value) <= rank(StmtOwner(e[j]).value)
  }

  /** Order: when every arm belongs to its backend and `rank` increases
      along `order`, the statements of the expansion come in non-decreasing
      rank of their backend. */
  lemma {:induction false} ExpandSorted(order: seq<Backend>, f: Features, arm: Backend -> Block, rank: Backend -> int)
    requires Owned(order, arm) && Increasing(order, rank)
    ensures SortedBy(Expand(order, f, arm), rank)
  {
    if order != [] {
      var c := order[0];
      var tail := order[1..];
      var head := if c in f then arm(c) else [];
      var rest := Expand(tail, f, arm);
      assert c in order;
      assert Owned(tail, arm);
      assert Increasing(tail, rank) by {
        forall i, j | 0 <= i < j < |tail| ensures rank(tail[i]) < rank(tail[j]) {
          assert tail[i] == order[i + 1] && tail[j] == order[j + 1];
        }
      }
      ExpandSorted(tail, f, arm, rank);
      var later := (s: Stmt) => StmtOwner(s).Some? && rank(StmtOwner(s).value) > rank(c);
      forall b, i | b in tail && b in f && 0 <= i < |arm(b)| ensures later(arm(b)[i]) {
        var k :| 0 <= k < |tail| && tail[k] == b;
        assert order[k + 1] == b;
      }
      ExpandAll(tail, f, arm, later);
      var e := head + rest;
      assert Expand(order, f, arm) == e;
      forall i, j | 0 <= i < j < |e|
        ensures StmtOwner(e[i]).Some? && StmtOwner(e[j]).Some? && rank(StmtOwner(e[i]).value) <= rank(StmtOwner(e[j]).value)
      {
        if j < |head| {
          assert e[i] == head[i] && e[j] == head[j];
          assert StmtOwner(arm(c)[i]) == Some(c) && StmtOwner(arm(c)[j]) == Some(c);
        } else if i < |head| {
          assert e[i] == head[i] && e[j] == rest[j - |head|];
          assert StmtOwner(arm(c)[i]) == Some(c) && later(rest[j - |head|]);
        } else {
          var i', j' := i - |head|, j - |head|;
          assert e[i] == rest[i'] && e[j] == rest[j'] && 0 <= i' < j' < |rest|;
          assert SortedBy(rest, rank);
        }
      }
    }
  }

  /** Counting: when every enabled arm holds exactly one statement with
      property `p`, the expansion holds one per enabled backend. */
  lemma {:induction false} ExpandCount(order: seq<Backend>, f: Features, arm: Backend -> Block, p: Stmt -> bool)
    requires forall b :: b in order && b in f ==> Count(arm(b), p) == 1
    ensures Count(Expand(order, f, arm), p) == |Enabled(order, f)|
  {
    if order != [] {
      var head := if order[0] in f then arm(order[0]) else [];
      CountAppend(head, Expand(order[1..], f, arm), p);
      ExpandCount(order[1..], f, arm, p);
    }
  }

  /** Projection: in the expansion, backend `b`'s statements are exactly its
      arm when it is enabled, and there are none when it is not. */
  lemma {:induction false} ExpandProject(order: seq<Backend>, f: Features, arm: Backend -> Block, b: Backend)
    requires Distinct(order) && Owned(order, arm)
    ensures Project(Expand(order, f, arm), b) == if b in order && b in f then arm(b) else []
  {
    if order != [] {
      var c := order[0];
      var head := if c in f then arm(c) else [];
      assert Distinct(order[1..]) by {
        forall i, j | 0 <= i < j < |order[1..]| ensures order[1..][i] != order[1..][j] {
          assert order[1..][i] == order[i + 1] && order[1..][j] == order[j + 1];
        }
      }
      assert Owned(order[1..], arm);
      ProjectAppend(head, Expand(order[1..], f, arm), b);
      ExpandProject(order[1..], f, arm, b);
      ProjectOwnedBy(head, c, b);
      assert b in order <==> b == c || b in order[1..];
      if b == c {
        assert b !in order[1..] by {
          forall j | 0 <= j < |order[1..]| ensures order[1..][j] != b {
            assert order[1..][j] == order[j + 1];
          }
        }
      }
    }
  }

  /** When exactly one backend of a duplicate-free order is enabled, the
      expansion is that backend's arm. */
  lemma {:induction false} ExpandSingle(order: seq<Backend>, b: Backend, arm: Backend -> Block)
    requires Distinct(order) && b in order
    ensures Expand(order, {b}, arm) == arm(b)
  {
    ExpandEmptyIff(order[1..], {b}, arm);
    if order[0] != b {
      assert Distinct(order[1..]) by {
        forall i, j | 0 <= i < j < |order[1..]| ensures order[1..][i] != order[1..][j] {
          assert order[1..][i] == order[i + 1] && order[1..][j] == order[j + 1];
        }
      }
      ExpandSingle(order[1..], b, arm);
    } else {
      assert b !in order[1..] by {
        forall j | 0 <= j < |order[1..]| ensures order[1..][j] != b {
          assert order[1..][j] == order[j + 1];
        }
      }
    }
  }

  lemma DistinctTail(order: seq<Backend>)
    requires Distinct(order) && order != []
    ensures Distinct(order[1..]) && order[0] !in Members(order[1..])
  {
    var rest := order[1..];
    forall i, j | 0 <= i < j < |rest| ensures rest[i] != rest[j] {
      assert rest[i] == order[i + 1] && rest[j] == order[j + 1];
    }
    forall j | 0 <= j < |rest| ensures rest[j] != order[0] {
      assert rest[j] == order[j + 1];
    }
  }

  lemma CardInsert(f: Features, x: Backend, s: set<Backend>)
    requires x !in s
    ensures |f * ({x} + s)| == |f * s| + (if x in f then 1 else 0)
  {
    if x in f {
      assert f * ({x} + s) == {x} + f * s;
    } else {
      assert f * ({x} + s) == f * s;
    }
  }

  /** In a duplicate-free order, the number of enabled backends is the size
      of the enabled part of the feature set. */
  lemma {:induction false} EnabledCard(order: seq<Backend>, f: Features)
    requires Distinct(order)
    ensures |Enabled(order, f)| == |f * Members(order)|
  {
    if order != [] {
      DistinctTail(order);
      EnabledCard(order[1..], f);
      CardInsert(f, order[0], Members(order[1..]));
    }
  }

  /** Every order that lists all five backends once enables exactly `|f|` of them. */
  lemma AllEnabledCard(order: seq<Backend>, f: Features)
    requires Distinct(order)
    requires Puffin in order && Optick in order && Superluminal in order && Tracy in order && Tracing in order
    ensures |Enabled(order, f)| == |f|
  {
    EnabledCard(order, f);
    assert f * Members(order) == f by {
      forall b | b in f ensures b in order {
        match b
        case Puffin =>
        case Optick =>
        case Superluminal =>
        case Tracy =>
        case Tracing =>
      }
    }
  }

  /** Enabling a backend none of whose lines satisfies `p` leaves the number
      of such lines in the expansion unchanged. */
  lemma {:induction false} ExpandCountIgnores(order: seq<Backend>, f: Features, g: Features,
                                              arm: Backend -> Block, p: Stmt -> bool)
    requires forall b :: b in order && b in f && b !in g ==> Count(arm(b), p) == 0
    ensures Count(Expand(order, f, arm), p) == Count(Expand(order, f * g, arm), p)
  {
    if order != [] {
      var c := order[0];
      var head := if c in f then arm(c) else [];
      var headG := if c in f * g then arm(c) else [];
      CountAppend(head, Expand(order[1..], f, arm), p);
      CountAppend(headG, Expand(order[1..], f * g, arm), p);
      ExpandCountIgnores(order[1..], f, g, arm, p);
    }
  }

  /** When only the backends of `g` have lines satisfying `p`, and each
      enabled one has exactly one, an expansion over an order listing all
      five backends once has `|f * g|` such lines. */
  lemma ExpandCountRestricted(order: seq<Backend>, f: Features, g: Features,
                              arm: Backend -> Block, p: Stmt -> bool)
    requires Distinct(order)
    requires Puffin in order && Optick in order && Superluminal in order && Tracy in order && Tracing in order
    requires forall b :: b in order && b in f && b !in g ==> Count(arm(b), p) == 0
    requires forall b :: b in order && b in f * g ==> Count(arm(b), p) == 1
    ensures Count(Expand(order, f, arm), p) == |f * g|
  {
    ExpandCountIgnores(order, f, g, arm, p);
    ExpandCount(order, f * g, arm, p);
    AllEnabledCard(order, f * g);
  }

  lemma SourceOrderDistinct()
    ensures Distinct(SourceOrder)
  {
  }

  /** A backend's position in `SourceOrder`. */
  function SourcePosition(b: Backend): (r: int)
    ensures 0 <= r < |SourceOrder| && SourceOrder[r] == b
  {
    match b
    case Puffin => 0
    case Optick => 1
    case Superluminal => 2
    case Tracy => 3
    case Tracing => 4
  }

  lemma SourceOrderRanked()
    ensures Increasing(SourceOrder, SourcePosition)
  {
    SourceOrderDistinct();
  }
}
