/**
 * The subsystem registration table that the engine's start-up routine declares:
 * every subsystem is registered under a name, with one list of names that must be
 * initialised before it and one list of names whose update must run before its own
 * in the same frame.  The scheduler that consumes the table is not part of this
 * model; what is stated here is what the table itself guarantees to any scheduler
 * that honours it.
 */
module Systems {
  import opened Wrappers

  /** One systems_add registration: which callbacks are present, and the two dependency lists. */
  datatype System = System(
    name: string,
    initDeps: seq<string>,
    updateDeps: seq<string>,
    hasInit: bool,
    hasUpdate: bool,
    hasShutdown: bool)

  /** The two orderings a subsystem takes part in. */
  datatype Relation = InitRelation | UpdateRelation

  function DepsOf(s: System, rel: Relation): seq<string>
  {
    match rel
    case InitRelation => s.initDeps
    case UpdateRelation => s.updateDeps
  }

  /** The registered names, in registration order. */
  function Names(t: seq<System>): (ns: seq<string>)
    ensures |ns| == |t|
    ensures forall i :: 0 <= i < |t| ==> ns[i] == t[i].name
  {
    if t == [] then [] else [t[0].name] + Names(t[1..])
  }

  /** A list that agrees with the registrations name by name is their list of names. */
  lemma NamesByIndex(t: seq<System>, o: seq<string>)
    requires |o| == |t| && forall i :: 0 <= i < |t| ==> t[i].name == o[i]
    ensures Names(t) == o
  {
  }

  /** The first registration carrying `name`, if any. */
  function Lookup(t: seq<System>, name: string): (r: Option<System>)
    ensures r.Some? ==> r.value in t && r.value.name == name
    ensures r.None? <==> name !in Names(t)
  {
    if t == [] then None
    else if t[0].name == name then Some(t[0])
    else Lookup(t[1..], name)
  }

  /** The names that `name` declares it must be ordered after; none for an unregistered name. */
  function Prerequisites(t: seq<System>, rel: Relation, name: string): seq<string>
  {
    match Lookup(t, name)
    case Some(s) => DepsOf(s, rel)
    case None => []
  }

  /** `a` must be ordered before `b` under `rel`: `b` lists `a` among its dependencies. */
  predicate Edge(t: seq<System>, rel: Relation, a: string, b: string)
  {
    a in Prerequisites(t, rel, b)
  }

  ghost predicate UniqueNames(t: seq<System>)
  {
    forall i, j :: 0 <= i < j < |t| ==> t[i].name != t[j].name
  }

  /** Every name mentioned in either dependency list of any registration is itself registered. */
  ghost predicate DepsRegistered(t: seq<System>)
  {
    forall s, rel, d :: s in t && d in DepsOf(s, rel) ==> d in Names(t)
  }

  /** A chain of names, each one a dependency of the next. */
  ghost predicate IsPath(t: seq<System>, rel: Relation, p: seq<string>)
  {
    |p| >= 1 && forall k :: 0 <= k < |p| - 1 ==> Edge(t, rel, p[k], p[k + 1])
  }

  /** No chain of dependencies leads from a name back to itself. */
  ghost predicate Acyclic(t: seq<System>, rel: Relation)
  {
    forall p :: IsPath(t, rel, p) && |p| >= 2 ==> p[0] != p[|p| - 1]
  }

  /** `order` lists every registered name exactly once. */
  ghost predicate IsOrderOf(order: seq<string>, t: seq<System>)
  {
    && |order| == |t|
    && (forall i, j :: 0 <= i < j < |order| ==> order[i] != order[j])
    && (forall n :: n in order <==> n in Names(t))
  }

  /** `order` is a schedule of the table that puts every dependency before its dependent. */
  ghost predicate Respects(order: seq<string>, t: seq<System>, rel: Relation)
  {
    && IsOrderOf(order, t)
    && forall i, j :: 0 <= i < |order| && 0 <= j < |order| && Edge(t, rel, order[i], order[j]) ==> i < j
  }

  /** Position of a name in an order. */
  function IndexIn(order: seq<string>, n: string): (k: nat)
    requires n in order
    ensures k < |order| && order[k] == n
    ensures forall i :: 0 <= i < k ==> order[i] != n
  {
    if order[0] == n then 0 else 1 + IndexIn(order[1..], n)
  }

  // ---------------------------------------------------------------------------
  // A schedule that respects a relation rules out every cycle in it.
  // ---------------------------------------------------------------------------

  /** Along a dependency chain, positions in a respecting order strictly increase. */
  lemma {:induction false} PathAscends(order: seq<string>, t: seq<System>, rel: Relation, p: seq<string>)
    requires IsPath(t, rel, p) && |p| >= 2
    requires Respects(order, t, rel) && p[0] in Names(t)
    ensures p[0] in order && p[|p| - 1] in order
    ensures IndexIn(order, p[0]) < IndexIn(order, p[|p| - 1])
  {
    EdgeAscends(order, t, rel, p[0], p[1]);
    if |p| > 2 {
      EdgeTargetRegistered(t, rel, p[0], p[1]);
      var q := p[1..];
      assert IsPath(t, rel, q) by {
        forall k | 0 <= k < |q| - 1 ensures Edge(t, rel, q[k], q[k + 1]) {
          assert q[k] == p[k + 1] && q[k + 1] == p[k + 2];
        }
      }
      PathAscends(order, t, rel, q);
    }
  }

  /** Only a registered name has dependencies, so the target of an edge is registered. */
  lemma EdgeTargetRegistered(t: seq<System>, rel: Relation, a: string, b: string)
    requires Edge(t, rel, a, b)
    ensures b in Names(t)
  {
  }

  /** A single dependency edge from a registered name goes forward in a respecting order. */
  lemma EdgeAscends(order: seq<string>, t: seq<System>, rel: Relation, a: string, b: string)
    requires Edge(t, rel, a, b) && a in order
    requires Respects(order, t, rel)
    ensures b in order
    ensures IndexIn(order, a) < IndexIn(order, b)
  {
    EdgeTargetRegistered(t, rel, a, b);
    var i, j := IndexIn(order, a), IndexIn(order, b);
    assert Edge(t, rel, order[i], order[j]);
  }

  /** Any table that admits a respecting schedule is acyclic in that relation. */
  lemma RespectingOrderImpliesAcyclic(order: seq<string>, t: seq<System>, rel: Relation)
    requires Respects(order, t, rel)
    ensures Acyclic(t, rel)
  {
    forall p | IsPath(t, rel, p) && |p| >= 2 ensures p[0] != p[|p| - 1] {
      if p[0] == p[|p| - 1] {
        // The last name of a cycle is the target of an edge, hence registered, and so is the first.
        EdgeTargetRegistered(t, rel, p[|p| - 2], p[|p| - 1]);
        PathAscends(order, t, rel, p);
      }
    }
  }

  /** An order of a table's names exists only when those names are unique. */
  lemma OrderImpliesUniqueNames(order: seq<string>, t: seq<System>)
    requires IsOrderOf(order, t)
    ensures UniqueNames(t)
  {
    if !UniqueNames(t) {
      var i, j :| 0 <= i < j < |t| && t[i].name == t[j].name;
      NamesShrink(order, Names(t), i, j);
      assert false;
    }
  }

  /** Pigeonhole: a duplicate-free list whose members all occur in a list with a repeat is shorter. */
  lemma {:induction false} NamesShrink(order: seq<string>, ns: seq<string>, i: nat, j: nat)
    requires i < j < |ns| && ns[i] == ns[j]
    requires forall a, b :: 0 <= a < b < |order| ==> order[a] != order[b]
    requires forall n :: n in order ==> n in ns
    ensures |order| < |ns|
  {
    var rest := ns[..j] + ns[j + 1..];
    assert forall n :: n in ns ==> n in rest by {
      forall n | n in ns ensures n in rest {
        var k :| 0 <= k < |ns| && ns[k] == n;
        if k < j { assert rest[k] == n; }
        else if k == j { assert rest[i] == n; }
        else { assert rest[k - 1] == n; }
      }
    }
    DistinctFitsIn(order, rest);
  }

  /** A duplicate-free list is no longer than any list that contains all its members. */
  lemma {:induction false} DistinctFitsIn(xs: seq<string>, ys: seq<string>)
    requires forall a, b :: 0 <= a < b < |xs| ==> xs[a] != xs[b]
    requires forall n :: n in xs ==> n in ys
    ensures |xs| <= |ys|
  {
    if xs != [] {
      var x := xs[|xs| - 1];
      var k := IndexIn(ys, x);
      var ys' := ys[..k] + ys[k + 1..];
      var xs' := xs[..|xs| - 1];
      forall n | n in xs' ensures n in ys' {
        var a :| 0 <= a < |xs'| && xs'[a] == n;
        assert xs[a] == n && n != x;
        var b := IndexIn(ys, n);
        if b < k { assert ys'[b] == n; } else { assert b != k; assert ys'[b - 1] == n; }
      }
      DistinctFitsIn(xs', ys');
    }
  }

  // ---------------------------------------------------------------------------
  // Checking a concrete order: number its names by position and show that every
  // dependency edge of the table climbs in that numbering.
  // ---------------------------------------------------------------------------

  /** `rank` gives each name of `o` its position, and every dependency has a smaller rank than its dependent. */
  ghost predicate RankedBy(o: seq<string>, t: seq<System>, rel: Relation, rank: string -> int)
  {
    && (forall i :: 0 <= i < |o| ==> rank(o[i]) == i)
    && (forall k, d :: 0 <= k < |t| && d in DepsOf(t[k], rel) ==> rank(d) < rank(t[k].name))
  }

  /** A ranking that every edge climbs certifies that the order respects the relation. */
  lemma RankedRespects(o: seq<string>, t: seq<System>, rel: Relation, rank: string -> int)
    requires IsOrderOf(o, t) && RankedBy(o, t, rel, rank)
    ensures Respects(o, t, rel)
  {
    forall i, j | 0 <= i < |o| && 0 <= j < |o| && Edge(t, rel, o[i], o[j]) ensures i < j {
      var s := Lookup(t, o[j]).value;
      var k :| 0 <= k < |t| && t[k] == s;
      assert o[i] in DepsOf(t[k], rel);
      assert rank(o[i]) < rank(o[j]);
    }
  }

  /** DepsRegistered, checked registration by registration. */
  lemma DepsRegisteredByIndex(t: seq<System>)
    requires forall k, d :: 0 <= k < |t| && d in t[k].initDeps ==> d in Names(t)
    requires forall k, d :: 0 <= k < |t| && d in t[k].updateDeps ==> d in Names(t)
    ensures DepsRegistered(t)
  {
    forall s, rel, d | s in t && d in DepsOf(s, rel) ensures d in Names(t) {
      var k :| 0 <= k < |t| && t[k] == s;
    }
  }

  /** With unique names, looking a registered name up finds its own registration. */
  lemma {:induction false} LookupFindsEntry(t: seq<System>, k: nat)
    requires UniqueNames(t) && k < |t|
    ensures Lookup(t, t[k].name) == Some(t[k])
  {
    if k > 0 {
      assert t[0].name != t[k].name;
      assert UniqueNames(t[1..]) by {
        forall i, j | 0 <= i < j < |t[1..]| ensures t[1..][i].name != t[1..][j].name {
          assert t[1..][i] == t[i + 1] && t[1..][j] == t[j + 1];
        }
      }
      LookupFindsEntry(t[1..], k - 1);
    }
  }

  /** A dependency a registration declares is an edge of the relation. */
  lemma DeclaredDepIsEdge(t: seq<System>, rel: Relation, k: nat, d: string)
    requires UniqueNames(t) && k < |t| && d in DepsOf(t[k], rel)
    ensures Edge(t, rel, d, t[k].name)
  {
    LookupFindsEntry(t, k);
  }

  /** One dependency placed after its dependent is enough to refute an order. */
  lemma BackwardEdgeRefutes(o: seq<string>, t: seq<System>, rel: Relation, i: nat, j: nat, a: string, b: string)
    requires j < i < |o| && o[i] == a && o[j] == b && Edge(t, rel, a, b)
    ensures !Respects(o, t, rel)
  {
  }
}
