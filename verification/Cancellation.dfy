/** The cancellation cascade over synchronous children and the loop that repairs it
    (engine.py `cancel`, `_cancel_synchronous_children`; child_wait_dispatcher.py `_reconcile_cancellation`).

    The status column is kept apart from the other rows of `ChildTree.Tree`: it is the only one these steps write. */
module Cancellation {
  import opened Prelude
  import opened ChildTree
  import opened Paging

  type Statuses = map<Id, Status>

  datatype Edge = Edge(parent: Id, child: Id)

  /** Bindings to follow, by key. */
  type Edges = map<nat, Edge>

  // ---------------------------------------------------------------- trails

  predicate Live(s: Statuses, id: Id) { id in s && !Terminal(s[id]) }

  /** Bindings `p` lead down from `from` to `to`, through live invocations only. */
  ghost predicate Trail(e: Edges, s: Statuses, from: Id, p: seq<nat>, to: Id)
    decreases |p|
  {
    if p == [] then from == to
    else p[0] in e && e[p[0]].parent == from && Live(s, e[p[0]].child) && Trail(e, s, e[p[0]].child, p[1..], to)
  }

  ghost predicate Reaches(e: Edges, s: Statuses, from: Id, to: Id) {
    exists p :: p != [] && Trail(e, s, from, p, to)
  }

  lemma {:induction false} TrailJoins(e: Edges, s: Statuses, a: Id, p: seq<nat>, b: Id, q: seq<nat>, c: Id)
    requires Trail(e, s, a, p, b) && Trail(e, s, b, q, c)
    ensures Trail(e, s, a, p + q, c)
    decreases |p|
  {
    if p == [] {
      assert p + q == q;
    } else {
      TrailJoins(e, s, e[p[0]].child, p[1..], b, q, c);
      assert (p + q)[1..] == p[1..] + q;
    }
  }

  lemma ReachesJoins(e: Edges, s: Statuses, a: Id, b: Id, c: Id)
    requires Reaches(e, s, a, b) && Reaches(e, s, b, c)
    ensures Reaches(e, s, a, c)
  {
    var p :| p != [] && Trail(e, s, a, p, b);
    var q :| q != [] && Trail(e, s, b, q, c);
    TrailJoins(e, s, a, p, b, q, c);
    assert p + q != [];
  }

  lemma ReachesStep(e: Edges, s: Statuses, k: nat)
    requires k in e && Live(s, e[k].child)
    ensures Reaches(e, s, e[k].parent, e[k].child)
  {
    assert Trail(e, s, e[k].child, [k][1..], e[k].child);
    assert Trail(e, s, e[k].parent, [k], e[k].child);
  }

  // ---------------------------------------------------------------- cancelling some live invocations

  predicate Changed(s: Statuses, u: Statuses, i: Id) { i in s && i in u && s[i] != u[i] }

  /** `u` is `s` after cancelling some live invocations, and nothing else. */
  ghost predicate Quieter(s: Statuses, u: Statuses) {
    && s.Keys == u.Keys
    && forall i :: Changed(s, u, i) ==> Live(s, i) && u[i] == Cancelled
  }

  lemma QuieterJoins(s: Statuses, m: Statuses, u: Statuses)
    requires Quieter(s, m) && Quieter(m, u)
    ensures Quieter(s, u)
    ensures forall i :: Changed(s, u, i) <==> Changed(s, m, i) || Changed(m, u, i)
  {
    forall i ensures Changed(s, u, i) <==> Changed(s, m, i) || Changed(m, u, i) {
      assert Changed(s, m, i) ==> Live(s, i) && m[i] == Cancelled;
      assert Changed(m, u, i) ==> Live(m, i) && u[i] == Cancelled;
    }
  }

  /** A trail through what is still live was there before. */
  lemma {:induction false} TrailBefore(e: Edges, s: Statuses, u: Statuses, from: Id, p: seq<nat>, to: Id)
    requires Quieter(s, u) && Trail(e, u, from, p, to)
    ensures Trail(e, s, from, p, to)
    decreases |p|
  {
    if p != [] {
      assert !Changed(s, u, e[p[0]].child);
      TrailBefore(e, s, u, e[p[0]].child, p[1..], to);
    }
  }

  lemma ReachesBefore(e: Edges, s: Statuses, u: Statuses, from: Id, to: Id)
    requires Quieter(s, u) && Reaches(e, u, from, to)
    ensures Reaches(e, s, from, to)
  {
    var p :| p != [] && Trail(e, u, from, p, to);
    TrailBefore(e, s, u, from, p, to);
  }

  // ---------------------------------------------------------------- the cascade's specification

  /** Only `id` and what a live trail reaches from it has changed. */
  ghost predicate OnlyBelow(e: Edges, s: Statuses, u: Statuses, id: Id) {
    forall i :: Changed(s, u, i) ==> i == id || Reaches(e, s, id, i)
  }

  /** If the parent was cancelled, the child has ended. */
  predicate SweptAt(e: Edges, s: Statuses, u: Statuses, k: nat) {
    k in e && Changed(s, u, e[k].parent) ==> !Live(u, e[k].child)
  }

  ghost predicate Swept(e: Edges, s: Statuses, u: Statuses) {
    forall k :: SweptAt(e, s, u, k)
  }

  predicate EndedAt(e: Edges, u: Statuses, id: Id, k: nat) {
    k in e && e[k].parent == id ==> !Live(u, e[k].child)
  }

  /** The children of `id`, apart from those in `rows`, have ended. */
  ghost predicate Ended(e: Edges, u: Statuses, id: Id, rows: set<nat>) {
    forall k :: k !in rows ==> EndedAt(e, u, id, k)
  }

  /** A sweep below `id` that has still to visit the bindings in `rows`. */
  ghost predicate Sweeping(e: Edges, s: Statuses, u: Statuses, id: Id, rows: set<nat>) {
    Quieter(s, u) && OnlyBelow(e, s, u, id) && Swept(e, s, u) && Ended(e, u, id, rows)
  }

  ghost predicate Cascaded(e: Edges, s: Statuses, u: Statuses, id: Id) {
    Sweeping(e, s, u, id, {})
  }

  lemma {:induction false} TrailEnds(e: Edges, s: Statuses, u: Statuses, id: Id, from: Id, p: seq<nat>, to: Id)
    requires Cascaded(e, s, u, id) && p != [] && Trail(e, s, from, p, to) && (from == id || Changed(s, u, from))
    ensures Changed(s, u, to)
    decreases |p|
  {
    assert SweptAt(e, s, u, p[0]) && EndedAt(e, u, id, p[0]);
    if p[1..] != [] { TrailEnds(e, s, u, id, e[p[0]].child, p[1..], to); }
  }

  /** The cascade below `id` cancels exactly the invocations that live trails reach. */
  lemma CascadeExact(e: Edges, s: Statuses, u: Statuses, id: Id, i: Id)
    requires Cascaded(e, s, u, id) && i in s && i != id
    ensures u[i] == if Reaches(e, s, id, i) then Cancelled else s[i]
  {
    if Reaches(e, s, id, i) {
      var p :| p != [] && Trail(e, s, id, p, i);
      TrailEnds(e, s, u, id, id, p, i);
    } else {
      assert !Changed(s, u, i);
    }
  }

  predicate ClosedAt(e: Edges, s: Statuses, k: nat) {
    k in e && !Live(s, e[k].parent) ==> !Live(s, e[k].child)
  }

  /** Every ended invocation has only ended children. */
  ghost predicate Closed(e: Edges, s: Statuses) {
    forall k :: ClosedAt(e, s, k)
  }

  lemma ReachesFromLive(e: Edges, s: Statuses, id: Id, i: Id)
    requires Closed(e, s) && Reaches(e, s, id, i)
    ensures Live(s, id)
  {
    var p :| p != [] && Trail(e, s, id, p, i);
    assert ClosedAt(e, s, p[0]);
  }

  /** A cascade keeps the closure, and does nothing below an invocation that had ended. */
  lemma CascadeKeepsClosure(e: Edges, s: Statuses, u: Statuses, id: Id)
    requires Closed(e, s) && Cascaded(e, s, u, id)
    ensures Closed(e, u)
    ensures !Live(s, id) ==> u == s
  {
    forall k ensures ClosedAt(e, u, k) {
      assert ClosedAt(e, s, k) && SweptAt(e, s, u, k);
      if k in e {
        assert Changed(s, u, e[k].child) ==> !Live(u, e[k].child);
        assert Changed(s, u, e[k].parent) ==> Live(s, e[k].parent);
      }
    }
    if !Live(s, id) {
      forall i | i in s ensures u[i] == s[i] {
        if Changed(s, u, i) && i != id { ReachesFromLive(e, s, id, i); }
      }
    }
  }

  // ---------------------------------------------------------------- steps of a sweep

  /** Cancelling one live child of `id` and sweeping below it is one step of the sweep below `id`. */
  lemma SweptChild(e: Edges, s: Statuses, m: Statuses, u: Statuses, id: Id, rows: set<nat>, k: nat)
    requires Sweeping(e, s, m, id, rows) && k in e && e[k].parent == id
    requires Live(m, e[k].child) && Cascaded(e, m, u, e[k].child) && !Live(u, e[k].child)
    ensures Sweeping(e, s, u, id, rows - {k})
  {
    var c := e[k].child;
    QuieterJoins(s, m, u);
    assert !Changed(s, m, c);
    ReachesStep(e, s, k);
    forall i | Changed(s, u, i) ensures i == id || Reaches(e, s, id, i) {
      if !Changed(s, m, i) && i != c {
        ReachesBefore(e, s, m, c, i);
        ReachesJoins(e, s, id, c, i);
      }
    }
    forall l ensures SweptAt(e, s, u, l) && (l !in rows - {k} ==> EndedAt(e, u, id, l)) {
      assert SweptAt(e, s, m, l) && SweptAt(e, m, u, l);
      assert l !in rows ==> EndedAt(e, m, id, l);
      if l in e { assert Changed(m, u, e[l].child) ==> !Live(u, e[l].child); }
    }
  }

  /** A binding whose child has ended is one step of the sweep as it is. */
  lemma SkippedChild(e: Edges, s: Statuses, m: Statuses, id: Id, rows: set<nat>, k: nat)
    requires Sweeping(e, s, m, id, rows) && (k !in e || !Live(m, e[k].child))
    ensures Sweeping(e, s, m, id, rows - {k})
  {
    forall l | l !in rows - {k} ensures EndedAt(e, m, id, l) { assert l !in rows ==> EndedAt(e, m, id, l); }
  }

  /** Cancelling `id` itself comes before the sweep. */
  lemma CancelledFirst(e: Edges, s: Statuses, u: Statuses, id: Id)
    requires Live(s, id) && Cascaded(e, s[id := Cancelled], u, id)
    ensures Cascaded(e, s, u, id) && u[id] == Cancelled
  {
    var m := s[id := Cancelled];
    assert Quieter(s, m);
    QuieterJoins(s, m, u);
    assert !Changed(m, u, id);
    forall i | Changed(s, u, i) ensures i == id || Reaches(e, s, id, i) {
      if i != id {
        assert Changed(m, u, i);
        ReachesBefore(e, s, m, id, i);
      }
    }
    forall k ensures SweptAt(e, s, u, k) && EndedAt(e, u, id, k) {
      assert SweptAt(e, m, u, k) && EndedAt(e, u, id, k);
      if k in e { assert Changed(s, m, e[k].parent) ==> e[k].parent == id; }
    }
  }

  // ---------------------------------------------------------------- termination

  function LiveIds(s: Statuses): set<Id> { set i | i in s && Live(s, i) }

  lemma FewerLive(s: Statuses, u: Statuses)
    requires Quieter(s, u)
    ensures |LiveIds(u)| <= |LiveIds(s)|
    ensures forall i :: Changed(s, u, i) ==> |LiveIds(u)| < |LiveIds(s)|
  {
    forall i | i in LiveIds(u) ensures i in LiveIds(s) { assert !Changed(s, u, i); }
    Subset(LiveIds(u), LiveIds(s));
    forall i | Changed(s, u, i) ensures |LiveIds(u)| < |LiveIds(s)| {
      assert i in LiveIds(s) && i !in LiveIds(u);
      Subset(LiveIds(u), LiveIds(s) - {i});
    }
  }

  // ---------------------------------------------------------------- the edges of the child tables

  /** A binding with no queued job: the parent waits for this child. */
  predicate Sync(t: Tree, k: nat) { k in t.bindings && k !in t.detached }

  /** A synchronous binding that passes the control check under the stored parent. */
  predicate Follows(t: Tree, k: nat) {
    && Sync(t, k) && t.bindings[k].parent in t.invocations
    && ControlAccepts(t, k, t.bindings[k], t.bindings[k].parent, t.invocations[t.bindings[k].parent])
  }

  function SyncEdges(t: Tree): Edges {
    map k | k in t.bindings && Sync(t, k) :: Edge(t.bindings[k].parent, t.bindings[k].child)
  }

  function FollowedEdges(t: Tree): Edges {
    map k | k in t.bindings && Follows(t, k) :: Edge(t.bindings[k].parent, t.bindings[k].child)
  }

  /** On honest tables every synchronous binding is followed, so no cascade fails. */
  lemma AllFollowed(t: Tree)
    requires Inv(t)
    ensures FollowedEdges(t) == SyncEdges(t) && BadBindings(t) == map[]
  {
    forall k | Sync(t, k) ensures Follows(t, k) {
      assert Fine(t, OfBinding(k));
      ControlComplete(t, k, t.invocations[t.bindings[k].parent]);
    }
  }

  /** `id` is `top` or hangs below it by parent links. */
  ghost predicate Under(t: Tree, top: Id, id: Id) {
    exists n: nat :: Ancestor(t, id, n) == Some(top)
  }

  lemma {:induction false} TrailAbove(t: Tree, s: Statuses, k: nat, from: Id, p: seq<nat>, to: Id)
    requires Inv(t) && k in t.bindings && k in t.detached && from in t.invocations
    requires Trail(SyncEdges(t), s, from, p, to) && Under(t, t.bindings[k].child, to)
    ensures Under(t, t.bindings[k].child, from)
    decreases |p|
  {
    if p != [] {
      var top, c := t.bindings[k].child, t.bindings[p[0]].child;
      assert Fine(t, OfBinding(k)) && Fine(t, OfBinding(p[0]));
      TrailAbove(t, s, k, c, p[1..], to);
      var n: nat :| Ancestor(t, c, n) == Some(top);
      assert n != 0;
      assert Ancestor(t, from, n - 1) == Some(top);
    }
  }

  /** A detached child and everything below it outlives a cancellation anywhere outside it. */
  lemma DetachedUntouched(t: Tree, s: Statuses, u: Statuses, id: Id, k: nat, i: Id)
    requires Inv(t) && Cascaded(SyncEdges(t), s, u, id) && id in t.invocations && i in s
    requires k in t.bindings && k in t.detached && Under(t, t.bindings[k].child, i)
             && !Under(t, t.bindings[k].child, id)
    ensures u[i] == s[i]
  {
    if Reaches(SyncEdges(t), s, id, i) {
      var p :| p != [] && Trail(SyncEdges(t), s, id, p, i);
      TrailAbove(t, s, k, id, p, i);
    }
    assert Changed(s, u, i) ==> i == id || Reaches(SyncEdges(t), s, id, i);
  }

  /** Synchronous bindings that fail the control check, with their parents. */
  function BadBindings(t: Tree): map<nat, Id> {
    map k | k in t.bindings && Sync(t, k) && !Follows(t, k) :: t.bindings[k].parent
  }

  /** The sweep below `id` met a binding that fails the check, other than those in `rows`. */
  ghost predicate Failing(bad: map<nat, Id>, s: Statuses, u: Statuses, id: Id, rows: set<nat>) {
    exists k :: k in bad && k !in rows && (bad[k] == id || Changed(s, u, bad[k]))
  }

  lemma FailingHere(bad: map<nat, Id>, s: Statuses, u: Statuses, id: Id, rows: set<nat>, k: nat)
    requires k in bad && bad[k] == id
    ensures Failing(bad, s, u, id, rows - {k})
  {
  }

  lemma FailingElsewhere(bad: map<nat, Id>, s: Statuses, u: Statuses, id: Id, rows: set<nat>, k: nat)
    requires k !in bad
    ensures Failing(bad, s, u, id, rows - {k}) <==> Failing(bad, s, u, id, rows)
  {
  }

  lemma FailingJoins(bad: map<nat, Id>, s: Statuses, m: Statuses, u: Statuses, id: Id, c: Id, rows: set<nat>, k: nat)
    requires Quieter(s, m) && Quieter(m, u) && !Live(s, id) && Live(m, c) && !Live(u, c) && k !in bad
    requires forall l :: l in rows && l in bad ==> bad[l] == id
    ensures Failing(bad, s, u, id, rows - {k}) <==> Failing(bad, s, m, id, rows) || Failing(bad, m, u, c, {})
  {
    QuieterJoins(s, m, u);
    assert c in u && Changed(m, u, c) && !Changed(s, u, id) && !Changed(m, u, id);
    if Failing(bad, m, u, c, {}) {
      var l :| l in bad && (bad[l] == c || Changed(m, u, bad[l]));
      assert Changed(s, u, bad[l]);
    }
  }

  // ---------------------------------------------------------------- reconciliation

  /** Bindings of an ended parent whose child is still live. */
  function Broken(e: Edges, s: Statuses): set<nat> {
    set k | k in e && !Live(s, e[k].parent) && Live(s, e[k].child)
  }

  /** Some invocation in `own` that had ended reaches `i` by a live trail. */
  ghost predicate Orphaned(e: Edges, s: Statuses, own: set<Id>, i: Id) {
    exists j :: j in own && !Live(s, j) && Reaches(e, s, j, i)
  }

  /** Only orphaned invocations have been cancelled. */
  ghost predicate Repairing(e: Edges, s: Statuses, u: Statuses, own: set<Id>) {
    Quieter(s, u) && forall i :: Changed(s, u, i) ==> Orphaned(e, s, own, i)
  }

  lemma RepairingJoins(e: Edges, s: Statuses, m: Statuses, u: Statuses, own: set<Id>)
    requires Repairing(e, s, m, own) && Repairing(e, m, u, own)
    ensures Repairing(e, s, u, own)
  {
    QuieterJoins(s, m, u);
    forall i | Changed(s, u, i) ensures Orphaned(e, s, own, i) {
      if !Changed(s, m, i) {
        var j :| j in own && !Live(m, j) && Reaches(e, m, j, i);
        ReachesBefore(e, s, m, j, i);
        if Live(s, j) {
          assert Changed(s, m, j);
          var top :| top in own && !Live(s, top) && Reaches(e, s, top, j);
          ReachesJoins(e, s, top, j, i);
        }
      }
    }
  }

  lemma CascadeRepairs(e: Edges, s: Statuses, u: Statuses, own: set<Id>, id: Id)
    requires Cascaded(e, s, u, id) && id in own && !Live(s, id)
    ensures Repairing(e, s, u, own)
  {
    forall i | Changed(s, u, i) ensures Orphaned(e, s, own, i) {
      assert i != id;
    }
  }

  /** No binding leaves or enters `own`. */
  predicate Apart(e: Edges, own: set<Id>) {
    forall k :: k in e ==> (e[k].parent in own <==> e[k].child in own)
  }

  function Mine(e: Edges, own: set<Id>, keys: set<nat>): set<nat> {
    set k | k in keys && k in e && e[k].parent in own
  }

  lemma {:induction false} TrailRepaired(e: Edges, s: Statuses, u: Statuses, own: set<Id>, from: Id, p: seq<nat>,
                                         to: Id)
    requires Quieter(s, u) && Apart(e, own) && Mine(e, own, Broken(e, u)) == {}
    requires p != [] && Trail(e, s, from, p, to) && from in own && !Live(u, from)
    ensures Changed(s, u, to)
    decreases |p|
  {
    var c := e[p[0]].child;
    assert p[0] !in Mine(e, own, Broken(e, u));
    assert !Live(u, c);
    if p[1..] != [] { TrailRepaired(e, s, u, own, c, p[1..], to); }
  }

  /** Once nothing of `own` is broken, exactly the orphans have been cancelled. */
  lemma RepairExact(e: Edges, s: Statuses, u: Statuses, own: set<Id>, i: Id)
    requires Repairing(e, s, u, own) && Apart(e, own) && Mine(e, own, Broken(e, u)) == {} && i in s
    ensures u[i] == if Orphaned(e, s, own, i) then Cancelled else s[i]
  {
    if Orphaned(e, s, own, i) {
      var j :| j in own && !Live(s, j) && Reaches(e, s, j, i);
      var p :| p != [] && Trail(e, s, j, p, i);
      assert Changed(s, u, j) ==> Live(s, j);
      TrailRepaired(e, s, u, own, j, p, i);
    } else {
      assert !Changed(s, u, i);
    }
  }

  function OfEngine(t: Tree, engine: string): set<Id> {
    set i | i in t.invocations && t.invocations[i].engine == engine
  }

  lemma EnginesApart(t: Tree, engine: string)
    requires Inv(t)
    ensures Apart(SyncEdges(t), OfEngine(t, engine))
  {
    forall k | Sync(t, k)
      ensures t.bindings[k].parent in OfEngine(t, engine) <==> t.bindings[k].child in OfEngine(t, engine)
    {
      assert Fine(t, OfBinding(k));
    }
  }

  /** The tables are closed exactly when no engine's share of them is broken. */
  lemma ClosedByEngines(t: Tree, s: Statuses)
    requires Inv(t)
    ensures Closed(SyncEdges(t), s) <==>
            forall engine :: Mine(SyncEdges(t), OfEngine(t, engine), Broken(SyncEdges(t), s)) == {}
  {
    var e := SyncEdges(t);
    if forall engine :: Mine(e, OfEngine(t, engine), Broken(e, s)) == {} {
      forall k ensures ClosedAt(e, s, k) {
        if k in e {
          assert Fine(t, OfBinding(k));
          var engine := t.invocations[e[k].parent].engine;
          assert k !in Mine(e, OfEngine(t, engine), Broken(e, s));
        }
      }
    } else {
      var engine :| Mine(e, OfEngine(t, engine), Broken(e, s)) != {};
      var k :| k in Mine(e, OfEngine(t, engine), Broken(e, s));
      assert !ClosedAt(e, s, k);
    }
  }

  lemma {:induction false} TrailStaysApart(e: Edges, s: Statuses, own: set<Id>, from: Id, p: seq<nat>, to: Id)
    requires Apart(e, own) && Trail(e, s, from, p, to) && from in own
    ensures to in own
    decreases |p|
  {
    if p != [] { TrailStaysApart(e, s, own, e[p[0]].child, p[1..], to); }
  }

  /** One engine's repair neither breaks nor mends another's share, so the repairs may run in any order: after each
      engine's own, the tables are closed. */
  lemma RepairsApart(t: Tree, s: Statuses, u: Statuses, engine: string, other: string)
    requires Inv(t) && Repairing(SyncEdges(t), s, u, OfEngine(t, engine)) && engine != other
    ensures
      var e, own := SyncEdges(t), OfEngine(t, other);
      Mine(e, own, Broken(e, u)) == Mine(e, own, Broken(e, s))
  {
    var e := SyncEdges(t);
    EnginesApart(t, engine);
    EnginesApart(t, other);
    forall i | Changed(s, u, i) ensures i in OfEngine(t, engine) {
      var j :| j in OfEngine(t, engine) && !Live(s, j) && Reaches(e, s, j, i);
      var p :| p != [] && Trail(e, s, j, p, i);
      TrailStaysApart(e, s, OfEngine(t, engine), j, p, i);
    }
    forall k | k in e && e[k].parent in OfEngine(t, other)
      ensures k in Broken(e, u) <==> k in Broken(e, s)
    {
      assert !Changed(s, u, e[k].parent) && !Changed(s, u, e[k].child);
    }
  }

  /** How far the repair still has to go; a round that finds nothing of its own moves the cursor on. */
  function Turn(mine: set<nat>, cursor: Option<nat>): nat { if Above(mine, cursor) != {} then 0 else 1 }

  lemma RoundProgress(e: Edges, s: Statuses, u: Statuses, own: set<Id>, before: Option<nat>, after: Option<nat>,
                      page: seq<nat>)
    requires IsPage(Above(Broken(e, s), before), 128, page) && Mine(e, own, Broken(e, s)) != {}
    requires after == if page == [] then None else Some(page[|page| - 1])
    requires Visited(e, s, u, own, page, |page|)
    ensures
      || |LiveIds(u)| < |LiveIds(s)|
      || (|LiveIds(u)| == |LiveIds(s)|
          && Turn(Mine(e, own, Broken(e, u)), after) < Turn(Mine(e, own, Broken(e, s)), before))
      || (|LiveIds(u)| == |LiveIds(s)|
          && Turn(Mine(e, own, Broken(e, u)), after) == Turn(Mine(e, own, Broken(e, s)), before)
          && |Above(e.Keys, after)| < |Above(e.Keys, before)|)
  {
    var mine := Mine(e, own, Broken(e, s));
    if j :| 0 <= j < |page| && e[page[j]].parent in own {
      FewerLive(s, u);
      assert Changed(s, u, e[page[j]].child);
    } else if page == [] {
      var k :| k in mine;
      assert k in Above(mine, None);
      assert Above(mine, before) <= Above(Broken(e, s), before);
    } else {
      var last := page[|page| - 1];
      assert last in Above(e.Keys, before) && last !in Above(e.Keys, after);
      Subset(Above(e.Keys, after), Above(e.Keys, before) - {last});
      if k :| k in Above(mine, before) {
        assert k in Above(Broken(e, s), before) && k !in page;
        assert k in Above(mine, after);
      }
    }
  }

  /** The first `n` bindings of a page have been dealt with. */
  ghost predicate Visited(e: Edges, s: Statuses, u: Statuses, own: set<Id>, page: seq<nat>, n: nat)
    requires n <= |page|
  {
    && Repairing(e, s, u, own)
    && (forall j :: 0 <= j < n && page[j] in e && e[page[j]].parent in own ==> !Live(u, e[page[j]].child))
    && ((forall j :: 0 <= j < n && page[j] in e ==> e[page[j]].parent !in own) ==> u == s)
  }

  lemma VisitedStep(e: Edges, s: Statuses, m: Statuses, u: Statuses, own: set<Id>, page: seq<nat>, n: nat)
    requires n < |page| && Visited(e, s, m, own, page, n) && page[n] in e
    requires !Live(s, e[page[n]].parent)
    requires if e[page[n]].parent in own then Cascaded(e, m, u, e[page[n]].parent) else u == m
    ensures Visited(e, s, u, own, page, n + 1)
  {
    var parent := e[page[n]].parent;
    if parent in own {
      assert !Changed(s, m, parent);
      CascadeRepairs(e, m, u, own, parent);
      RepairingJoins(e, s, m, u, own);
      assert EndedAt(e, u, parent, page[n]);
      StayEnded(m, u);
    }
  }

  lemma StayEnded(s: Statuses, u: Statuses)
    requires Quieter(s, u)
    ensures forall i :: Live(u, i) ==> Live(s, i)
  {
    forall i | Live(u, i) ensures Live(s, i) { assert !Changed(s, u, i); }
  }

  // ---------------------------------------------------------------- the engine

  class CancelEngine {
    const name: string
    const rows: Tree
    var status: Statuses
    /** Where the last reconciliation round stopped. */
    var cursor: Option<nat>

    ghost predicate Valid() reads this { status.Keys == rows.invocations.Keys }

    constructor (name: string, rows: Tree, status: Statuses)
      requires status.Keys == rows.invocations.Keys
      ensures this.name == name && this.rows == rows && this.status == status && cursor == None && Valid()
    {
      this.name, this.rows, this.status, cursor := name, rows, status, None;
    }

    /** Cancels `id`, if it is still live, and then its synchronous descendants. */
    method Cancel(id: Id) returns (failed: bool)
      requires Valid() && id in status
      modifies `status
      ensures Valid() && Cascaded(FollowedEdges(rows), old(status), status, id)
      ensures status[id] == if Live(old(status), id) then Cancelled else old(status)[id]
      ensures failed <==> Failing(BadBindings(rows), old(status), status, id, {})
      decreases 2 * |LiveIds(status)| + if Live(status, id) then -1 else 1
    {
      ghost var s, e := status, FollowedEdges(rows);
      if Terminal(status[id]) {
        failed := CancelSynchronousChildren(id);
        assert !Changed(s, status, id);
        return;
      }
      status := status[id := Cancelled];
      ghost var m := status;
      assert Quieter(s, m) && Changed(s, m, id);
      FewerLive(s, m);
      failed := CancelSynchronousChildren(id);
      CancelledFirst(e, s, status, id);
      QuieterJoins(s, m, status);
      assert forall i :: i != id ==> (Changed(s, status, i) <==> Changed(m, status, i));
    }

    /** Cancels the live children that `id` waits for; bindings that fail the control check are skipped and reported. */
    method CancelSynchronousChildren(id: Id) returns (failed: bool)
      requires Valid() && id in status && !Live(status, id)
      modifies `status
      ensures Valid() && Cascaded(FollowedEdges(rows), old(status), status, id)
      ensures failed <==> Failing(BadBindings(rows), old(status), status, id, {})
      decreases 2 * |LiveIds(status)|
    {
      ghost var s, e, bad := status, FollowedEdges(rows), BadBindings(rows);
      var keys := set k | k in rows.bindings && rows.bindings[k].parent == id && k !in rows.detached;
      failed := false;
      while keys != {}
        invariant Valid() && Sweeping(e, s, status, id, keys)
        invariant forall k :: k in keys ==> Sync(rows, k) && rows.bindings[k].parent == id
        invariant failed <==> Failing(bad, s, status, id, keys)
        decreases |keys|
      {
        ghost var m := status;
        var k :| k in keys;
        if !Follows(rows, k) {
          failed := true;
          SkippedChild(e, s, m, id, keys, k);
          FailingHere(bad, s, m, id, keys, k);
        } else if Terminal(status[rows.bindings[k].child]) {
          SkippedChild(e, s, m, id, keys, k);
          FailingElsewhere(bad, s, m, id, keys, k);
        } else {
          var child := rows.bindings[k].child;
          FewerLive(s, m);
          var below := Cancel(child);
          failed := failed || below;
          SweptChild(e, s, m, status, id, keys, k);
          FailingJoins(bad, s, m, status, id, child, keys, k);
        }
        keys := keys - {k};
      }
    }

    /** The cascade for one reported binding, unless another engine runs its parent. */
    method ReconcileBinding(k: nat)
      requires Valid() && Inv(rows) && k in SyncEdges(rows) && !Live(status, SyncEdges(rows)[k].parent)
      modifies `status
      ensures Valid()
      ensures if SyncEdges(rows)[k].parent in OfEngine(rows, name)
              then Cascaded(SyncEdges(rows), old(status), status, SyncEdges(rows)[k].parent)
              else status == old(status)
    {
      AllFollowed(rows);
      assert Fine(rows, OfBinding(k));
      var parent := rows.bindings[k].parent;
      if rows.invocations[parent].engine == name {
        var failed := CancelSynchronousChildren(parent);
      }
    }

    /** Deals with the reported bindings in turn, moving the cursor along. */
    method ReconcilePage(page: seq<nat>)
      requires Valid() && Inv(rows) && forall k :: k in page ==> k in Broken(SyncEdges(rows), status)
      modifies this
      ensures Valid()
      ensures cursor == if page == [] then old(cursor) else Some(page[|page| - 1])
      ensures Visited(SyncEdges(rows), old(status), status, OfEngine(rows, name), page, |page|)
    {
      ghost var e, own, s := SyncEdges(rows), OfEngine(rows, name), status;
      var i := 0;
      while i < |page|
        invariant 0 <= i <= |page| && Valid() && Visited(e, s, status, own, page, i)
        invariant cursor == if i == 0 then old(cursor) else Some(page[i - 1])
      {
        assert page[i] in Broken(e, s);
        ghost var m := status;
        cursor := Some(page[i]);
        StayEnded(s, m);
        ReconcileBinding(page[i]);
        VisitedStep(e, s, m, status, own, page, i);
        i := i + 1;
      }
    }

    /** One round: at most 128 broken bindings beyond the cursor, in key order; an empty page starts over. */
    method Reconcile() returns (page: seq<nat>)
      requires Valid() && Inv(rows)
      modifies this
      ensures Valid()
      ensures IsPage(Above(Broken(SyncEdges(rows), old(status)), old(cursor)), 128, page)
      ensures cursor == if page == [] then None else Some(page[|page| - 1])
      ensures Visited(SyncEdges(rows), old(status), status, OfEngine(rows, name), page, |page|)
    {
      page := SelectPage(Above(Broken(SyncEdges(rows), status), cursor), 128);
      if page == [] { cursor := None; }
      ReconcilePage(page);
    }

    /** Repeated rounds end, with every orphan of this engine cancelled and nothing else changed. */
    method Drain()
      requires Valid() && Inv(rows)
      modifies this
      ensures Valid()
      ensures Mine(SyncEdges(rows), OfEngine(rows, name), Broken(SyncEdges(rows), status)) == {}
      ensures forall i :: i in status ==>
                status[i] == if Orphaned(SyncEdges(rows), old(status), OfEngine(rows, name), i) then Cancelled
                             else old(status)[i]
    {
      var e, own := SyncEdges(rows), OfEngine(rows, name);
      ghost var s := status;
      EnginesApart(rows, name);
      while Mine(e, own, Broken(e, status)) != {}
        invariant Valid() && Repairing(e, s, status, own)
        decreases |LiveIds(status)|, Turn(Mine(e, own, Broken(e, status)), cursor), |Above(e.Keys, cursor)|
      {
        ghost var m, before := status, cursor;
        var page := Reconcile();
        RepairingJoins(e, s, m, status, own);
        RoundProgress(e, m, status, own, before, cursor, page);
        FewerLive(m, status);
      }
      forall i | i in status
        ensures status[i] == if Orphaned(e, s, own, i) then Cancelled else s[i]
      {
        RepairExact(e, s, status, own, i);
      }
    }
  }
}
