/** Reconciling an invocation's recorded effects: the explicit-stack walk over child receipts
    (`EffectJournal.verify_invocation` in effects.py).

    The walk is stated over any tables at all, honest or not. */
module ReceiptWalk {
  import opened Prelude
  import opened Effects

  /** What the walk reads: the journal tables, the fingerprints of stored invocations, the verdict of the
      verifiers behind `get`, and the verdict of the three per-invocation secondary indexes. */
  datatype Db = Db(
    tables: Tables,
    invocations: map<InvocationId, Digest>,
    verified: Verifier,
    secondary: (InvocationId, Digest) -> bool)

  function RowsOf(db: Db, id: InvocationId): set<EffectIdentity> {
    set key | key in db.tables.index && db.tables.index[key].invocation == id
  }

  /** The child named by the receipt under `key`, if any. */
  function ChildOf(db: Db, key: EffectIdentity): Option<InvocationId> {
    match Get(db.tables, key, db.verified)
    case Ok(Some(receipt)) => if receipt.child.Some? then Some(receipt.child.value.invocation) else None
    case _ => None
  }

  /** Local checks on one indexed row: it agrees with its invocation and its receipt is readable and,
      if it names a child, that child is stored. */
  predicate RowOk(db: Db, id: InvocationId, fingerprint: Digest, key: EffectIdentity)
    requires key in db.tables.index
  {
    var row := db.tables.index[key];
    && row.payload == key
    && row.payload.invocation == id
    && row.payload.fingerprint == fingerprint
    && row.fingerprint == fingerprint
    && Get(db.tables, row.payload, db.verified).Ok?
    && Get(db.tables, row.payload, db.verified).value.Some?
    && (ChildOf(db, key).Some? ==> ChildOf(db, key).value in db.invocations)
  }

  ghost predicate LocallyOk(db: Db, id: InvocationId, fingerprint: Digest) {
    && (forall key :: key in RowsOf(db, id) ==> RowOk(db, id, fingerprint, key))
    && db.secondary(id, fingerprint)
  }

  // ---------------------------------------------------------------- the dependency graph

  /** A recorded dependency of `parent` on the outcome of the stored invocation `child`. */
  ghost predicate Edge(db: Db, parent: InvocationId, child: InvocationId) {
    child in db.invocations && exists key :: key in RowsOf(db, parent) && ChildOf(db, key) == Some(child)
  }

  ghost predicate Path(db: Db, p: seq<InvocationId>) {
    p != [] && forall i :: 0 <= i < |p| - 1 ==> Edge(db, p[i], p[i + 1])
  }

  ghost predicate Reaches(db: Db, from: InvocationId, to: InvocationId) {
    exists p :: Path(db, p) && p[0] == from && p[|p| - 1] == to
  }

  ghost predicate Cycle(db: Db, p: seq<InvocationId>) {
    Path(db, p) && |p| >= 2 && p[0] == p[|p| - 1]
  }

  ghost predicate CycleReachable(db: Db, root: InvocationId) {
    exists p :: Cycle(db, p) && Reaches(db, root, p[0])
  }

  /** The fingerprint the walk expects of an invocation: the caller's for the root, the stored one below. */
  function Expected(db: Db, root: InvocationId, fingerprint: Digest, id: InvocationId): Digest {
    if id != root && id in db.invocations then db.invocations[id] else fingerprint
  }

  /** What the walk is meant to decide. */
  ghost predicate Reconciled(db: Db, root: InvocationId, fingerprint: Digest) {
    && (forall id :: Reaches(db, root, id) ==> LocallyOk(db, id, Expected(db, root, fingerprint, id)))
    && !CycleReachable(db, root)
  }

  // ---------------------------------------------------------------- the walk's invariant

  datatype Frame = Frame(id: InvocationId, fingerprint: Digest, ancestors: seq<InvocationId>)

  /** The walk's white-path invariant. `path` is the chain of invocations still being explored and `done`
      lists the explored ones, each after everything it depends on. */
  ghost predicate Walking(db: Db, root: InvocationId, fingerprint: Digest,
                          pending: seq<Frame>, visited: set<InvocationId>,
                          path: seq<InvocationId>, done: seq<InvocationId>) {
    && visited == Elements(path) + Elements(done)
    && Elements(path) !! Elements(done)
    && Distinct(path) && Distinct(done)
    && (path != [] ==> Path(db, path) && path[0] == root)
    && (path == [] && done == [] ==> pending == [Frame(root, fingerprint, [])])
    && (path != [] || done != [] ==> root in visited)
    && Settled(db, done)
    && Stacked(db, root, fingerprint, pending, path)
    && AllCovered(db, pending, path, done)
    && (forall id :: id in visited ==> Reaches(db, root, id) && LocallyOk(db, id, Expected(db, root, fingerprint, id)))
  }

  function Elements(s: seq<InvocationId>): set<InvocationId> {
    set x | x in s
  }

  ghost predicate Distinct(s: seq<InvocationId>) {
    forall i, j :: 0 <= i < j < |s| ==> s[i] != s[j]
  }

  /** Every dependency of a listed invocation is listed before it. */
  ghost predicate Settled(db: Db, done: seq<InvocationId>) {
    forall j, child :: 0 <= j < |done| && Edge(db, done[j], child) ==> child in done[..j]
  }

  /** Every pending frame hangs off a prefix of the current path, the deeper prefixes on top. */
  ghost predicate Stacked(db: Db, root: InvocationId, fingerprint: Digest, pending: seq<Frame>,
                          path: seq<InvocationId>) {
    && (forall k :: 0 <= k < |pending| ==> FrameOk(db, root, fingerprint, pending[k]) && pending[k].ancestors <= path)
    && (forall k, l :: 0 <= k < l < |pending| ==> |pending[k].ancestors| <= |pending[l].ancestors|)
  }

  ghost predicate FrameOk(db: Db, root: InvocationId, fingerprint: Digest, f: Frame) {
    if f.ancestors == [] then f.id == root && f.fingerprint == fingerprint
    else Edge(db, f.ancestors[|f.ancestors| - 1], f.id) && f.fingerprint == db.invocations[f.id]
  }

  ghost predicate AllCovered(db: Db, pending: seq<Frame>, path: seq<InvocationId>, done: seq<InvocationId>) {
    forall i, child :: 0 <= i < |path| && Edge(db, path[i], child) ==> Covered(pending, path, done, i, child)
  }

  /** A dependency of path[i] is explored, being explored next on the path, or still pending below path[i]. */
  ghost predicate Covered(pending: seq<Frame>, path: seq<InvocationId>, done: seq<InvocationId>, i: int,
                          child: InvocationId)
    requires 0 <= i < |path|
  {
    || child in done
    || (i + 1 < |path| && path[i + 1] == child)
    || OnStack(pending, child, path[..i + 1])
  }

  ghost predicate OnStack(pending: seq<Frame>, id: InvocationId, ancestors: seq<InvocationId>) {
    exists k :: 0 <= k < |pending| && pending[k].id == id && pending[k].ancestors == ancestors
  }

  /** Exploration of path[keep..] is complete once nothing pending hangs below path[..keep]: the deepest
      invocation settles first. Returns the new list of settled invocations. */
  lemma {:induction false} Retire(db: Db, root: InvocationId, fingerprint: Digest, pending: seq<Frame>,
                                  visited: set<InvocationId>, path: seq<InvocationId>, done: seq<InvocationId>,
                                  keep: nat)
    returns (settled: seq<InvocationId>)
    requires Walking(db, root, fingerprint, pending, visited, path, done)
    requires keep <= |path|
    requires forall k :: 0 <= k < |pending| ==> |pending[k].ancestors| <= keep
    requires path != [] || done != []
    ensures Walking(db, root, fingerprint, pending, visited, path[..keep], settled)
    ensures path != [] || done != [] ==> settled != [] || keep > 0
    decreases |path|
  {
    if keep == |path| {
      settled := done;
      assert path[..keep] == path;
    } else {
      var last := |path| - 1;
      var shorter := path[..last];
      RetireLast(db, root, fingerprint, pending, visited, path, done);
      settled := Retire(db, root, fingerprint, pending, visited, shorter, done + [path[last]], keep);
      assert shorter[..keep] == path[..keep];
    }
  }

  lemma SettledGrows(db: Db, done: seq<InvocationId>, id: InvocationId)
    requires Settled(db, done) && forall child :: Edge(db, id, child) ==> child in done
    ensures Settled(db, done + [id])
  {
    var longer := done + [id];
    forall j, child | 0 <= j < |longer| && Edge(db, longer[j], child) ensures child in longer[..j] {
      assert longer[..j] == done[..j];
      assert done[..|done|] == done;
    }
  }

  lemma StackedShorter(db: Db, root: InvocationId, fingerprint: Digest, pending: seq<Frame>, path: seq<InvocationId>,
                       keep: nat)
    requires Stacked(db, root, fingerprint, pending, path) && keep <= |path|
    requires forall k :: 0 <= k < |pending| ==> |pending[k].ancestors| <= keep
    ensures Stacked(db, root, fingerprint, pending, path[..keep])
  {
    forall k | 0 <= k < |pending| ensures pending[k].ancestors <= path[..keep] {
      assert pending[k].ancestors == path[..|pending[k].ancestors|];
      assert pending[k].ancestors == path[..keep][..|pending[k].ancestors|];
    }
  }

  lemma CoveredShorter(pending: seq<Frame>, path: seq<InvocationId>, done: seq<InvocationId>, i: nat,
                       child: InvocationId)
    requires i + 1 < |path| && Covered(pending, path, done, i, child)
    ensures Covered(pending, path[..|path| - 1], done + [path[|path| - 1]], i, child)
  {
    assert path[..|path| - 1][..i + 1] == path[..i + 1];
  }

  lemma ElementsMove(path: seq<InvocationId>, done: seq<InvocationId>)
    requires path != []
    ensures
      var last := path[|path| - 1];
      && Elements(path) == Elements(path[..|path| - 1]) + {last}
      && Elements(done + [last]) == Elements(done) + {last}
  {
    assert path == path[..|path| - 1] + [path[|path| - 1]];
  }

  lemma RetireLast(db: Db, root: InvocationId, fingerprint: Digest, pending: seq<Frame>, visited: set<InvocationId>,
                   path: seq<InvocationId>, done: seq<InvocationId>)
    requires Walking(db, root, fingerprint, pending, visited, path, done)
    requires path != []
    requires forall k :: 0 <= k < |pending| ==> |pending[k].ancestors| < |path|
    ensures Walking(db, root, fingerprint, pending, visited, path[..|path| - 1], done + [path[|path| - 1]])
  {
    var last := |path| - 1;
    var shorter, longer := path[..last], done + [path[last]];
    ElementsMove(path, done);
    forall child | Edge(db, path[last], child) ensures child in done {
      assert Covered(pending, path, done, last, child);
    }
    SettledGrows(db, done, path[last]);
    StackedShorter(db, root, fingerprint, pending, path, last);
    forall i, child | 0 <= i < |shorter| && Edge(db, shorter[i], child)
      ensures Covered(pending, shorter, longer, i, child)
    {
      CoveredShorter(pending, path, done, i, child);
    }
  }

  /** Reaching a frame whose invocation lies on the path exhibits a dependency cycle. */
  lemma CycleFound(db: Db, root: InvocationId, path: seq<InvocationId>, id: InvocationId)
    requires path != [] && Path(db, path) && path[0] == root
    requires Edge(db, path[|path| - 1], id) && id in path
    ensures CycleReachable(db, root)
  {
    var i :| 0 <= i < |path| && path[i] == id;
    var cycle := path[i..] + [id];
    forall j | 0 <= j < |cycle| - 1 ensures Edge(db, cycle[j], cycle[j + 1]) {
      if j + 1 < |path[i..]| { assert Edge(db, path[i + j], path[i + j + 1]); }
    }
    assert Cycle(db, cycle);
    var prefix := path[..i + 1];
    assert Path(db, prefix) && prefix[0] == root && prefix[|prefix| - 1] == cycle[0];
  }

  lemma ReachesNext(db: Db, root: InvocationId, parent: InvocationId, child: InvocationId)
    requires Reaches(db, root, parent) && Edge(db, parent, child)
    ensures Reaches(db, root, child)
  {
    var p :| Path(db, p) && p[0] == root && p[|p| - 1] == parent;
    assert Path(db, p + [child]);
  }

  /** A settled list is closed under dependencies. */
  lemma {:induction false} SettledCloses(db: Db, done: seq<InvocationId>, p: seq<InvocationId>)
    requires Settled(db, done) && Path(db, p) && p[0] in done
    ensures p[|p| - 1] in done
    decreases |p|
  {
    if |p| > 1 {
      var j :| 0 <= j < |done| && done[j] == p[0];
      assert Edge(db, done[j], p[1]);
      assert p[1] in done;
      assert Path(db, p[1..]) by {
        forall i | 0 <= i < |p[1..]| - 1 ensures Edge(db, p[1..][i], p[1..][i + 1]) {
          assert Edge(db, p[i + 1], p[i + 2]);
        }
      }
      SettledCloses(db, done, p[1..]);
    }
  }

  /** Along a dependency path the position in a settled list strictly decreases. */
  lemma {:induction false} SettledDescends(db: Db, done: seq<InvocationId>, p: seq<InvocationId>, from: nat)
    returns (to: nat)
    requires Settled(db, done) && Path(db, p) && from < |done| && done[from] == p[0]
    ensures to < |done| && done[to] == p[|p| - 1]
    ensures if |p| == 1 then to == from else to < from
    decreases |p|
  {
    if |p| == 1 {
      to := from;
    } else {
      assert Edge(db, done[from], p[1]);
      var next :| 0 <= next < from && done[next] == p[1];
      assert Path(db, p[1..]) by {
        forall i | 0 <= i < |p[1..]| - 1 ensures Edge(db, p[1..][i], p[1..][i + 1]) {
          assert Edge(db, p[i + 1], p[i + 2]);
        }
      }
      to := SettledDescends(db, done, p[1..], next);
    }
  }

  /** A settled list holding the root witnesses that every reachable invocation is listed and none of them
      lies on a cycle. */
  lemma SettledDecides(db: Db, root: InvocationId, done: seq<InvocationId>)
    requires Settled(db, done) && Distinct(done) && root in done
    ensures !CycleReachable(db, root)
    ensures forall id :: Reaches(db, root, id) ==> id in done
  {
    forall id | Reaches(db, root, id) ensures id in done {
      var p :| Path(db, p) && p[0] == root && p[|p| - 1] == id;
      SettledCloses(db, done, p);
    }
    if CycleReachable(db, root) {
      var p :| Cycle(db, p) && Reaches(db, root, p[0]);
      var from :| 0 <= from < |done| && done[from] == p[0];
      var to := SettledDescends(db, done, p, from);
      assert false;
    }
  }

  lemma Start(db: Db, root: InvocationId, fingerprint: Digest)
    ensures Walking(db, root, fingerprint, [Frame(root, fingerprint, [])], {}, [], [])
  {
  }

  /** Skipping a frame whose invocation is already settled. */
  lemma Skip(db: Db, root: InvocationId, fingerprint: Digest, rest: seq<Frame>, frame: Frame,
             visited: set<InvocationId>, path: seq<InvocationId>, done: seq<InvocationId>)
    requires Walking(db, root, fingerprint, rest + [frame], visited, path, done)
    requires frame.ancestors == path && frame.id in done
    ensures Walking(db, root, fingerprint, rest, visited, path, done)
  {
    var pending := rest + [frame];
    assert forall k :: 0 <= k < |rest| ==> rest[k] == pending[k];
    forall i, child | 0 <= i < |path| && Edge(db, path[i], child) ensures Covered(rest, path, done, i, child) {
      assert Covered(pending, path, done, i, child);
      if OnStack(pending, child, path[..i + 1]) {
        var k :| 0 <= k < |pending| && pending[k].id == child && pending[k].ancestors == path[..i + 1];
        if k < |rest| { assert rest[k] == pending[k]; }
      }
    }
  }

  lemma DescendElements(path: seq<InvocationId>, done: seq<InvocationId>, id: InvocationId)
    requires Elements(path) !! Elements(done) && Distinct(path) && id !in path && id !in done
    ensures Elements(path + [id]) == Elements(path) + {id}
    ensures Elements(path + [id]) !! Elements(done) && Distinct(path + [id])
  {
  }

  lemma DescendPath(db: Db, root: InvocationId, fingerprint: Digest, rest: seq<Frame>, frame: Frame,
                    visited: set<InvocationId>, path: seq<InvocationId>, done: seq<InvocationId>)
    requires Walking(db, root, fingerprint, rest + [frame], visited, path, done)
    requires frame.ancestors == path && frame.id !in visited
    ensures Path(db, path + [frame.id]) && (path + [frame.id])[0] == root && Reaches(db, root, frame.id)
    ensures frame.fingerprint == Expected(db, root, fingerprint, frame.id)
  {
    assert FrameOk(db, root, fingerprint, (rest + [frame])[|rest|]);
    if path == [] {
      assert Reaches(db, root, frame.id) by { assert Path(db, [root]); }
    } else {
      var last := path[|path| - 1];
      assert last in visited;
      ReachesNext(db, root, last, frame.id);
    }
  }

  /** Descending into an invocation not seen before, with a frame pushed for each of its dependencies. */
  lemma Descend(db: Db, root: InvocationId, fingerprint: Digest, rest: seq<Frame>, frame: Frame,
                visited: set<InvocationId>, path: seq<InvocationId>, done: seq<InvocationId>, pushed: seq<Frame>)
    requires Walking(db, root, fingerprint, rest + [frame], visited, path, done)
    requires frame.ancestors == path && frame.id !in visited
    requires LocallyOk(db, frame.id, frame.fingerprint)
    requires forall k :: 0 <= k < |pushed| ==> PushedFor(db, frame, pushed[k])
    requires forall child :: Edge(db, frame.id, child) ==> OnStack(pushed, child, path + [frame.id])
    ensures Walking(db, root, fingerprint, rest + pushed, visited + {frame.id}, path + [frame.id], done)
  {
    DescendElements(path, done, frame.id);
    DescendPath(db, root, fingerprint, rest, frame, visited, path, done);
    DescendStacked(db, root, fingerprint, rest, frame, path, pushed);
    DescendCovers(db, rest, frame, path, done, pushed);
  }

  lemma DescendCovers(db: Db, rest: seq<Frame>, frame: Frame, path: seq<InvocationId>, done: seq<InvocationId>,
                      pushed: seq<Frame>)
    requires frame.ancestors == path && AllCovered(db, rest + [frame], path, done)
    requires forall child :: Edge(db, frame.id, child) ==> OnStack(pushed, child, path + [frame.id])
    ensures AllCovered(db, rest + pushed, path + [frame.id], done)
  {
    var longer := path + [frame.id];
    forall i, child | 0 <= i < |longer| && Edge(db, longer[i], child)
      ensures Covered(rest + pushed, longer, done, i, child)
    {
      if i < |path| { assert Covered(rest + [frame], path, done, i, child); }
      DescendCovered(rest, frame, path, done, pushed, i, child);
    }
  }

  lemma DescendStacked(db: Db, root: InvocationId, fingerprint: Digest, rest: seq<Frame>, frame: Frame,
                       path: seq<InvocationId>, pushed: seq<Frame>)
    requires Stacked(db, root, fingerprint, rest + [frame], path) && frame.ancestors == path
    requires forall k :: 0 <= k < |pushed| ==> PushedFor(db, frame, pushed[k])
    ensures Stacked(db, root, fingerprint, rest + pushed, path + [frame.id])
  {
    var pending, next, longer := rest + [frame], rest + pushed, path + [frame.id];
    forall k | 0 <= k < |next| ensures FrameOk(db, root, fingerprint, next[k]) && next[k].ancestors <= longer {
      if k < |rest| { assert next[k] == pending[k] && pending[k].ancestors <= path <= longer; }
      else { assert next[k] == pushed[k - |rest|]; }
    }
    forall k, l | 0 <= k < l < |next| ensures |next[k].ancestors| <= |next[l].ancestors| {
      if l < |rest| { assert next[k] == pending[k] && next[l] == pending[l]; }
      else { assert next[l] == pushed[l - |rest|] && next[k].ancestors <= longer; }
    }
  }

  lemma DescendCovered(rest: seq<Frame>, frame: Frame, path: seq<InvocationId>, done: seq<InvocationId>,
                       pushed: seq<Frame>, i: nat, child: InvocationId)
    requires frame.ancestors == path && i <= |path|
    requires if i < |path| then Covered(rest + [frame], path, done, i, child)
             else OnStack(pushed, child, path + [frame.id])
    ensures Covered(rest + pushed, path + [frame.id], done, i, child)
  {
    var pending, next, longer := rest + [frame], rest + pushed, path + [frame.id];
    if i == |path| {
      assert longer[..i + 1] == longer;
      var k :| 0 <= k < |pushed| && pushed[k].id == child && pushed[k].ancestors == longer;
      assert next[|rest| + k] == pushed[k];
    } else {
      assert longer[..i + 1] == path[..i + 1];
      if OnStack(pending, child, path[..i + 1]) {
        var k :| 0 <= k < |pending| && pending[k].id == child && pending[k].ancestors == path[..i + 1];
        if k < |rest| { assert next[k] == pending[k]; }
        else { assert i + 1 == |path| && longer[i + 1] == child; }
      }
    }
  }

  ghost predicate PushedFor(db: Db, frame: Frame, f: Frame) {
    && Edge(db, frame.id, f.id)
    && f == Frame(f.id, db.invocations[f.id], frame.ancestors + [frame.id])
  }

  /** The frames the walk pushes for one invocation, or the verdict that a local check failed. */
  method Expand(db: Db, frame: Frame) returns (ok: bool, pushed: seq<Frame>)
    ensures ok <==> LocallyOk(db, frame.id, frame.fingerprint)
    ensures ok ==> forall k :: 0 <= k < |pushed| ==> PushedFor(db, frame, pushed[k])
    ensures ok ==> forall child :: Edge(db, frame.id, child) ==> OnStack(pushed, child, frame.ancestors + [frame.id])
  {
    var rows := RowsOf(db, frame.id);
    pushed := [];
    while rows != {}
      invariant rows <= RowsOf(db, frame.id)
      invariant forall key :: key in RowsOf(db, frame.id) - rows ==> RowOk(db, frame.id, frame.fingerprint, key)
      invariant forall k :: 0 <= k < |pushed| ==> PushedFor(db, frame, pushed[k])
      invariant forall key :: key in RowsOf(db, frame.id) - rows && ChildOf(db, key).Some?
                  ==> OnStack(pushed, ChildOf(db, key).value, frame.ancestors + [frame.id])
      decreases rows
    {
      var key :| key in rows;
      if !RowOk(db, frame.id, frame.fingerprint, key) { return false, []; }
      var child := ChildOf(db, key);
      if child.Some? {
        ghost var before := pushed;
        var f := Frame(child.value, db.invocations[child.value], frame.ancestors + [frame.id]);
        assert Edge(db, frame.id, f.id);
        pushed := pushed + [f];
        assert pushed[|before|] == f;
        forall id | OnStack(before, id, f.ancestors) ensures OnStack(pushed, id, f.ancestors) {
          var k :| 0 <= k < |before| && before[k].id == id && before[k].ancestors == f.ancestors;
          assert pushed[k] == before[k];
        }
      }
      rows := rows - {key};
    }
    ok := db.secondary(frame.id, frame.fingerprint);
  }

  /** Popping a frame: what has been explored below it settles, and its invocation is then new, settled
      or on the path, where it closes a cycle. */
  lemma Pop(db: Db, root: InvocationId, fingerprint: Digest, rest: seq<Frame>, frame: Frame, visited: set<InvocationId>,
            path: seq<InvocationId>, done: seq<InvocationId>)
    returns (path': seq<InvocationId>, done': seq<InvocationId>)
    requires Walking(db, root, fingerprint, rest + [frame], visited, path, done)
    ensures Walking(db, root, fingerprint, rest + [frame], visited, path', done')
    ensures path' == frame.ancestors
    ensures frame.id in frame.ancestors ==> CycleReachable(db, root)
    ensures frame.id !in frame.ancestors && frame.id in visited ==> frame.id in done'
    ensures !LocallyOk(db, frame.id, frame.fingerprint) && frame.id !in frame.ancestors ==>
            !Reconciled(db, root, fingerprint)
    ensures frame.id in db.invocations.Keys + {root}
  {
    var pending := rest + [frame];
    assert pending[|rest|] == frame;
    path', done' := path, done;
    if path != [] || done != [] {
      done' := Retire(db, root, fingerprint, pending, visited, path, done, |frame.ancestors|);
      path' := path[..|frame.ancestors|];
    } else {
      assert pending[0] == Frame(root, fingerprint, []);
    }
    assert Stacked(db, root, fingerprint, pending, path') && FrameOk(db, root, fingerprint, pending[|rest|]);
    if frame.id in path' { CycleFound(db, root, path', frame.id); }
    else if !LocallyOk(db, frame.id, frame.fingerprint) { RejectedLocally(db, root, fingerprint, frame); }
  }

  /** When no frame is left, everything visited has settled. */
  lemma Exhausted(db: Db, root: InvocationId, fingerprint: Digest, visited: set<InvocationId>,
                path: seq<InvocationId>, done: seq<InvocationId>)
    requires Walking(db, root, fingerprint, [], visited, path, done)
    ensures Reconciled(db, root, fingerprint)
    ensures forall id :: id in visited <==> Reaches(db, root, id)
  {
    var settled := Retire(db, root, fingerprint, [], visited, path, done, 0);
    SettledDecides(db, root, settled);
  }

  /** One turn of the walk: pop a frame, then reject, skip it, or descend into its invocation. */
  method Turn(db: Db, root: InvocationId, fingerprint: Digest, pending: seq<Frame>, visited: set<InvocationId>,
              ghost path: seq<InvocationId>, ghost done: seq<InvocationId>)
    returns (ok: bool, pending': seq<Frame>, visited': set<InvocationId>,
             ghost path': seq<InvocationId>, ghost done': seq<InvocationId>)
    requires pending != []
    requires Walking(db, root, fingerprint, pending, visited, path, done)
    ensures !ok ==> !Reconciled(db, root, fingerprint)
    ensures ok ==> Walking(db, root, fingerprint, pending', visited', path', done')
    ensures ok ==> (visited' == visited && |pending'| < |pending|) || NewlyVisited(db, root, visited, visited')
  {
    var frame, rest := pending[|pending| - 1], pending[..|pending| - 1];
    assert pending == rest + [frame];
    path', done' := Pop(db, root, fingerprint, rest, frame, visited, path, done);
    ok, pending', visited' := true, rest, visited;
    if frame.id in frame.ancestors {
      ok := false;
    } else if frame.id in visited {
      Skip(db, root, fingerprint, rest, frame, visited, path', done');
    } else {
      var pushed;
      ok, pushed := Expand(db, frame);
      if ok {
        Descend(db, root, fingerprint, rest, frame, visited, path', done', pushed);
        pending', visited', path' := rest + pushed, visited + {frame.id}, path' + [frame.id];
      }
    }
  }

  ghost predicate NewlyVisited(db: Db, root: InvocationId, visited: set<InvocationId>, visited': set<InvocationId>) {
    exists id :: id !in visited && id in db.invocations.Keys + {root} && visited' == visited + {id}
  }

  lemma FewerLeft(db: Db, root: InvocationId, visited: set<InvocationId>, visited': set<InvocationId>)
    requires NewlyVisited(db, root, visited, visited')
    ensures |db.invocations.Keys + {root} - visited'| < |db.invocations.Keys + {root} - visited|
  {
    var id :| id !in visited && id in db.invocations.Keys + {root} && visited' == visited + {id};
    assert db.invocations.Keys + {root} - visited == (db.invocations.Keys + {root} - visited') + {id};
  }

  /** The reconciliation walk terminates on every finite journal. It accepts exactly when every reachable
      invocation passes its local checks and no dependency cycle is reachable, and it then has checked
      exactly the reachable invocations, although invocations met again are skipped. */
  method VerifyInvocation(db: Db, root: InvocationId, fingerprint: Digest)
    returns (ok: bool, visited: set<InvocationId>)
    ensures ok <==> Reconciled(db, root, fingerprint)
    ensures ok ==> forall id :: id in visited <==> Reaches(db, root, id)
  {
    var pending := [Frame(root, fingerprint, [])];
    visited := {};
    ghost var path, done: seq<InvocationId> := [], [];
    Start(db, root, fingerprint);
    while pending != []
      invariant Walking(db, root, fingerprint, pending, visited, path, done)
      decreases |db.invocations.Keys + {root} - visited|, |pending|
    {
      ghost var before := visited;
      ok, pending, visited, path, done := Turn(db, root, fingerprint, pending, visited, path, done);
      if !ok { return; }
      if visited != before { FewerLeft(db, root, before, visited); }
    }
    Exhausted(db, root, fingerprint, visited, path, done);
    ok := true;
  }

  lemma RejectedLocally(db: Db, root: InvocationId, fingerprint: Digest, frame: Frame)
    requires FrameOk(db, root, fingerprint, frame)
    requires frame.ancestors != [] ==> Path(db, frame.ancestors) && frame.ancestors[0] == root
    requires frame.id !in frame.ancestors
    requires !LocallyOk(db, frame.id, frame.fingerprint)
    ensures !Reconciled(db, root, fingerprint)
  {
    var p := frame.ancestors + [frame.id];
    assert Path(db, p) && p[0] == root && p[|p| - 1] == frame.id;
    assert Reaches(db, root, frame.id);
  }
}
