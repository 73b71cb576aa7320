/** Child reservations, root budgets and the ancestry check (children.py).

    Row keys are numbers that stand for the digests of action identities; only their equality and order
    matter. A request digest is the request itself, and a policy digest the policy itself. */
module ChildTree {
  import opened Prelude

  type Id = string
  type Json = string

  datatype Status = Running | Waiting | Completed | Faulted | Cancelled

  predicate Terminal(s: Status) { s.Completed? || s.Faulted? || s.Cancelled? }

  datatype Invocation = Invocation(
    parent: Option<Id>,
    taskReference: Option<string>,
    engine: string,
    principal: Option<string>,
    user: Option<string>,
    session: string,
    fingerprint: string,
    name: string,
    version: string,
    input: Json,
    status: Status)

  datatype Workflow = Workflow(fingerprint: string, name: string, version: string)

  datatype Request = Request(fingerprint: string, input: Json)

  datatype Binding = Binding(
    root: Id,
    parent: Id,
    child: Id,
    depth: int,
    request: Request,
    source: Workflow,
    taskReference: string)

  datatype Policy = Policy(root: Id, fingerprint: string, maxDepth: int, maxChildren: int)

  datatype Budget = Budget(fingerprint: string, maxDepth: int, maxChildren: int, used: int, policy: Policy)

  /** The tables. `byChild` is the unique index on child_id; `detached` holds the bindings with a queued job. */
  datatype Tree = Tree(
    invocations: map<Id, Invocation>,
    bindings: map<nat, Binding>,
    byChild: map<Id, nat>,
    budgets: map<Id, Budget>,
    detached: set<nat>)

  datatype Identity = Identity(key: nat, invocation: Id, fingerprint: string, taskReference: string, operation: string)

  datatype TreeError = NoAuthority | RequestChanged | Inconsistent | Exhausted

  function UnderRoot(bindings: map<nat, Binding>, root: Id): set<nat> {
    set k | k in bindings && bindings[k].root == root
  }

  lemma UnderRootGrows(bindings: map<nat, Binding>, key: nat, b: Binding, root: Id)
    requires key !in bindings
    ensures |UnderRoot(bindings[key := b], root)| == |UnderRoot(bindings, root)| + if root == b.root then 1 else 0
  {
    if root == b.root {
      assert UnderRoot(bindings[key := b], root) == UnderRoot(bindings, root) + {key};
    } else {
      assert UnderRoot(bindings[key := b], root) == UnderRoot(bindings, root);
    }
  }

  // ---------------------------------------------------------------- the checks

  predicate BudgetOk(t: Tree, root: Id, least: int) {
    && root in t.budgets && root in t.invocations
    && var b := t.budgets[root];
       && t.invocations[root].fingerprint == b.fingerprint
       && 1 <= b.maxDepth <= 64
       && 1 <= b.maxChildren <= 100_000
       && least <= b.used <= b.maxChildren
       && b.used == |UnderRoot(t.bindings, root)|
       && b.policy == Policy(root, b.fingerprint, b.maxDepth, b.maxChildren)
  }

  predicate SameHandle(a: Invocation, b: Invocation) {
    && a.engine == b.engine && a.fingerprint == b.fingerprint && a.principal == b.principal && a.user == b.user
    && a.parent == b.parent && a.taskReference == b.taskReference
  }

  /** The child's own identity, input and place below its parent. */
  predicate ChildOk(t: Tree, b: Binding) {
    && b.parent in t.invocations && b.child in t.invocations
    && var p, c := t.invocations[b.parent], t.invocations[b.child];
       && c.parent == Some(b.parent)
       && c.taskReference == Some(b.taskReference)
       && c.engine == p.engine && c.principal == p.principal && c.user == p.user
       && c.session != p.session
       && Request(c.fingerprint, c.input) == b.request
       && b.source.name == c.name && b.source.version == c.version
  }

  /** The ancestry loop of `verify_control`, from an ancestor with `remaining` steps to go. */
  predicate Climbs(t: Tree, b: Binding, at: Id, remaining: nat)
    requires at in t.invocations
    decreases remaining
  {
    if remaining == 0 then at == b.root && t.invocations[at].parent.None?
    else
      && at in t.byChild && t.byChild[at] in t.bindings
      && var a := t.bindings[t.byChild[at]];
         && a.root == b.root
         && a.depth == remaining
         && Some(a.parent) == t.invocations[at].parent
         && Some(a.taskReference) == t.invocations[at].taskReference
         && a.parent in t.invocations
         && Climbs(t, b, a.parent, remaining - 1)
  }

  /** `verify_control` accepts this binding under this parent handle. */
  predicate ControlAccepts(t: Tree, key: nat, b: Binding, parent: Id, handle: Invocation) {
    && key in t.bindings && t.bindings[key] == b
    && b.depth >= 1
    && BudgetOk(t, b.root, 1)
    && b.depth <= t.budgets[b.root].maxDepth
    && b.parent == parent
    && ChildOk(t, b)
    && SameHandle(t.invocations[parent], handle)
    && Climbs(t, b, parent, b.depth - 1)
  }

  /** `verify` accepts a binding found again under the same request. */
  predicate VerifyAccepts(t: Tree, b: Binding, parent: Id, handle: Invocation, w: Workflow, input: Json) {
    && BudgetOk(t, b.root, 1)
    && 1 <= b.depth <= t.budgets[b.root].maxDepth
    && b.request == Request(w.fingerprint, input)
    && b.source == w
    && b.child in t.invocations
    && var c := t.invocations[b.child];
       && c.parent == Some(parent) && c.taskReference == Some(b.taskReference)
       && c.engine == handle.engine && c.principal == handle.principal && c.user == handle.user
       && c.fingerprint == w.fingerprint && c.name == w.name && c.version == w.version && c.input == input
  }

  // ---------------------------------------------------------------- calls

  datatype Op =
    | Reserve(identity: Identity, handle: Invocation, lease: bool, workflow: Workflow, input: Json,
              taskReference: string, maxDepth: int, maxChildren: int, child: Id, session: string, participant: bool)
    | Enqueue(identity: Identity, handle: Invocation, lease: bool, workflow: Workflow, input: Json)
    /** The runtime starts a root invocation, or moves any invocation on. */
    | Start(id: Id, root: Invocation)
    | Progress(id: Id, status: Status)

  type Answer = Result<Id, TreeError>

  /** Where a new child goes: the root and depth below `parent`, with the root's budget row pinned on first use. */
  function Place(t: Tree, parent: Id, handle: Invocation, maxDepth: int, maxChildren: int): Option<(Tree, Id, int)> {
    if handle.parent.None? then
      var budget := Budget(handle.fingerprint, maxDepth, maxChildren, 0,
                           Policy(parent, handle.fingerprint, maxDepth, maxChildren));
      Some((if parent in t.budgets then t else t.(budgets := t.budgets[parent := budget]), parent, 1))
    else if parent in t.byChild && t.byChild[parent] in t.bindings
            && Some(t.bindings[t.byChild[parent]].parent) == handle.parent then
      var a := t.bindings[t.byChild[parent]];
      Some((t, a.root, a.depth + 1))
    else None
  }

  function Adopt(t: Tree, key: nat, b: Binding, child: Invocation): Tree
    requires b.root in t.budgets
  {
    var budget := t.budgets[b.root];
    t.(invocations := t.invocations[b.child := child],
       bindings := t.bindings[key := b],
       byChild := t.byChild[b.child := key],
       budgets := t.budgets[b.root := budget.(used := budget.used + 1)])
  }

  /** The answer to a request whose key is taken. */
  function Repeated(t: Tree, b: Binding, parent: Id, h: Invocation, w: Workflow, input: Json,
                    reference: string): Answer {
    if b.parent != parent then Err(Inconsistent)
    else if b.request != Request(w.fingerprint, input) || b.source != w || b.taskReference != reference
    then Err(RequestChanged)
    else if !VerifyAccepts(t, b, parent, h, w, input) then Err(Inconsistent)
    else Ok(b.child)
  }

  function ApplyReserve(t: Tree, op: Op): (Tree, Answer)
    requires op.Reserve?
  {
    var parent, h, w := op.identity.invocation, op.handle, op.workflow;
    var reference := if op.taskReference != "" then op.taskReference else op.identity.taskReference;
    if op.identity.operation != "run:workflow" || op.identity.fingerprint != h.fingerprint || !op.lease
    then (t, Err(NoAuthority))
    else if op.identity.key in t.bindings then
      (t, Repeated(t, t.bindings[op.identity.key], parent, h, w, op.input, reference))
    else
      match Place(t, parent, h, op.maxDepth, op.maxChildren)
      case None => (t, Err(Inconsistent))
      case Some((placed, root, depth)) =>
        if !BudgetOk(placed, root, 0) then (t, Err(Inconsistent))
        else if depth > placed.budgets[root].maxDepth || placed.budgets[root].used >= placed.budgets[root].maxChildren
        then (t, Err(Exhausted))
        else if op.child in t.invocations || op.child in t.byChild || !op.participant then (t, Err(Inconsistent))
        else
          var b := Binding(root, parent, op.child, depth, Request(w.fingerprint, op.input), w, reference);
          var c := Invocation(Some(parent), Some(reference), h.engine, h.principal, h.user, op.session, w.fingerprint,
                              w.name, w.version, op.input, Running);
          (Adopt(placed, op.identity.key, b, c), Ok(op.child))
  }

  function Apply(t: Tree, op: Op): (Tree, Answer) {
    match op
    case Reserve(_, _, _, _, _, _, _, _, _, _, _) => ApplyReserve(t, op)
    case Enqueue(identity, h, lease, w, input) =>
      if identity.key !in t.bindings || t.bindings[identity.key].parent != identity.invocation
         || !VerifyAccepts(t, t.bindings[identity.key], identity.invocation, h, w, input) || !lease
      then (t, Err(Inconsistent))
      else (t.(detached := t.detached + {identity.key}), Ok(t.bindings[identity.key].child))
    case Start(id, root) =>
      (if id in t.invocations then t else t.(invocations := t.invocations[id := root]), Ok(id))
    case Progress(id, status) =>
      (if id in t.invocations && !Terminal(t.invocations[id].status)
       then t.(invocations := t.invocations[id := t.invocations[id].(status := status)]) else t, Ok(id))
  }

  /** The caller holds the stored parent handle, a new session is new, and only roots are started directly. */
  predicate Enabled(t: Tree, op: Op) {
    match op
    case Reserve(identity, handle, _, _, _, _, _, _, _, session, _) =>
      identity.invocation in t.invocations && SameHandle(t.invocations[identity.invocation], handle)
      && session != t.invocations[identity.invocation].session
    case Start(_, root) => root.parent.None?
    case _ => true
  }

  // ---------------------------------------------------------------- the invariant

  /** A binding sits one level below its parent: directly under the root, or under another binding. */
  predicate Placed(t: Tree, b: Binding)
    requires b.parent in t.invocations
  {
    if b.depth == 1 then b.parent == b.root && t.invocations[b.parent].parent.None?
    else
      && b.parent in t.byChild && t.byChild[b.parent] in t.bindings
      && var a := t.bindings[t.byChild[b.parent]];
         && a.root == b.root && a.depth == b.depth - 1 && a.child == b.parent
         && t.invocations[b.parent].parent == Some(a.parent)
         && t.invocations[b.parent].taskReference == Some(a.taskReference)
  }

  predicate BindingFine(t: Tree, key: nat) {
    key in t.bindings ==>
      var b := t.bindings[key];
      && b.child in t.byChild && t.byChild[b.child] == key
      && ChildOk(t, b)
      && b.root in t.budgets
      && 1 <= b.depth <= t.budgets[b.root].maxDepth
      && Placed(t, b)
  }

  datatype Probe = OfBinding(key: nat) | OfBudget(root: Id) | OfChild(id: Id)

  predicate Fine(t: Tree, x: Probe) {
    match x
    case OfBinding(key) => BindingFine(t, key)
    case OfBudget(root) => root in t.budgets ==> BudgetOk(t, root, 0)
    case OfChild(id) =>
      && (id in t.byChild ==> t.byChild[id] in t.bindings && t.bindings[t.byChild[id]].child == id)
      && (id in t.invocations && t.invocations[id].parent.Some? ==> id in t.byChild)
  }

  ghost predicate Inv(t: Tree) {
    forall x :: Fine(t, x)
  }

  // ---------------------------------------------------------------- every call keeps it

  /** Status changes and newly queued jobs touch nothing the invariant reads. */
  predicate SameShape(t: Tree, u: Tree) {
    && t.bindings == u.bindings && t.byChild == u.byChild && t.budgets == u.budgets
    && t.invocations.Keys == u.invocations.Keys
    && forall id :: id in t.invocations ==> u.invocations[id] == t.invocations[id].(status := u.invocations[id].status)
  }

  lemma SameShapeKeeps(t: Tree, u: Tree, x: Probe)
    requires SameShape(t, u) && Inv(t)
    ensures Fine(u, x)
  {
    assert Fine(t, x);
  }

  lemma StartKeeps(t: Tree, id: Id, root: Invocation, x: Probe)
    requires Inv(t) && id !in t.invocations && root.parent.None?
    ensures Fine(t.(invocations := t.invocations[id := root]), x)
  {
    assert Fine(t, x);
  }

  /** Pinning the budget of a root that has none keeps the invariant if the configured limits are admissible:
      no binding can be under that root yet. */
  lemma PlaceKeeps(t: Tree, parent: Id, handle: Invocation, maxDepth: int, maxChildren: int, x: Probe)
    requires Inv(t) && parent in t.invocations && SameHandle(t.invocations[parent], handle)
    requires Place(t, parent, handle, maxDepth, maxChildren).Some?
    requires
      var p := Place(t, parent, handle, maxDepth, maxChildren).value;
      BudgetOk(p.0, p.1, 0)
    ensures Fine(Place(t, parent, handle, maxDepth, maxChildren).value.0, x)
  {
    assert Fine(t, x);
  }

  /** The binding that `Place` finds for a new child. */
  lemma PlaceFits(t: Tree, parent: Id, handle: Invocation, maxDepth: int, maxChildren: int)
    requires Inv(t) && parent in t.invocations && SameHandle(t.invocations[parent], handle)
    requires Place(t, parent, handle, maxDepth, maxChildren).Some?
    ensures
      var (u, root, depth) := Place(t, parent, handle, maxDepth, maxChildren).value;
      && depth >= 1
      && if depth == 1 then root == parent && u.invocations[parent].parent.None?
         else
           && parent in u.byChild && u.byChild[parent] in u.bindings
           && var a := u.bindings[u.byChild[parent]];
              && a.root == root && a.depth == depth - 1 && a.child == parent
              && u.invocations[parent].parent == Some(a.parent)
              && u.invocations[parent].taskReference == Some(a.taskReference)
  {
    assert Fine(t, OfChild(parent));
    if handle.parent.Some? { assert Fine(t, OfBinding(t.byChild[parent])); }
  }

  ghost predicate Adoptable(t: Tree, key: nat, b: Binding, child: Invocation) {
    && key !in t.bindings && b.child !in t.invocations && b.child !in t.byChild
    && b.parent in t.invocations && b.root in t.invocations && b.root in t.budgets
    && BudgetOk(t, b.root, 0) && t.budgets[b.root].used < t.budgets[b.root].maxChildren
    && 1 <= b.depth <= t.budgets[b.root].maxDepth
    && Placed(t, b)
    && var p := t.invocations[b.parent];
       && child.parent == Some(b.parent) && child.taskReference == Some(b.taskReference)
       && child.engine == p.engine && child.principal == p.principal && child.user == p.user
       && child.session != p.session
       && Request(child.fingerprint, child.input) == b.request
       && b.source.name == child.name && b.source.version == child.version
  }

  lemma AdoptBinding(t: Tree, key: nat, b: Binding, child: Invocation, k: nat)
    requires Inv(t) && Adoptable(t, key, b, child)
    ensures BindingFine(Adopt(t, key, b, child), k)
  {
    assert Fine(t, OfBinding(k));
    if k in t.bindings {
      var o := t.bindings[k];
      assert b.child != o.child && b.child != o.parent;
      if o.depth != 1 { assert t.byChild[o.parent] != key; }
    }
  }

  lemma AdoptBudget(t: Tree, key: nat, b: Binding, child: Invocation, root: Id)
    requires Inv(t) && Adoptable(t, key, b, child)
    ensures Fine(Adopt(t, key, b, child), OfBudget(root))
  {
    assert Fine(t, OfBudget(root));
    UnderRootGrows(t.bindings, key, b, root);
  }

  lemma AdoptKeeps(t: Tree, key: nat, b: Binding, child: Invocation, x: Probe)
    requires Inv(t) && Adoptable(t, key, b, child)
    ensures Fine(Adopt(t, key, b, child), x)
  {
    match x {
      case OfBinding(k) => AdoptBinding(t, key, b, child, k);
      case OfBudget(root) => AdoptBudget(t, key, b, child, root);
      case OfChild(id) => assert Fine(t, x);
    }
  }

  lemma ReserveKeeps(t: Tree, op: Op)
    requires Inv(t) && op.Reserve? && Enabled(t, op)
    ensures Inv(Apply(t, op).0)
  {
    if Apply(t, op).0 != t {
      var parent := op.identity.invocation;
      var (placed, root, depth) := Place(t, parent, op.handle, op.maxDepth, op.maxChildren).value;
      forall x ensures Fine(placed, x) { PlaceKeeps(t, parent, op.handle, op.maxDepth, op.maxChildren, x); }
      PlaceFits(t, parent, op.handle, op.maxDepth, op.maxChildren);
      var b, c := Apply(t, op).0.bindings[op.identity.key], Apply(t, op).0.invocations[op.child];
      assert Apply(t, op).0 == Adopt(placed, op.identity.key, b, c);
      assert Adoptable(placed, op.identity.key, b, c);
      forall x ensures Fine(Apply(t, op).0, x) { AdoptKeeps(placed, op.identity.key, b, c, x); }
    }
  }

  lemma ApplyKeeps(t: Tree, op: Op)
    requires Inv(t) && Enabled(t, op)
    ensures Inv(Apply(t, op).0)
  {
    match op {
      case Reserve(_, _, _, _, _, _, _, _, _, _, _) => ReserveKeeps(t, op);
      case Enqueue(_, _, _, _, _) => forall x ensures Fine(Apply(t, op).0, x) { SameShapeKeeps(t, Apply(t, op).0, x); }
      case Start(id, root) =>
        if id !in t.invocations { forall x ensures Fine(Apply(t, op).0, x) { StartKeeps(t, id, root, x); } }
      case Progress(_, _) => forall x ensures Fine(Apply(t, op).0, x) { SameShapeKeeps(t, Apply(t, op).0, x); }
    }
  }

  // ---------------------------------------------------------------- whole runs

  function Run(t: Tree, ops: seq<Op>): Tree
    decreases |ops|
  {
    if ops == [] then t else Run(Apply(t, ops[0]).0, ops[1..])
  }

  predicate Allowed(t: Tree, ops: seq<Op>)
    decreases |ops|
  {
    ops == [] || (Enabled(t, ops[0]) && Allowed(Apply(t, ops[0]).0, ops[1..]))
  }

  lemma {:induction false} RunKeeps(t: Tree, ops: seq<Op>)
    requires Inv(t) && Allowed(t, ops)
    ensures Inv(Run(t, ops))
    decreases |ops|
  {
    if ops != [] {
      ApplyKeeps(t, ops[0]);
      RunKeeps(Apply(t, ops[0]).0, ops[1..]);
    }
  }

  const EMPTY := Tree(map[], map[], map[], map[], {})

  ghost predicate Reachable(t: Tree) {
    exists ops :: Allowed(EMPTY, ops) && Run(EMPTY, ops) == t
  }

  lemma ReachableInv(t: Tree)
    requires Reachable(t)
    ensures Inv(t)
  {
    var ops :| Allowed(EMPTY, ops) && Run(EMPTY, ops) == t;
    assert forall x :: Fine(EMPTY, x);
    RunKeeps(EMPTY, ops);
  }

  /** What no call takes back: bindings, invocation identities and pinned limits. */
  predicate Later(t: Tree, u: Tree) {
    && (forall k :: k in t.bindings ==> k in u.bindings && u.bindings[k] == t.bindings[k])
    && (forall i :: i in t.invocations ==>
        i in u.invocations && u.invocations[i] == t.invocations[i].(status := u.invocations[i].status))
    && (forall r :: r in t.budgets ==>
          r in u.budgets && t.budgets[r].used <= u.budgets[r].used
          && u.budgets[r] == t.budgets[r].(used := u.budgets[r].used))
    && t.detached <= u.detached
  }

  lemma AdoptLater(t: Tree, key: nat, b: Binding, child: Invocation)
    requires key !in t.bindings && b.child !in t.invocations && b.root in t.budgets
    ensures Later(t, Adopt(t, key, b, child))
  {
  }

  lemma PlaceLater(t: Tree, parent: Id, handle: Invocation, maxDepth: int, maxChildren: int)
    requires Place(t, parent, handle, maxDepth, maxChildren).Some?
    ensures
      var placed := Place(t, parent, handle, maxDepth, maxChildren).value.0;
      Later(t, placed) && placed == t.(budgets := placed.budgets)
  {
  }

  lemma LaterJoins(t: Tree, u: Tree, v: Tree)
    requires Later(t, u) && Later(u, v)
    ensures Later(t, v)
  {
  }

  lemma ReserveLater(t: Tree, op: Op)
    requires op.Reserve?
    ensures Later(t, ApplyReserve(t, op).0)
  {
    var after := ApplyReserve(t, op).0;
    if after != t {
      PlaceLater(t, op.identity.invocation, op.handle, op.maxDepth, op.maxChildren);
      var (placed, _, _) := Place(t, op.identity.invocation, op.handle, op.maxDepth, op.maxChildren).value;
      var b, c := after.bindings[op.identity.key], after.invocations[op.child];
      assert after == Adopt(placed, op.identity.key, b, c);
      AdoptLater(placed, op.identity.key, b, c);
      LaterJoins(t, placed, after);
    }
  }

  lemma ProgressLater(t: Tree, op: Op)
    requires op.Start? || op.Progress?
    ensures Later(t, Apply(t, op).0)
  {
  }

  lemma ApplyLater(t: Tree, op: Op)
    ensures Later(t, Apply(t, op).0)
  {
    match op {
      case Reserve(_, _, _, _, _, _, _, _, _, _, _) => ReserveLater(t, op);
      case Enqueue(_, _, _, _, _) =>
      case Start(_, _) => ProgressLater(t, op);
      case Progress(_, _) => ProgressLater(t, op);
    }
  }

  lemma {:induction false} RunLater(t: Tree, ops: seq<Op>)
    ensures Later(t, Run(t, ops))
    decreases |ops|
  {
    if ops != [] {
      ApplyLater(t, ops[0]);
      RunLater(Apply(t, ops[0]).0, ops[1..]);
    }
  }

  // ---------------------------------------------------------------- what the ancestry check means

  /** The invocation `n` parent links above `id`. */
  function Ancestor(t: Tree, id: Id, n: nat): Option<Id>
    decreases n
  {
    if id !in t.invocations then None
    else if n == 0 then Some(id)
    else match t.invocations[id].parent
      case None => None
      case Some(p) => Ancestor(t, p, n - 1)
  }

  /** `root` has no parent and is exactly `n` parent links above `id`. */
  predicate RootedAt(t: Tree, id: Id, n: nat, root: Id) {
    Ancestor(t, id, n) == Some(root) && root in t.invocations && t.invocations[root].parent.None?
  }

  lemma {:induction false} ClimbsIsRooted(t: Tree, b: Binding, at: Id, remaining: nat)
    requires at in t.invocations && Climbs(t, b, at, remaining)
    ensures RootedAt(t, at, remaining, b.root)
    decreases remaining
  {
    if remaining != 0 {
      ClimbsIsRooted(t, b, t.bindings[t.byChild[at]].parent, remaining - 1);
    }
  }

  /** On any tables, honest or not: an accepted binding's child really hangs `depth` links below its root. */
  lemma ControlSound(t: Tree, key: nat, b: Binding, parent: Id, handle: Invocation)
    requires ControlAccepts(t, key, b, parent, handle)
    ensures RootedAt(t, b.child, b.depth, b.root)
    ensures 1 <= b.depth <= t.budgets[b.root].maxDepth <= 64
    ensures |UnderRoot(t.bindings, b.root)| <= t.budgets[b.root].maxChildren <= 100_000
  {
    ClimbsIsRooted(t, b, parent, b.depth - 1);
  }

  lemma {:induction false} InvClimbs(t: Tree, key: nat, b: Binding, n: nat)
    requires Inv(t) && key in t.bindings && t.bindings[key].root == b.root && t.bindings[key].depth == n + 1
    ensures t.bindings[key].parent in t.invocations && Climbs(t, b, t.bindings[key].parent, n)
    decreases n
  {
    assert Fine(t, OfBinding(key));
    if n != 0 {
      InvClimbs(t, t.byChild[t.bindings[key].parent], b, n - 1);
    }
  }

  /** Every honestly reserved binding passes the check, for as long as the tables live. */
  lemma ControlComplete(t: Tree, key: nat, handle: Invocation)
    requires Inv(t) && key in t.bindings
    requires t.bindings[key].parent in t.invocations && SameHandle(t.invocations[t.bindings[key].parent], handle)
    ensures ControlAccepts(t, key, t.bindings[key], t.bindings[key].parent, handle)
  {
    var b := t.bindings[key];
    assert Fine(t, OfBinding(key)) && Fine(t, OfBudget(b.root));
    assert key in UnderRoot(t.bindings, b.root);
    InvClimbs(t, key, b, b.depth - 1);
  }

  /** In a reachable state the counter is the number of bindings, within the limits pinned at first use. */
  lemma BudgetsHold(t: Tree, key: nat)
    requires Reachable(t) && key in t.bindings
    ensures
      var b := t.bindings[key];
      && BudgetOk(t, b.root, 1)
      && 1 <= b.depth <= t.budgets[b.root].maxDepth
      && RootedAt(t, b.child, b.depth, b.root)
  {
    ReachableInv(t);
    var b := t.bindings[key];
    assert Fine(t, OfBinding(key));
    ControlComplete(t, key, t.invocations[b.parent]);
    ControlSound(t, key, b, b.parent, t.invocations[b.parent]);
  }

  lemma {:induction false} RootUnique(t: Tree, id: Id, n: nat, root: Id, m: nat, other: Id)
    requires RootedAt(t, id, n, root) && RootedAt(t, id, m, other)
    ensures n == m && root == other
    decreases n
  {
    if n != 0 && m != 0 {
      RootUnique(t, t.invocations[id].parent.value, n - 1, root, m - 1, other);
    }
  }

  /** The invocations that hang below `root`, by their parent links alone. */
  ghost predicate Below(t: Tree, root: Id, id: Id) {
    exists n: nat :: n > 0 && RootedAt(t, id, n, root)
  }

  lemma BelowIsBound(t: Tree, root: Id, id: Id)
    requires Inv(t) && id in t.invocations
    ensures Below(t, root, id) <==>
            id in t.byChild && t.byChild[id] in t.bindings && t.bindings[t.byChild[id]].root == root
  {
    assert Fine(t, OfChild(id));
    if id in t.byChild {
      var key := t.byChild[id];
      var b := t.bindings[key];
      assert Fine(t, OfBinding(key));
      ControlComplete(t, key, t.invocations[b.parent]);
      ControlSound(t, key, b, b.parent, t.invocations[b.parent]);
      if Below(t, root, id) {
        var n: nat :| n > 0 && RootedAt(t, id, n, root);
        RootUnique(t, id, n, root, b.depth, b.root);
      }
    }
  }

  /** Two sets paired off by a map have one size. */
  lemma {:induction false} PairedOff(keys: set<nat>, ids: set<Id>, of: map<nat, Binding>)
    requires forall k :: k in keys ==> k in of && of[k].child in ids
    requires forall k, l :: k in keys && l in keys && of[k].child == of[l].child ==> k == l
    requires forall id :: id in ids ==> exists k :: k in keys && of[k].child == id
    ensures |keys| == |ids|
    decreases |keys|
  {
    if keys == {} {
      assert ids == {};
    } else {
      var k :| k in keys;
      var id := of[k].child;
      forall j | j in ids - {id} ensures exists l :: l in keys - {k} && of[l].child == j {
        var l :| l in keys && of[l].child == j;
        assert l in keys - {k};
      }
      PairedOff(keys - {k}, ids - {id}, of);
    }
  }

  /** The stored counter is the size of the real tree: all invocations below the root by parent links. */
  lemma UsedCountsTheTree(t: Tree, root: Id)
    requires Reachable(t) && root in t.budgets
    ensures t.budgets[root].used == |set id | id in t.invocations && Below(t, root, id)| <= t.budgets[root].maxChildren
  {
    ReachableInv(t);
    assert Fine(t, OfBudget(root));
    var ids := set id | id in t.invocations && Below(t, root, id);
    var keys := UnderRoot(t.bindings, root);
    forall k | k in keys
      ensures t.bindings[k].child in ids && t.bindings[k].child in t.byChild && t.byChild[t.bindings[k].child] == k
    {
      assert Fine(t, OfBinding(k));
      BelowIsBound(t, root, t.bindings[k].child);
    }
    forall id | id in ids ensures exists k :: k in keys && t.bindings[k].child == id {
      BelowIsBound(t, root, id);
      assert Fine(t, OfChild(id));
      assert t.byChild[id] in keys;
    }
    PairedOff(keys, ids, t.bindings);
  }

  // ---------------------------------------------------------------- what a reservation does

  /** The limits that govern a root: those pinned, or the configured ones that its first reservation pins. */
  function LimitsOf(t: Tree, root: Id, op: Op): (int, int)
    requires op.Reserve?
  {
    if root in t.budgets then (t.budgets[root].maxDepth, t.budgets[root].maxChildren) else (op.maxDepth, op.maxChildren)
  }

  /** A caller with authority, admissible configuration and a fresh child id. */
  predicate Proper(t: Tree, op: Op) {
    && op.Reserve? && Enabled(t, op)
    && op.identity.operation == "run:workflow" && op.identity.fingerprint == op.handle.fingerprint && op.lease
    && op.child !in t.invocations && op.participant
    && 1 <= op.maxDepth <= 64 && 1 <= op.maxChildren <= 100_000
  }

  /** A new child is admitted exactly while its depth and the root's tree are within the limits. */
  lemma ReserveExact(t: Tree, op: Op, n: nat, root: Id)
    requires Reachable(t) && Proper(t, op) && op.identity.key !in t.bindings
    requires RootedAt(t, op.identity.invocation, n, root)
    ensures
      var (depth, children) := LimitsOf(t, root, op);
      Apply(t, op).1 == if n + 1 <= depth && |UnderRoot(t.bindings, root)| < children then Ok(op.child)
                        else Err(Exhausted)
  {
    ReachableInv(t);
    var parent := op.identity.invocation;
    assert Fine(t, OfChild(parent)) && Fine(t, OfBudget(root));
    IndexedExists(t, op.child);
    if t.invocations[parent].parent.Some? {
      var key := t.byChild[parent];
      var a := t.bindings[key];
      assert Fine(t, OfBinding(key));
      ControlComplete(t, key, t.invocations[a.parent]);
      ControlSound(t, key, a, a.parent, t.invocations[a.parent]);
      RootUnique(t, parent, n, root, a.depth, a.root);
    } else {
      assert n == 0 && root == parent;
      if root !in t.budgets { NoneUnder(t, root); }
    }
  }

  lemma IndexedExists(t: Tree, id: Id)
    requires Inv(t)
    ensures id in t.byChild ==> id in t.invocations
  {
    assert Fine(t, OfChild(id));
    if id in t.byChild { assert Fine(t, OfBinding(t.byChild[id])); }
  }

  lemma NoneUnder(t: Tree, root: Id)
    requires Inv(t) && root !in t.budgets
    ensures UnderRoot(t.bindings, root) == {}
  {
    forall k | k in t.bindings ensures t.bindings[k].root != root { assert Fine(t, OfBinding(k)); }
  }

  /** The tables hold the binding that answers this request. */
  predicate Recorded(t: Tree, op: Op, answer: Answer)
    requires op.Reserve?
  {
    && op.identity.key in t.bindings
    && var b := t.bindings[op.identity.key];
       && answer == Ok(b.child) && b.parent == op.identity.invocation
       && b.request == Request(op.workflow.fingerprint, op.input) && b.source == op.workflow
       && b.taskReference == (if op.taskReference != "" then op.taskReference else op.identity.taskReference)
  }

  lemma ReserveRecords(t: Tree, op: Op)
    requires op.Reserve? && Apply(t, op).1.Ok?
    ensures Recorded(Apply(t, op).0, op, Apply(t, op).1)
    ensures op.identity.operation == "run:workflow" && op.identity.fingerprint == op.handle.fingerprint
  {
  }

  lemma RecordedRepeats(t: Tree, op: Op, answer: Answer)
    requires Inv(t) && op.Reserve? && Enabled(t, op) && Recorded(t, op, answer)
    requires op.identity.operation == "run:workflow" && op.identity.fingerprint == op.handle.fingerprint && op.lease
    ensures Apply(t, op) == (t, answer)
  {
    var b := t.bindings[op.identity.key];
    assert Fine(t, OfBinding(op.identity.key)) && Fine(t, OfBudget(b.root));
    assert op.identity.key in UnderRoot(t.bindings, b.root);
  }

  /** Repeating an admitted request at any later time, even after a crash, returns the same child and changes
      nothing. */
  lemma ReserveOnce(t: Tree, op: Op, ops: seq<Op>, again: Op)
    requires Inv(t) && op.Reserve? && Enabled(t, op) && Apply(t, op).1.Ok?
    requires Allowed(Apply(t, op).0, ops)
    requires again.Reserve? && Enabled(Run(Apply(t, op).0, ops), again)
    requires again.identity == op.identity && again.handle == op.handle && again.lease
    requires again.workflow == op.workflow && again.input == op.input && again.taskReference == op.taskReference
    ensures Apply(Run(Apply(t, op).0, ops), again) == (Run(Apply(t, op).0, ops), Apply(t, op).1)
  {
    var s := Apply(t, op).0;
    var u := Run(s, ops);
    ApplyKeeps(t, op);
    RunKeeps(s, ops);
    RunLater(s, ops);
    ReserveRecords(t, op);
    assert Recorded(u, again, Apply(t, op).1);
    RecordedRepeats(u, again, Apply(t, op).1);
  }

  // ---------------------------------------------------------------- the store

  class ChildWorkflowStore {
    var invocations: map<Id, Invocation>
    var bindings: map<nat, Binding>
    var byChild: map<Id, nat>
    var budgets: map<Id, Budget>
    var detached: set<nat>

    function Stored(): Tree reads this { Tree(invocations, bindings, byChild, budgets, detached) }

    constructor ()
      ensures Stored() == EMPTY
    {
      invocations, bindings, byChild, budgets, detached := map[], map[], map[], map[], {};
    }

    method FindAgain(identity: Identity, handle: Invocation, workflow: Workflow, input: Json, reference: string)
      returns (r: Answer)
      requires identity.key in bindings
      ensures r == Repeated(Stored(), bindings[identity.key], identity.invocation, handle, workflow, input, reference)
    {
      var b := bindings[identity.key];
      if b.parent != identity.invocation { return Err(Inconsistent); }
      if b.request != Request(workflow.fingerprint, input) || b.source != workflow { return Err(RequestChanged); }
      if b.taskReference != reference { return Err(RequestChanged); }
      if !VerifyAccepts(Stored(), b, identity.invocation, handle, workflow, input) { return Err(Inconsistent); }
      return Ok(b.child);
    }

    /** The root and depth of a new child, and the root's budget row on first use. */
    method PlaceChild(parent: Id, handle: Invocation, maxDepth: int, maxChildren: int)
      returns (ok: bool, root: Id, depth: int)
      modifies `budgets
      ensures
        match Place(old(Stored()), parent, handle, maxDepth, maxChildren)
        case None => !ok && budgets == old(budgets)
        case Some((placed, r, d)) => ok && Stored() == placed && root == r && depth == d
    {
      ok, root, depth := true, parent, 1;
      if handle.parent.None? {
        if parent !in budgets {
          budgets := budgets[parent := Budget(handle.fingerprint, maxDepth, maxChildren, 0,
                                              Policy(parent, handle.fingerprint, maxDepth, maxChildren))];
        }
      } else if parent !in byChild || byChild[parent] !in bindings
                || Some(bindings[byChild[parent]].parent) != handle.parent {
        ok := false;
      } else {
        var a := bindings[byChild[parent]];
        root, depth := a.root, a.depth + 1;
      }
    }

    method Reserve(identity: Identity, handle: Invocation, lease: bool, workflow: Workflow, input: Json,
                   taskReference: string, maxDepth: int, maxChildren: int, child: Id, session: string,
                   participant: bool) returns (r: Answer)
      modifies this
      ensures (Stored(), r)
              == Apply(old(Stored()),
                       Op.Reserve(identity, handle, lease, workflow, input, taskReference, maxDepth, maxChildren, child,
                                  session, participant))
    {
      var parent := identity.invocation;
      if identity.operation != "run:workflow" || identity.fingerprint != handle.fingerprint || !lease {
        return Err(NoAuthority);
      }
      var reference := if taskReference != "" then taskReference else identity.taskReference;
      if identity.key in bindings {
        r := FindAgain(identity, handle, workflow, input, reference);
        return;
      }
      // A transaction: the budget row stays only if everything after it succeeds.
      var saved := budgets;
      var ok, root, depth := PlaceChild(parent, handle, maxDepth, maxChildren);
      if !ok { return Err(Inconsistent); }
      if !BudgetOk(Stored(), root, 0) { budgets := saved; return Err(Inconsistent); }
      var budget := budgets[root];
      if depth > budget.maxDepth || budget.used >= budget.maxChildren { budgets := saved; return Err(Exhausted); }
      if child in invocations || child in byChild || !participant { budgets := saved; return Err(Inconsistent); }
      invocations := invocations[child := Invocation(Some(parent), Some(reference), handle.engine, handle.principal,
                                                     handle.user, session, workflow.fingerprint, workflow.name,
                                                     workflow.version, input, Running)];
      bindings := bindings[identity.key := Binding(root, parent, child, depth, Request(workflow.fingerprint, input),
                                                   workflow, reference)];
      byChild := byChild[child := identity.key];
      budgets := budgets[root := budget.(used := budget.used + 1)];
      return Ok(child);
    }

    /** Walks the recorded ancestors of a binding up to its root. */
    method VerifyControl(key: nat, b: Binding, parent: Id, handle: Invocation) returns (ok: bool)
      ensures ok <==> ControlAccepts(Stored(), key, b, parent, handle)
    {
      if key !in bindings || bindings[key] != b || b.depth < 1 { return false; }
      if !BudgetOk(Stored(), b.root, 1) || b.depth > budgets[b.root].maxDepth { return false; }
      if b.parent != parent || !ChildOk(Stored(), b) || !SameHandle(invocations[parent], handle) { return false; }
      var at, remaining := parent, b.depth - 1;
      while remaining != 0
        invariant remaining >= 0 && at in invocations
        invariant Climbs(Stored(), b, at, remaining) <==> Climbs(Stored(), b, parent, b.depth - 1)
        decreases remaining
      {
        if at !in byChild || byChild[at] !in bindings { return false; }
        var a := bindings[byChild[at]];
        if a.root != b.root || a.depth != remaining || Some(a.parent) != invocations[at].parent
           || Some(a.taskReference) != invocations[at].taskReference
        { return false; }
        if a.parent !in invocations { return false; }
        at, remaining := a.parent, remaining - 1;
      }
      return at == b.root && invocations[at].parent.None?;
    }

    method Enqueue(identity: Identity, handle: Invocation, lease: bool, workflow: Workflow, input: Json)
      returns (r: Answer)
      modifies this`detached
      ensures (Stored(), r) == Apply(old(Stored()), Op.Enqueue(identity, handle, lease, workflow, input))
    {
      if identity.key !in bindings || bindings[identity.key].parent != identity.invocation { return Err(Inconsistent); }
      var b := bindings[identity.key];
      if !VerifyAccepts(Stored(), b, identity.invocation, handle, workflow, input) || !lease {
        return Err(Inconsistent);
      }
      detached := detached + {identity.key};
      return Ok(b.child);
    }
  }
}
