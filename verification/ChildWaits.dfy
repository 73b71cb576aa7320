/** Durable decisions about awaited children: admit, wake, consume (child_waits.py).

    Rows and policy receipts are keyed by the run identity. Digests are the values they digest, and a captured
    child outcome is the child's whole terminal record. */
module ChildWaits {
  import opened Prelude
  import opened ChildTree
  import opened Paging

  datatype Suspension = Suspension(identity: Identity, child: Id, request: Request, deadline: Option<int>)

  datatype Admission = Admission(suspension: Suspension, source: Json)

  datatype WaitState = Pending | Woken | Consumed

  datatype Wait = Wait(
    invocation: Id,
    fingerprint: string,
    child: Id,
    engine: string,
    deadline: Option<int>,
    admission: Admission,
    state: WaitState)

  datatype Reason = ChildTerminal | Deadline

  datatype WakeValue = WakeValue(key: nat, child: Id, request: Request, deadline: Option<int>, reason: Reason)

  /** A wake receipt; `outcome` is the child record it depends on. */
  datatype Wake = Wake(admission: Admission, value: WakeValue, outcome: Option<Invocation>)

  datatype World = World(tree: Tree, waits: map<nat, Wait>, arms: map<nat, Admission>, wakes: map<nat, Wake>)

  // ---------------------------------------------------------------- the checks

  /** `_verify_child`. */
  predicate VerifyChild(t: Tree, s: Suspension, engine: string) {
    && s.identity.key in t.bindings
    && var b := t.bindings[s.identity.key];
       && BudgetOk(t, b.root, 1)
       && 1 <= b.depth <= t.budgets[b.root].maxDepth
       && b.parent == s.identity.invocation && b.child == s.child
       && b.parent in t.invocations && b.child in t.invocations
       && var p, c := t.invocations[b.parent], t.invocations[b.child];
          && p.fingerprint == s.identity.fingerprint && p.engine == engine
          && c.engine == p.engine && c.parent == Some(b.parent) && c.taskReference == Some(b.taskReference)
          && c.principal == p.principal && c.user == p.user
          && c.name == b.source.name && c.version == b.source.version
          && b.request == s.request && Request(c.fingerprint, c.input) == b.request
  }

  /** `_registration` accepts the row stored under `key`. */
  predicate RowAccepted(w: World, key: nat) {
    && key in w.waits
    && var row := w.waits[key];
       var s := row.admission.suspension;
       && s.identity.key == key
       && row.invocation == s.identity.invocation && row.fingerprint == s.identity.fingerprint && row.child == s.child
       && row.deadline == s.deadline
       && key in w.arms && w.arms[key] == row.admission
       && (row.state != Pending <==> key in w.wakes)
       && VerifyChild(w.tree, s, row.engine)
  }

  /** `_wake_value` accepts this receipt for this admission. */
  predicate WakeAccepted(t: Tree, a: Admission, wake: Wake) {
    var s := a.suspension;
    && wake.admission == a
    && wake.value == WakeValue(s.identity.key, s.child, s.request, s.deadline, wake.value.reason)
    && match wake.value.reason
       case ChildTerminal =>
         s.child in t.invocations && wake.outcome == Some(t.invocations[s.child])
         && Terminal(t.invocations[s.child].status)
       case Deadline => s.deadline.Some? && wake.outcome.None?
  }

  // ---------------------------------------------------------------- calls

  datatype Op =
    | Arm(identity: Identity, lease: bool, child: Id, source: Json, deadline: Option<int>)
    | WakeUp(identity: Identity, known: Admission, lease: bool, now: int)
    | Consume(identity: Identity, known: Admission, lease: bool)
    | Elsewhere(step: ChildTree.Op)

  datatype Reply = Admitted(admission: Admission) | Resolved(value: WakeValue) | Asleep | Done | Refused

  /** `_authority`: a run identity under its own parent's lease. */
  predicate Authorised(t: Tree, identity: Identity, lease: bool) {
    && identity.operation == "run:workflow" && lease
    && identity.invocation in t.invocations && t.invocations[identity.invocation].fingerprint == identity.fingerprint
  }

  function ApplyArm(w: World, identity: Identity, lease: bool, child: Id, source: Json,
                    deadline: Option<int>): (World, Reply) {
    if !Authorised(w.tree, identity, lease) || identity.key !in w.tree.bindings then (w, Refused)
    else if child == identity.invocation || (deadline.Some? && deadline.value <= 0) then (w, Refused)
    else
      var s := Suspension(identity, child, w.tree.bindings[identity.key].request, deadline);
      var a := Admission(s, source);
      var engine := w.tree.invocations[identity.invocation].engine;
      if !VerifyChild(w.tree, s, engine) then (w, Refused)
      else if identity.key in w.waits then
        if RowAccepted(w, identity.key) && w.waits[identity.key].admission == a then (w, Admitted(a)) else (w, Refused)
      else if identity.key in w.arms then (w, Refused)
      else
        var row := Wait(identity.invocation, identity.fingerprint, child, engine, deadline, a, Pending);
        var u := w.(waits := w.waits[identity.key := row], arms := w.arms[identity.key := a]);
        if RowAccepted(u, identity.key) then (u, Admitted(a)) else (w, Refused)
  }

  function ApplyWake(w: World, identity: Identity, known: Admission, lease: bool, now: int): (World, Reply) {
    if !Authorised(w.tree, identity, lease) || now <= 0 then (w, Refused)
    else if !RowAccepted(w, identity.key) || w.waits[identity.key].admission != known then (w, Refused)
    else if identity.key in w.wakes then
      var wake := w.wakes[identity.key];
      (w, if WakeAccepted(w.tree, known, wake) then Resolved(wake.value) else Refused)
    else
      var s := known.suspension;
      var child := w.tree.invocations[s.child];
      var ended := Terminal(child.status);
      if !ended && (s.deadline.None? || now < s.deadline.value) then (w, Asleep)
      else
        var value := WakeValue(identity.key, s.child, s.request, s.deadline, if ended then ChildTerminal else Deadline);
        var row := w.waits[identity.key];
        (w.(wakes := w.wakes[identity.key := Wake(known, value, if ended then Some(child) else None)],
            waits := w.waits[identity.key := if row.state == Pending then row.(state := Woken) else row]),
         Resolved(value))
  }

  function ApplyConsume(w: World, identity: Identity, known: Admission, lease: bool): (World, Reply) {
    if !Authorised(w.tree, identity, lease) then (w, Refused)
    else if !RowAccepted(w, identity.key) || w.waits[identity.key].admission != known || identity.key !in w.wakes
    then (w, Refused)
    else if !WakeAccepted(w.tree, known, w.wakes[identity.key]) then (w, Refused)
    else (w.(waits := w.waits[identity.key := w.waits[identity.key].(state := Consumed)]), Done)
  }

  function Step(w: World, op: Op): (World, Reply) {
    match op
    case Arm(identity, lease, child, source, deadline) => ApplyArm(w, identity, lease, child, source, deadline)
    case WakeUp(identity, known, lease, now) => ApplyWake(w, identity, known, lease, now)
    case Consume(identity, known, lease) => ApplyConsume(w, identity, known, lease)
    case Elsewhere(step) => (w.(tree := ChildTree.Apply(w.tree, step).0), Done)
  }

  predicate Enabled(w: World, op: Op) { op.Elsewhere? ==> ChildTree.Enabled(w.tree, op.step) }

  // ---------------------------------------------------------------- the invariant

  /** What stays true of an admitted suspension, whatever else happens to the tree. */
  predicate Linked(t: Tree, s: Suspension, engine: string) {
    && s.identity.key in t.bindings
    && var b := t.bindings[s.identity.key];
       && b.parent == s.identity.invocation && b.child == s.child && b.request == s.request
       && b.parent in t.invocations
       && t.invocations[b.parent].fingerprint == s.identity.fingerprint && t.invocations[b.parent].engine == engine
  }

  /** On honest tables those facts are all that `_verify_child` needs. */
  lemma LinkedVerifies(t: Tree, s: Suspension, engine: string)
    requires Inv(t)
    ensures Linked(t, s, engine) <==> VerifyChild(t, s, engine)
  {
    if Linked(t, s, engine) {
      var b := t.bindings[s.identity.key];
      assert Fine(t, OfBinding(s.identity.key)) && Fine(t, OfBudget(b.root));
      assert s.identity.key in UnderRoot(t.bindings, b.root);
    }
  }

  predicate RowFine(w: World, key: nat) {
    && (key in w.waits <==> key in w.arms)
    && (key in w.wakes ==> key in w.waits)
    && (key in w.waits ==>
          var row := w.waits[key];
          var s := row.admission.suspension;
          && s.identity.key == key && s.identity.operation == "run:workflow" && w.arms[key] == row.admission
          && row.invocation == s.identity.invocation && row.fingerprint == s.identity.fingerprint
          && row.child == s.child
          && row.deadline == s.deadline
          && (row.state != Pending <==> key in w.wakes)
          && Linked(w.tree, s, row.engine)
          && (key in w.wakes ==> WakeAccepted(w.tree, row.admission, w.wakes[key])))
  }

  ghost predicate WInv(w: World) {
    Inv(w.tree) && forall key :: RowFine(w, key)
  }

  lemma ElsewhereKeeps(w: World, step: ChildTree.Op, key: nat)
    requires WInv(w) && ChildTree.Enabled(w.tree, step)
    ensures RowFine(Step(w, Elsewhere(step)).0, key)
  {
    assert RowFine(w, key);
    ApplyLater(w.tree, step);
    EndedStays(w.tree, step);
  }

  /** An ended invocation's record never changes again. */
  lemma EndedStays(t: Tree, step: ChildTree.Op)
    ensures forall i :: i in t.invocations && Terminal(t.invocations[i].status) ==>
                          i in ChildTree.Apply(t, step).0.invocations
                          && ChildTree.Apply(t, step).0.invocations[i] == t.invocations[i]
  {
  }

  lemma ArmKeeps(w: World, op: Op, key: nat)
    requires WInv(w) && op.Arm?
    ensures RowFine(Step(w, op).0, key)
  {
    assert RowFine(w, key);
  }

  lemma WakeKeeps(w: World, op: Op, key: nat)
    requires WInv(w) && op.WakeUp?
    ensures RowFine(Step(w, op).0, key)
  {
    assert RowFine(w, key);
  }

  lemma ConsumeKeeps(w: World, op: Op, key: nat)
    requires WInv(w) && op.Consume?
    ensures RowFine(Step(w, op).0, key)
  {
    assert RowFine(w, key);
  }

  lemma StepKeeps(w: World, op: Op)
    requires WInv(w) && Enabled(w, op)
    ensures WInv(Step(w, op).0)
  {
    match op {
      case Arm(_, _, _, _, _) => forall key ensures RowFine(Step(w, op).0, key) { ArmKeeps(w, op, key); }
      case WakeUp(_, _, _, _) => forall key ensures RowFine(Step(w, op).0, key) { WakeKeeps(w, op, key); }
      case Consume(_, _, _) => forall key ensures RowFine(Step(w, op).0, key) { ConsumeKeeps(w, op, key); }
      case Elsewhere(step) =>
        ApplyKeeps(w.tree, step);
        forall key ensures RowFine(Step(w, op).0, key) { ElsewhereKeeps(w, step, key); }
    }
  }

  // ---------------------------------------------------------------- whole runs

  function Run(w: World, ops: seq<Op>): World
    decreases |ops|
  {
    if ops == [] then w else Run(Step(w, ops[0]).0, ops[1..])
  }

  predicate Allowed(w: World, ops: seq<Op>)
    decreases |ops|
  {
    ops == [] || (Enabled(w, ops[0]) && Allowed(Step(w, ops[0]).0, ops[1..]))
  }

  const START := World(ChildTree.EMPTY, map[], map[], map[])

  lemma StartInv()
    ensures WInv(START)
  {
    assert forall x :: Fine(ChildTree.EMPTY, x);
  }

  lemma {:induction false} RunKeeps(w: World, ops: seq<Op>)
    requires WInv(w) && Allowed(w, ops)
    ensures WInv(Run(w, ops))
    decreases |ops|
  {
    if ops != [] {
      StepKeeps(w, ops[0]);
      RunKeeps(Step(w, ops[0]).0, ops[1..]);
    }
  }

  /** Every reachable row and wake passes the store's own checks; a wake exists exactly for woken and consumed rows. */
  lemma RowsAccepted(ops: seq<Op>, key: nat)
    requires Allowed(START, ops)
    ensures
      var w := Run(START, ops);
      && (key in w.waits ==> RowAccepted(w, key))
      && (key in w.wakes <==> key in w.waits && w.waits[key].state != Pending)
      && (key in w.wakes ==> WakeAccepted(w.tree, w.waits[key].admission, w.wakes[key]))
  {
    StartInv();
    RunKeeps(START, ops);
    var w := Run(START, ops);
    assert RowFine(w, key);
    if key in w.waits { LinkedVerifies(w.tree, w.waits[key].admission.suspension, w.waits[key].engine); }
  }

  /** `u` may follow `w`: rows keep everything but their state, which only advances, and receipts are written once. */
  predicate Advanced(w: World, u: World, key: nat) {
    && (key in w.waits ==> key in u.waits && u.waits[key] == w.waits[key].(state := u.waits[key].state)
                           && Rank(w.waits[key].state) <= Rank(u.waits[key].state))
    && (key in w.arms ==> key in u.arms && u.arms[key] == w.arms[key])
    && (key in w.wakes ==> key in u.wakes && u.wakes[key] == w.wakes[key])
  }

  function Rank(s: WaitState): nat {
    match s case Pending => 0 case Woken => 1 case Consumed => 2
  }

  predicate AtMostOne(w: World, u: World, key: nat) {
    key in w.waits && key in u.waits ==> Rank(u.waits[key].state) <= Rank(w.waits[key].state) + 1
  }

  lemma WakeAdvances(w: World, op: Op, key: nat)
    requires RowFine(w, key) && op.WakeUp?
    ensures Advanced(w, Step(w, op).0, key) && AtMostOne(w, Step(w, op).0, key)
  {
    var u := ApplyWake(w, op.identity, op.known, op.lease, op.now).0;
    if key != op.identity.key || u == w {
      assert key in w.waits ==> u.waits[key] == w.waits[key];
    }
  }

  /** One step moves a row's state by at most one place. */
  lemma StepAdvances(w: World, op: Op, key: nat)
    requires WInv(w)
    ensures Advanced(w, Step(w, op).0, key) && AtMostOne(w, Step(w, op).0, key)
  {
    assert RowFine(w, key);
    match op {
      case Arm(_, _, _, _, _) =>
      case WakeUp(_, _, _, _) => WakeAdvances(w, op, key);
      case Consume(_, _, _) =>
      case Elsewhere(_) =>
    }
  }

  lemma {:induction false} RunAdvances(w: World, ops: seq<Op>, key: nat)
    requires WInv(w) && Allowed(w, ops)
    ensures Advanced(w, Run(w, ops), key)
    decreases |ops|
  {
    if ops != [] {
      StepKeeps(w, ops[0]);
      StepAdvances(w, ops[0], key);
      RunAdvances(Step(w, ops[0]).0, ops[1..], key);
    }
  }

  /** The wake step that decides `wake` in state `w`: by outcome if the child had ended, else only at or after the
      deadline. */
  predicate Decides(w: World, op: Op, key: nat, wake: Wake) {
    && op.WakeUp? && op.identity.key == key && op.now > 0 && key !in w.wakes && key in w.waits
    && var s := w.waits[key].admission.suspension;
       && s.child in w.tree.invocations
       && match wake.value.reason
          case ChildTerminal =>
            Terminal(w.tree.invocations[s.child].status) && wake.outcome == Some(w.tree.invocations[s.child])
          case Deadline =>
            !Terminal(w.tree.invocations[s.child].status) && s.deadline.Some? && s.deadline.value <= op.now
  }

  lemma StepDecides(w: World, op: Op, key: nat)
    requires WInv(w) && key !in w.wakes && key in Step(w, op).0.wakes
    ensures Decides(w, op, key, Step(w, op).0.wakes[key])
  {
    assert RowFine(w, key);
    match op {
      case Arm(_, _, _, _, _) =>
      case WakeUp(_, _, _, _) =>
      case Consume(_, _, _) =>
      case Elsewhere(_) =>
    }
  }

  lemma RunSplit(w: World, op: Op, ops: seq<Op>, n: nat)
    requires n <= |ops|
    ensures Run(w, ([op] + ops)[..n + 1]) == Run(Step(w, op).0, ops[..n])
  {
    assert ([op] + ops)[..n + 1][1..] == ops[..n];
  }

  /** Every wake in a reachable state was decided at one step of the run, by the facts of that moment. */
  lemma {:induction false} WakeHasCause(w: World, ops: seq<Op>, key: nat) returns (n: nat)
    requires WInv(w) && Allowed(w, ops) && key !in w.wakes && key in Run(w, ops).wakes
    ensures n < |ops| && Decides(Run(w, ops[..n]), ops[n], key, Run(w, ops).wakes[key])
    decreases |ops|
  {
    var v := Step(w, ops[0]).0;
    StepKeeps(w, ops[0]);
    if key in v.wakes {
      StepDecides(w, ops[0], key);
      RunAdvances(v, ops[1..], key);
      n := 0;
    } else {
      var m := WakeHasCause(v, ops[1..], key);
      RunSplit(w, ops[0], ops[1..], m);
      assert [ops[0]] + ops[1..] == ops;
      n := m + 1;
    }
  }

  // ---------------------------------------------------------------- the scan

  /** A row the scan reports: its parent is live and it has been woken, or its child has ended, or its deadline has
      come. */
  predicate Due(w: World, engine: string, now: int, key: nat) {
    && key in w.waits
    && var row := w.waits[key];
       && row.engine == engine && row.state != Consumed
       && row.invocation in w.tree.invocations && !Terminal(w.tree.invocations[row.invocation].status)
       && (|| row.state == Woken
           || row.child !in w.tree.invocations
           || Terminal(w.tree.invocations[row.child].status)
           || (row.deadline.Some? && row.deadline.value <= now))
  }

  function DueKeys(w: World, engine: string, now: int): set<nat> {
    set key | key in w.waits && Due(w, engine, now, key)
  }

  /** For a live parent of this engine, the scan reports exactly the unconsumed waits that `wake` would resolve now. */
  lemma ScanFindsWakes(w: World, key: nat, now: int)
    requires WInv(w) && key in w.waits && w.waits[key].state != Consumed && now > 0
    requires
      var p := w.waits[key].invocation;
      p in w.tree.invocations && !Terminal(w.tree.invocations[p].status)
    ensures
      var a := w.waits[key].admission;
      key in DueKeys(w, w.waits[key].engine, now) <==> Step(w, WakeUp(a.suspension.identity, a, true, now)).1.Resolved?
  {
    assert RowFine(w, key);
    LinkedVerifies(w.tree, w.waits[key].admission.suspension, w.waits[key].engine);
  }

  // ---------------------------------------------------------------- the store

  class ChildWaitStore {
    var tree: Tree
    var waits: map<nat, Wait>
    var arms: map<nat, Admission>
    var wakes: map<nat, Wake>

    function Stored(): World reads this { World(tree, waits, arms, wakes) }

    constructor ()
      ensures Stored() == START
    {
      tree, waits, arms, wakes := ChildTree.EMPTY, map[], map[], map[];
    }

    method ArmWait(identity: Identity, lease: bool, child: Id, source: Json, deadline: Option<int>) returns (r: Reply)
      modifies this
      ensures (Stored(), r) == Step(old(Stored()), Arm(identity, lease, child, source, deadline))
    {
      if !Authorised(tree, identity, lease) || identity.key !in tree.bindings { return Refused; }
      if child == identity.invocation || (deadline.Some? && deadline.value <= 0) { return Refused; }
      var s := Suspension(identity, child, tree.bindings[identity.key].request, deadline);
      var a := Admission(s, source);
      var engine := tree.invocations[identity.invocation].engine;
      if !VerifyChild(tree, s, engine) { return Refused; }
      if identity.key in waits {
        if !RowAccepted(Stored(), identity.key) { return Refused; }
        return if waits[identity.key].admission == a then Admitted(a) else Refused;
      }
      if identity.key in arms { return Refused; }
      var saved, receipts := waits, arms;
      waits := waits[identity.key := Wait(identity.invocation, identity.fingerprint, child, engine, deadline, a,
                                          Pending)];
      arms := arms[identity.key := a];
      if !RowAccepted(Stored(), identity.key) {
        waits, arms := saved, receipts;
        return Refused;
      }
      return Admitted(a);
    }

    method WakeWait(identity: Identity, known: Admission, lease: bool, now: int) returns (r: Reply)
      modifies this
      ensures (Stored(), r) == Step(old(Stored()), WakeUp(identity, known, lease, now))
    {
      if !Authorised(tree, identity, lease) || now <= 0 { return Refused; }
      if !RowAccepted(Stored(), identity.key) || waits[identity.key].admission != known { return Refused; }
      if identity.key in wakes {
        return if WakeAccepted(tree, known, wakes[identity.key]) then Resolved(wakes[identity.key].value) else Refused;
      }
      var child, deadline := tree.invocations[known.suspension.child], known.suspension.deadline;
      var ended := Terminal(child.status);
      if !ended && (deadline.None? || now < deadline.value) { return Asleep; }
      var value := WakeValue(identity.key, known.suspension.child, known.suspension.request, deadline,
                             if ended then ChildTerminal else Deadline);
      wakes := wakes[identity.key := Wake(known, value, if ended then Some(child) else None)];
      var row := waits[identity.key];
      if row.state == Pending { waits := waits[identity.key := row.(state := Woken)]; }
      return Resolved(value);
    }

    method ConsumeWait(identity: Identity, known: Admission, lease: bool) returns (r: Reply)
      modifies this
      ensures (Stored(), r) == Step(old(Stored()), Consume(identity, known, lease))
    {
      if !Authorised(tree, identity, lease) { return Refused; }
      if !RowAccepted(Stored(), identity.key) || waits[identity.key].admission != known { return Refused; }
      if identity.key !in wakes || !WakeAccepted(tree, known, wakes[identity.key]) { return Refused; }
      waits := waits[identity.key := waits[identity.key].(state := Consumed)];
      return Done;
    }

    /** One page of due waits in key order, or an error for bounds out of range. */
    method PendingKeys(engine: string, now: int, after: Option<nat>, limit: int) returns (r: Option<seq<nat>>)
      ensures r.None? <==> !(1 <= limit <= 1000) || now <= 0
      ensures r.Some? ==> IsPage(Above(DueKeys(Stored(), engine, now), after), limit, r.value)
    {
      if limit < 1 || limit > 1000 || now <= 0 { return None; }
      var page := SelectPage(Above(DueKeys(Stored(), engine, now), after), limit);
      return Some(page);
    }
  }
}
