/** The slots of an event schedule, seen from both sides: the trigger store binds a cycle (_event_triggers.py), and the
    schedule store keeps the row and its invocation (_schedule_store.py). */
module TriggerBinding {
  import opened Prelude
  import M = EventMatching
  import T = EventTriggers
  import opened Schedules
  import opened ScheduleLaws

  /** How one trigger names its cycles and writes their inputs, and the engine that runs them. */
  datatype Names = Names(schedule: ScheduleId, cycle: nat -> string, text: seq<M.Json> -> Json, engine: string)

  ghost predicate Lawful(v: Names) {
    && (forall n: nat :: v.cycle(n) != "")
    && (forall m: nat, n: nat :: v.cycle(m) == v.cycle(n) ==> m == n)
    && (forall a, b :: v.text(a) == v.text(b) ==> a == b)
  }

  function KeyOf(v: Names, n: nat): SlotKey { SlotKey(v.schedule, Trigger(v.cycle(n))) }

  /** The schedule's row for cycle `n` is the trigger's slot. */
  predicate SameRow(v: Names, s: State, slots: map<nat, T.Slot>, n: nat) {
    var key := KeyOf(v, n);
    && (n in slots <==> key in s.slots)
    && (n in slots ==>
          && s.slots[key].invocation == Some(slots[n].invocation) && s.slots[key].input == v.text(slots[n].input)
          && key in s.bindings && s.bindings[key].engine == v.engine)
  }

  ghost predicate SameRows(v: Names, s: State, slots: map<nat, T.Slot>) {
    forall n: nat :: SameRow(v, s, slots, n)
  }

  /** The schedule that a poll found active, and the request it makes for a finished cycle. */
  ghost predicate Asks(v: Names, s: State, op: Op, n: nat, input: seq<M.Json>) {
    && op.BindTrigger? && op.id == v.schedule && op.cycle == v.cycle(n) && op.input == v.text(input)
    && op.engine == v.engine && op.minted !in s.invocations
    && op.id in s.records && s.records[op.id].status.Active? && s.records[op.id].definition.profile.On?
    && op.fingerprint == Some(s.records[op.id].definition.fingerprint)
    && op.scope == Some(s.records[op.id].definition.scope)
  }

  /** A cycle bound before: the same invocation for the same input, and a refusal for any other. */
  lemma BoundBefore(cal: Calendar, v: Names, s: State, w: T.World, op: Op, n: nat, input: seq<M.Json>)
    requires Lawful(v) && Inv(cal, s) && SameRows(v, s, w.slots) && Asks(v, s, op, n, input) && n in w.slots
    ensures ApplyBindTrigger(s, op)
            == if w.slots[n].input == input then (s, Handle(w.slots[n].invocation)) else (s, Conflict)
  {
    assert SameRow(v, s, w.slots, n);
    assert Fine(cal, s, OfRecord(op.id)) && Fine(cal, s, OfSlot(KeyOf(v, n)));
  }

  /** A cycle bound now: a new row, and no other row changes. */
  lemma BoundNow(cal: Calendar, v: Names, s: State, w: T.World, op: Op, n: nat, input: seq<M.Json>)
    requires Lawful(v) && Inv(cal, s) && SameRows(v, s, w.slots) && Asks(v, s, op, n, input) && n !in w.slots
    ensures
      var (t, reply) := ApplyBindTrigger(s, op);
      && reply == Handle(op.minted) && KeyOf(v, n) in t.slots && KeyOf(v, n) in t.bindings
      && t.slots[KeyOf(v, n)].invocation == Some(op.minted) && t.slots[KeyOf(v, n)].input == op.input
      && t.bindings[KeyOf(v, n)].engine == v.engine
      && t.slots == s.slots[KeyOf(v, n) := t.slots[KeyOf(v, n)]]
      && t.bindings == s.bindings[KeyOf(v, n) := t.bindings[KeyOf(v, n)]]
  {
    assert SameRow(v, s, w.slots, n);
    assert Fine(cal, s, OfRecord(op.id)) && Fine(cal, s, OfRest(KeyOf(v, n), "", ""));
  }

  /** Binding a cycle is `bind_trigger_in_transaction` on the schedule's rows: one refuses when the other does, both
      answer with the same invocation, and the rows still agree. */
  lemma BindIsBindTrigger(cal: Calendar, v: Names, s: State, w: T.World, op: Op, n: nat, input: seq<M.Json>)
    requires Lawful(v) && Inv(cal, s) && SameRows(v, s, w.slots) && Asks(v, s, op, n, input)
    ensures
      var (t, reply) := ApplyBindTrigger(s, op);
      match T.Bind(w, n, input, op.minted)
      case None => t == s && reply == Conflict
      case Some((u, invocation)) => reply == Handle(invocation) && SameRows(v, t, u.slots)
  {
    if n in w.slots {
      BoundBefore(cal, v, s, w, op, n, input);
    } else {
      BoundNow(cal, v, s, w, op, n, input);
      var t, u := ApplyBindTrigger(s, op).0, T.Bind(w, n, input, op.minted).value.0;
      forall m: nat ensures SameRow(v, t, u.slots, m) { assert SameRow(v, s, w.slots, m); }
    }
  }

  /** Bindings are never taken back. */
  lemma BindingsStay(cal: Calendar, s: State, op: Op, key: SlotKey)
    requires key in s.bindings
    ensures key in Apply(cal, s, op).0.bindings && Apply(cal, s, op).0.bindings[key] == s.bindings[key]
  {
    match op {
      case Create(_, _, _, _) =>
      case ClaimDue(_, _, _, _, _, _, _) => ClaimBindings(cal, s, op);
      case Bind(_, _, _, _) => BindBindings(s, op, key);
      case BindTrigger(_, _, _, _, _, _, _, _) => TriggerBindings(s, op, key);
      case Renew(_, _, _) =>
      case MarkWaiting(_, _) =>
      case Finish(_, _, _, _, _) => if ApplyFinish(cal, s, op).0 != s { FinishFinishes(cal, s, op); }
      case Cancel(_) =>
      case Progress(_, _, _) =>
    }
  }

  lemma BindBindings(s: State, op: Op, key: SlotKey)
    requires op.Bind? && key in s.bindings
    ensures key in ApplyBind(s, op).0.bindings && ApplyBind(s, op).0.bindings[key] == s.bindings[key]
  {
  }

  lemma TriggerBindings(s: State, op: Op, key: SlotKey)
    requires op.BindTrigger? && key in s.bindings
    ensures key in ApplyBindTrigger(s, op).0.bindings && ApplyBindTrigger(s, op).0.bindings[key] == s.bindings[key]
  {
  }

  lemma ClaimBindings(cal: Calendar, s: State, op: Op)
    requires op.ClaimDue?
    ensures ApplyClaim(cal, s, op).0.bindings == s.bindings
  {
  }

  /** No other call opens a slot for a cycle. */
  lemma NoNewTrigger(cal: Calendar, s: State, op: Op, key: SlotKey)
    requires Inv(cal, s) && Enabled(s, op) && key.occurrence.Trigger? && key !in s.slots
    requires !(op.BindTrigger? && op.id == key.schedule)
    ensures key !in Apply(cal, s, op).0.slots
  {
    if !Touched(cal, s, op, key) {
      UntouchedSame(cal, s, op, key);
    } else if op.ClaimDue? {
      ClaimedSlot(cal, s, op);
    }
  }

  /** Every other call of the schedule store leaves the rows as the trigger knows them. */
  lemma RowsStay(cal: Calendar, v: Names, s: State, slots: map<nat, T.Slot>, op: Op)
    requires Inv(cal, s) && Enabled(s, op) && SameRows(v, s, slots) && !(op.BindTrigger? && op.id == v.schedule)
    ensures SameRows(v, Apply(cal, s, op).0, slots)
  {
    forall n: nat ensures SameRow(v, Apply(cal, s, op).0, slots, n) {
      var key := KeyOf(v, n);
      assert SameRow(v, s, slots, n);
      if n in slots {
        ApplyLater(cal, s, op, key);
        BindingsStay(cal, s, op, key);
      } else {
        NoNewTrigger(cal, s, op, key);
      }
    }
  }

  // ---------------------------------------------------------------- over runs

  /** What one call of the schedule store means to the trigger: a bound cycle, or nothing. */
  ghost predicate Follows(v: Names, s: State, op: Op, w: T.World, u: T.World) {
    if op.BindTrigger? && op.id == v.schedule then
      exists n: nat, input :: Asks(v, s, op, n, input) && Binds(w, u, n, input, op.minted)
    else u.slots == w.slots
  }

  /** A refused binding fails the whole transaction. */
  predicate Binds(w: T.World, u: T.World, n: nat, input: seq<M.Json>, minted: string) {
    match T.Bind(w, n, input, minted)
    case None => u.slots == w.slots
    case Some((bound, _)) => u.slots == bound.slots
  }

  lemma StepAgrees(cal: Calendar, v: Names, s: State, op: Op, w: T.World, u: T.World)
    requires Lawful(v) && Inv(cal, s) && Enabled(s, op) && SameRows(v, s, w.slots) && Follows(v, s, op, w, u)
    ensures SameRows(v, Apply(cal, s, op).0, u.slots)
  {
    if op.BindTrigger? && op.id == v.schedule {
      var n: nat, input :| Asks(v, s, op, n, input) && Binds(w, u, n, input, op.minted);
      BindIsBindTrigger(cal, v, s, w, op, n, input);
    } else {
      RowsStay(cal, v, s, w.slots, op);
    }
  }

  /** Throughout any run of the schedule store, whatever else it does, the trigger's slots are the schedule's rows. */
  lemma {:induction false} RowsAgree(cal: Calendar, v: Names, ss: seq<State>, ops: seq<Op>, ws: seq<T.World>, i: nat)
    requires Lawful(v) && Run(cal, ss, ops) && |ws| == |ss| && ws[0].slots == map[] && i <= |ops|
    requires forall k :: 0 <= k < |ops| ==> Follows(v, ss[k], ops[k], ws[k], ws[k + 1])
    ensures SameRows(v, ss[i], ws[i].slots)
    decreases i
  {
    if i > 0 {
      RowsAgree(cal, v, ss, ops, ws, i - 1);
      RunKeeps(cal, ss, ops, i - 1);
      assert Stepped(cal, ss, ops, i - 1);
      assert Follows(v, ss[i - 1], ops[i - 1], ws[i - 1], ws[i]);
      StepAgrees(cal, v, ss[i - 1], ops[i - 1], ws[i - 1], ws[i]);
    }
  }

  /** So a bound cycle keeps its slot and its one invocation, as the schedule's binding does. */
  lemma CycleIsForever(cal: Calendar, v: Names, ss: seq<State>, ops: seq<Op>, ws: seq<T.World>, i: nat, j: nat, n: nat,
                       m: nat)
    requires Lawful(v) && Run(cal, ss, ops) && |ws| == |ss| && ws[0].slots == map[] && i <= j <= |ops|
    requires forall k :: 0 <= k < |ops| ==> Follows(v, ss[k], ops[k], ws[k], ws[k + 1])
    requires n in ws[i].slots
    ensures n in ws[j].slots && ws[j].slots[n].invocation == ws[i].slots[n].invocation
    ensures m in ws[j].slots && ws[j].slots[m].invocation == ws[i].slots[n].invocation ==> m == n
  {
    RowsAgree(cal, v, ss, ops, ws, i);
    RowsAgree(cal, v, ss, ops, ws, j);
    assert SameRow(v, ss[i], ws[i].slots, n);
    assert SameRow(v, ss[j], ws[j].slots, n) && SameRow(v, ss[j], ws[j].slots, m);
    BindingIsForever(cal, ss, ops, i, j, KeyOf(v, n), KeyOf(v, m));
  }
}
