/** What every run of the schedule store keeps: the occurrence ledger, the fencing of claims, and the slot
    bindings. */
module ScheduleLaws {
  import opened Prelude
  import opened Schedules

  // ---------------------------------------------------------------- the invariant

  ghost predicate NoneOpen(s: State, id: ScheduleId) {
    forall o :: SlotKey(id, o) in s.slots ==> !Open(s.slots[SlotKey(id, o)])
  }

  /** The ledger of one schedule. A timed schedule has exactly the slots 1 to nextSequence - 1, a periodic one
      is due at its next nominal instant, and an active "after" schedule is due exactly when nothing is open. */
  ghost predicate RecordFine(cal: Calendar, s: State, id: ScheduleId) {
    id in s.records ==>
      var r := s.records[id];
      && id in s.origin
      && Readable(s, id)
      && r.nextSequence >= 1
      && (r.definition.profile.On? ==> r.nextRunAt == 0.0)
      && (Periodic(r.definition) ==>
            r.nextRunAt > 0.0 && Nominal(cal, r.definition, s.origin[id], r.nextSequence) == Some(r.nextRunAt))
      && (r.definition.profile.After? && r.status.Active? ==> (r.nextRunAt > 0.0 <==> NoneOpen(s, id)))
  }

  ghost predicate SlotFine(cal: Calendar, s: State, key: SlotKey) {
    key in s.slots ==>
      && key.schedule in s.records && key.schedule in s.origin
      && var slot, r := s.slots[key], s.records[key.schedule];
         && (key.occurrence.Trigger? <==> r.definition.profile.On?)
         && (Open(slot) ==> r.status.Active?)
         && (Periodic(r.definition) && key.occurrence.Nth? ==>
               Nominal(cal, r.definition, s.origin[key.schedule], key.occurrence.n) == Some(slot.nominalAt))
         && (if slot.invocation.Some? then BindingOk(s, key) else key !in s.bindings)
         && (slot.leaseUntil.Some? ==> Open(slot))
         && (!Open(slot) && r.status.Active? ==> slot.invocation.Some?)
  }

  /** An "after" schedule never has two unfinished slots. */
  predicate OneOpen(s: State, k: SlotKey, l: SlotKey) {
    (k in s.slots && l in s.slots && k.schedule == l.schedule && k.schedule in s.records
     && s.records[k.schedule].definition.profile.After? && Open(s.slots[k]) && Open(s.slots[l]))
    ==> k == l
  }

  /** No two slots share an invocation. */
  predicate OwnInvocation(s: State, k: SlotKey, l: SlotKey) {
    (k in s.slots && l in s.slots && s.slots[k].invocation.Some? && s.slots[k].invocation == s.slots[l].invocation) ==>
        k == l
  }

  /** Every claim handed out names a slot, of a generation that slot has reached. */
  predicate Reached(s: State, c: Claim) {
    c in s.issued ==> c.key in s.slots && c.generation <= s.slots[c.key].generation
  }

  predicate TailFine(s: State, key: SlotKey, operation: string, i: InvocationId) {
    && (key in s.bindings ==> key in s.slots)
    && (operation in s.operations ==> s.operations[operation] in s.records)
    && (i in s.invocations && s.invocations[i].status.Over? ==> s.invocations[i].status.completedAt >= 0.0)
  }

  /** What the invariant says about one row, one pair of rows, or one claim. */
  datatype Probe =
    | OfRecord(id: ScheduleId)
    | OfSlot(key: SlotKey)
    | OfSlots(k: SlotKey, l: SlotKey)
    | OfClaim(c: Claim)
    | OfRest(key: SlotKey, operation: string, i: InvocationId)

  ghost predicate Fine(cal: Calendar, s: State, x: Probe) {
    match x
    case OfRecord(id) => RecordFine(cal, s, id)
    case OfSlot(key) => SlotFine(cal, s, key)
    case OfSlots(k, l) => OneOpen(s, k, l) && OwnInvocation(s, k, l)
    case OfClaim(c) => Reached(s, c)
    case OfRest(key, operation, i) => TailFine(s, key, operation, i)
  }

  ghost predicate Inv(cal: Calendar, s: State) {
    forall x :: Fine(cal, s, x)
  }

  // ---------------------------------------------------------------- every call keeps it

  lemma SameOpen(s: State, t: State, id: ScheduleId)
    requires forall o :: SlotKey(id, o) in s.slots <==> SlotKey(id, o) in t.slots
    requires forall o :: SlotKey(id, o) in s.slots ==>
             (Open(s.slots[SlotKey(id, o)]) <==> Open(t.slots[SlotKey(id, o)]))
    ensures NoneOpen(s, id) <==> NoneOpen(t, id)
  {
  }

  /** Changing owner, lease, generation or the state of an unfinished slot. */
  ghost predicate Touches(s: State, t: State, key: SlotKey, slot: Slot) {
    && key in s.slots && Open(s.slots[key]) && Open(slot)
    && slot.nominalAt == s.slots[key].nominalAt && slot.invocation == s.slots[key].invocation
    && slot.input == s.slots[key].input
    && slot.generation >= s.slots[key].generation
    && t == s.(slots := s.slots[key := slot], issued := t.issued)
    && (forall c :: c in t.issued && c !in s.issued ==> c.key == key && c.generation <= slot.generation)
  }

  lemma TouchKeeps(cal: Calendar, s: State, t: State, key: SlotKey, slot: Slot, x: Probe)
    requires Inv(cal, s) && Touches(s, t, key, slot)
    ensures Fine(cal, t, x)
  {
    assert Fine(cal, s, x);
    if x.OfRecord? { SameOpen(s, t, x.id); }
  }

  lemma ClaimedKeeps(cal: Calendar, s: State, key: SlotKey, claimant: string, until: real)
    requires Inv(cal, s) && key in s.slots && Open(s.slots[key])
    ensures Inv(cal, Claimed(s, key, claimant, until).0)
  {
    var t := Claimed(s, key, claimant, until).0;
    forall x ensures Fine(cal, t, x) { TouchKeeps(cal, s, t, key, t.slots[key], x); }
  }

  lemma OpenNextKeepsRecord(cal: Calendar, s: State, id: ScheduleId, next: real, other: ScheduleId)
    requires Inv(cal, s) && Opens(cal, s, id, next)
    ensures RecordFine(cal, OpenNext(s, id, next), other)
  {
    var t := OpenNext(s, id, next);
    assert Fine(cal, s, OfRecord(other)) && Fine(cal, s, OfRest(SlotKey(id, Nth(s.records[id].nextSequence)), "", ""));
    if other == id {
      assert Open(t.slots[SlotKey(id, Nth(s.records[id].nextSequence))]);
      forall o ensures SlotKey(other, o) in t.slots <==> o.Nth? && 1 <= o.n < t.records[other].nextSequence {}
    } else if other in s.records {
      forall o ensures SlotKey(other, o) in t.slots <==> SlotKey(other, o) in s.slots {}
      SameOpen(s, t, other);
    }
  }

  lemma OpenNextKeepsSlots(cal: Calendar, s: State, id: ScheduleId, next: real, k: SlotKey, l: SlotKey)
    requires Inv(cal, s) && Opens(cal, s, id, next)
    ensures OneOpen(OpenNext(s, id, next), k, l) && OwnInvocation(OpenNext(s, id, next), k, l)
  {
    assert Fine(cal, s, OfSlots(k, l)) && Fine(cal, s, OfRecord(id));
    if k in s.slots && k.schedule == id { assert SlotKey(id, k.occurrence) == k; }
    if l in s.slots && l.schedule == id { assert SlotKey(id, l.occurrence) == l; }
  }

  /** The due branch may open the next slot of this schedule. */
  predicate Opens(cal: Calendar, s: State, id: ScheduleId, next: real) {
    && id in s.records && s.records[id].status.Active? && s.records[id].nextRunAt > 0.0
    && NextRun(cal, s.records[id]) == Some(next)
  }

  lemma OpenNextKeeps(cal: Calendar, s: State, id: ScheduleId, next: real, x: Probe)
    requires Inv(cal, s) && Opens(cal, s, id, next)
    ensures Fine(cal, OpenNext(s, id, next), x)
    ensures SlotKey(id, Nth(s.records[id].nextSequence)) !in s.slots
  {
    assert Fine(cal, s, x) && Fine(cal, s, OfRecord(id))
           && Fine(cal, s, OfRest(SlotKey(id, Nth(s.records[id].nextSequence)), "", ""));
    match x {
      case OfRecord(other) => OpenNextKeepsRecord(cal, s, id, next, other);
      case OfSlots(k, l) => OpenNextKeepsSlots(cal, s, id, next, k, l);
      case _ =>
    }
  }

  /** The slot the recovery loop settles on was selected by the query, and if it waits on an invocation, that
      invocation is over. */
  lemma {:induction false} PickIsRecoverable(s: State, now: real, scan: seq<SlotKey>, eligible: InvocationId -> bool)
    requires forall i :: 0 <= i < |scan| ==> scan[i] in s.slots && Recoverable(s, scan[i], now)
    requires Pick(s, scan, eligible).Ok? && Pick(s, scan, eligible).value.Some?
    ensures
      var key := Pick(s, scan, eligible).value.value;
      && key in s.slots && Recoverable(s, key, now)
      && key.schedule in s.records && s.records[key.schedule].status.Active?
      && (s.slots[key].invocation.Some? ==>
          BoundFine(s, key) && !Unfinished(s, key) && eligible(s.slots[key].invocation.value))
  {
    if PassedOver(s, scan[0], eligible) { PickIsRecoverable(s, now, scan[1..], eligible); }
  }

  lemma ClaimNextKeeps(cal: Calendar, s: State, id: ScheduleId, claimant: string, until: real)
    requires Inv(cal, s) && id in s.records && s.records[id].status.Active? && s.records[id].nextRunAt > 0.0
    ensures Inv(cal, ClaimNext(cal, s, id, claimant, until).0)
  {
    var next, key := NextRun(cal, s.records[id]), SlotKey(id, Nth(s.records[id].nextSequence));
    if ClaimNext(cal, s, id, claimant, until).0 != s {
      var t := OpenNext(s, id, next.value);
      forall x ensures Fine(cal, t, x) { OpenNextKeeps(cal, s, id, next.value, x); }
      ClaimedKeeps(cal, t, key, claimant, until);
      assert ClaimNext(cal, s, id, claimant, until).0 == Claimed(t, key, claimant, until).0;
    }
  }

  lemma ClaimDueKeeps(cal: Calendar, s: State, op: Op)
    requires Inv(cal, s) && op.ClaimDue? && Enabled(s, op)
    ensures Inv(cal, ApplyClaim(cal, s, op).0)
  {
    var t, picked, until := ApplyClaim(cal, s, op).0, Pick(s, op.scan, op.eligible), op.now + op.lease;
    if t == s {
    } else if picked.value.Some? {
      PickIsRecoverable(s, op.now, op.scan, op.eligible);
      ClaimedKeeps(cal, s, picked.value.value, op.claimant, until);
      assert t == Claimed(s, picked.value.value, op.claimant, until).0;
    } else {
      ClaimNextKeeps(cal, s, op.due.value, op.claimant, until);
      assert t == ClaimNext(cal, s, op.due.value, op.claimant, until).0;
    }
  }

  /** Binding an open, unbound slot to a new invocation. */
  ghost predicate Binds(s: State, t: State, key: SlotKey) {
    && key in s.slots && key.schedule in s.records && s.slots[key].invocation.None? && Open(s.slots[key])
    && exists engine, minted :: minted !in s.invocations && key !in s.bindings && t == Bound(s, key, engine, minted).0
  }

  lemma BoundKeepsRecord(cal: Calendar, s: State, t: State, key: SlotKey, id: ScheduleId)
    requires Inv(cal, s) && Binds(s, t, key)
    ensures RecordFine(cal, t, id)
  {
    assert Fine(cal, s, OfRecord(id));
    SameOpen(s, t, id);
  }

  lemma BoundKeepsSlot(cal: Calendar, s: State, t: State, key: SlotKey, k: SlotKey)
    requires Inv(cal, s) && Binds(s, t, key)
    ensures SlotFine(cal, t, k)
  {
    assert Fine(cal, s, OfSlot(k));
  }

  lemma BoundKeepsSlots(cal: Calendar, s: State, t: State, key: SlotKey, k: SlotKey, l: SlotKey)
    requires Inv(cal, s) && Binds(s, t, key)
    ensures OneOpen(t, k, l) && OwnInvocation(t, k, l)
  {
    assert Fine(cal, s, OfSlots(k, l)) && Fine(cal, s, OfSlot(k)) && Fine(cal, s, OfSlot(l));
  }

  lemma BoundKeepsRest(cal: Calendar, s: State, t: State, key: SlotKey, x: Probe)
    requires Inv(cal, s) && Binds(s, t, key) && (x.OfClaim? || x.OfRest?)
    ensures Fine(cal, t, x)
  {
    assert Fine(cal, s, x);
  }

  lemma BoundKeeps(cal: Calendar, s: State, key: SlotKey, engine: string, minted: InvocationId, x: Probe)
    requires Inv(cal, s) && key in s.slots && key.schedule in s.records
    requires s.slots[key].invocation.None? ==> Open(s.slots[key])
    ensures Fine(cal, Bound(s, key, engine, minted).0, x)
  {
    var t := Bound(s, key, engine, minted).0;
    if s.slots[key].invocation.None? && minted !in s.invocations && key !in s.bindings {
      assert Binds(s, t, key);
      match x {
        case OfRecord(id) => BoundKeepsRecord(cal, s, t, key, id);
        case OfSlot(k) => BoundKeepsSlot(cal, s, t, key, k);
        case OfSlots(k, l) => BoundKeepsSlots(cal, s, t, key, k, l);
        case OfClaim(_) => BoundKeepsRest(cal, s, t, key, x);
        case OfRest(_, _, _) => BoundKeepsRest(cal, s, t, key, x);
      }
    } else {
      assert t == s && Fine(cal, s, x);
    }
  }

  lemma BindKeeps(cal: Calendar, s: State, op: Op)
    requires Inv(cal, s) && op.Bind?
    ensures Inv(cal, Apply(cal, s, op).0)
  {
    var key := op.claim.key;
    if key in s.slots && key.schedule in s.records && Open(s.slots[key]) {
      forall x ensures Fine(cal, Bound(s, key, op.engine, op.minted).0, x) {
        BoundKeeps(cal, s, key, op.engine, op.minted, x);
      }
    }
  }

  /** A new trigger slot. */
  lemma OpenTriggerKeeps(cal: Calendar, s: State, key: SlotKey, nominalAt: real, input: Json, x: Probe)
    requires Inv(cal, s) && key !in s.slots && key.occurrence.Trigger? && key.schedule in s.records
    requires s.records[key.schedule].definition.profile.On? && s.records[key.schedule].status.Active?
    ensures Fine(cal, s.(slots := s.slots[key := NewSlot(nominalAt, input)]), x)
  {
    var t := s.(slots := s.slots[key := NewSlot(nominalAt, input)]);
    assert Fine(cal, s, x) && Fine(cal, s, OfRecord(key.schedule)) && Fine(cal, s, OfRest(key, "", ""));
    if x.OfRecord? && x.id != key.schedule {
      assert forall o :: SlotKey(x.id, o) != key;
      SameOpen(s, t, x.id);
    }
  }

  lemma BindTriggerKeeps(cal: Calendar, s: State, op: Op)
    requires Inv(cal, s) && op.BindTrigger?
    ensures Inv(cal, Apply(cal, s, op).0)
  {
    var t, key := Apply(cal, s, op).0, SlotKey(op.id, Trigger(op.cycle));
    if t != s {
      assert Fine(cal, s, OfSlot(key));
      var begun := if key in s.slots then s else s.(slots := s.slots[key := NewSlot(op.now, op.input)]);
      if key !in s.slots {
        forall x ensures Fine(cal, begun, x) { OpenTriggerKeeps(cal, s, key, op.now, op.input, x); }
      }
      var bound := Bound(begun, key, op.engine, op.minted).0;
      forall x ensures Fine(cal, bound, x) { BoundKeeps(cal, begun, key, op.engine, op.minted, x); }
      forall x ensures Fine(cal, t, x) {
        if key in s.slots && s.slots[key].invocation.Some? {} else { TouchKeeps(cal, bound, t, key, t.slots[key], x); }
      }
    }
  }

  lemma RenewKeeps(cal: Calendar, s: State, op: Op)
    requires Inv(cal, s) && (op.Renew? || op.MarkWaiting?)
    ensures Inv(cal, Apply(cal, s, op).0)
  {
    var t := Apply(cal, s, op).0;
    if t != s {
      forall x ensures Fine(cal, t, x) { TouchKeeps(cal, s, t, op.claim.key, t.slots[op.claim.key], x); }
    }
  }

  /** A finished slot: it ends without a lease, and of its schedule's record only what `finish` writes changes. */
  ghost predicate Finishes(cal: Calendar, s: State, t: State, op: Op)
    requires op.Finish?
  {
    && op.owned.Some? && op.owned.value.key.schedule == op.id && op.id in s.records
    && var key := op.owned.value.key;
       && key in s.slots && Open(s.slots[key]) && s.slots[key].invocation.Some? && BindingOk(s, key)
       && t == ApplyFinish(cal, s, op).0
       && t == s.(slots := s.slots[key := s.slots[key].(state := Ended(op.status), leaseUntil := None)],
                  records := t.records)
       && Told(s, t, op.id)
  }

  /** What `finish` writes of the record: the outcome, the next run or the closing, but not its definition or
      sequence. */
  ghost predicate Told(s: State, t: State, id: ScheduleId) {
    && id in s.records && id in t.records && t.records == s.records[id := t.records[id]]
    && t.records[id].definition == s.records[id].definition
    && t.records[id].nextSequence == s.records[id].nextSequence
    && (s.records[id].status.Closed? ==> t.records[id].status == s.records[id].status)
  }

  lemma FinishTells(cal: Calendar, s: State, op: Op)
    requires op.Finish? && ApplyFinish(cal, s, op).0 != s
    ensures Told(s, ApplyFinish(cal, s, op).0, op.id)
  {
  }

  lemma FinishFinishes(cal: Calendar, s: State, op: Op)
    requires op.Finish? && ApplyFinish(cal, s, op).0 != s
    ensures Finishes(cal, s, ApplyFinish(cal, s, op).0, op)
  {
    FinishTells(cal, s, op);
  }

  /** The record of the finished slot's own schedule. */
  lemma FinishKeepsOwn(cal: Calendar, s: State, t: State, op: Op)
    requires Inv(cal, s) && op.Finish? && Finishes(cal, s, t, op)
    ensures RecordFine(cal, t, op.id)
  {
    var key := op.owned.value.key;
    assert Fine(cal, s, OfRecord(op.id)) && Fine(cal, s, OfSlot(key))
           && Fine(cal, s, OfRest(key, "", s.slots[key].invocation.value));
    if s.records[op.id].definition.profile.After? {
      forall o | SlotKey(op.id, o) in t.slots ensures !Open(t.slots[SlotKey(op.id, o)]) {
        assert Fine(cal, s, OfSlots(key, SlotKey(op.id, o)));
      }
    }
  }

  lemma FinishKeepsRecord(cal: Calendar, s: State, t: State, op: Op, id: ScheduleId)
    requires Inv(cal, s) && op.Finish? && Finishes(cal, s, t, op)
    ensures RecordFine(cal, t, id)
  {
    if id == op.id {
      FinishKeepsOwn(cal, s, t, op);
    } else {
      assert Fine(cal, s, OfRecord(id));
      SameOpen(s, t, id);
    }
  }

  lemma FinishKeepsSlot(cal: Calendar, s: State, t: State, op: Op, key: SlotKey)
    requires Inv(cal, s) && op.Finish? && Finishes(cal, s, t, op)
    ensures SlotFine(cal, t, key)
  {
    assert Fine(cal, s, OfSlot(key)) && Fine(cal, s, OfSlots(op.owned.value.key, key));
  }

  lemma FinishKeepsRest(cal: Calendar, s: State, t: State, op: Op, x: Probe)
    requires Inv(cal, s) && op.Finish? && Finishes(cal, s, t, op) && !x.OfRecord? && !x.OfSlot?
    ensures Fine(cal, t, x)
  {
    assert Fine(cal, s, x);
  }

  lemma FinishKeeps(cal: Calendar, s: State, op: Op, x: Probe)
    requires Inv(cal, s) && op.Finish?
    ensures Fine(cal, ApplyFinish(cal, s, op).0, x)
  {
    var t := ApplyFinish(cal, s, op).0;
    if t == s {
      assert Fine(cal, s, x);
    } else {
      FinishFinishes(cal, s, op);
      if x.OfRecord? { FinishKeepsRecord(cal, s, t, op, x.id); }
      else if x.OfSlot? { FinishKeepsSlot(cal, s, t, op, x.key); }
      else { FinishKeepsRest(cal, s, t, op, x); }
    }
  }

  lemma CancelKeeps(cal: Calendar, s: State, op: Op, x: Probe)
    requires Inv(cal, s) && op.Cancel?
    ensures Fine(cal, Apply(cal, s, op).0, x)
  {
    var t := Apply(cal, s, op).0;
    assert Fine(cal, s, x);
    if t != s {
      match x {
        case OfRecord(id) => if id != op.id { SameOpen(s, t, id); }
        case _ =>
      }
    }
  }

  lemma ProgressKeeps(cal: Calendar, s: State, op: Op, x: Probe)
    requires Inv(cal, s) && op.Progress? && op.at >= 0.0
    ensures Fine(cal, Apply(cal, s, op).0, x)
  {
    var t := Apply(cal, s, op).0;
    assert Fine(cal, s, x);
    if x.OfRecord? { SameOpen(s, t, x.id); }
  }

  lemma CreateKeepsRecord(cal: Calendar, s: State, op: Op, id: ScheduleId)
    requires Inv(cal, s) && op.Create? && op.now >= 0.0
    ensures RecordFine(cal, ApplyCreate(cal, s, op).0, id)
  {
    assert Fine(cal, s, OfRecord(id));
    if ApplyCreate(cal, s, op).0 != s {
      if id == op.id {
        forall o ensures SlotKey(id, o) !in s.slots { assert Fine(cal, s, OfSlot(SlotKey(id, o))); }
      } else { SameOpen(s, ApplyCreate(cal, s, op).0, id); }
    }
  }

  lemma CreateKeeps(cal: Calendar, s: State, op: Op, x: Probe)
    requires Inv(cal, s) && op.Create? && op.now >= 0.0
    ensures Fine(cal, ApplyCreate(cal, s, op).0, x)
  {
    assert Fine(cal, s, x);
    match x {
      case OfRecord(id) => CreateKeepsRecord(cal, s, op, id);
      case OfSlots(k, l) => assert Fine(cal, s, OfSlot(k));
      case _ =>
    }
  }

  /** Every call keeps the invariant. */
  lemma ApplyKeeps(cal: Calendar, s: State, op: Op)
    requires Inv(cal, s) && Enabled(s, op)
    ensures Inv(cal, Apply(cal, s, op).0)
  {
    match op {
      case ClaimDue(_, _, _, _, _, _, _) => ClaimDueKeeps(cal, s, op);
      case Bind(_, _, _, _) => BindKeeps(cal, s, op);
      case BindTrigger(_, _, _, _, _, _, _, _) => BindTriggerKeeps(cal, s, op);
      case Renew(_, _, _) => RenewKeeps(cal, s, op);
      case MarkWaiting(_, _) => RenewKeeps(cal, s, op);
      case Create(_, _, _, _) => forall x ensures Fine(cal, Apply(cal, s, op).0, x) { CreateKeeps(cal, s, op, x); }
      case Finish(_, _, _, _, _) => forall x ensures Fine(cal, Apply(cal, s, op).0, x) { FinishKeeps(cal, s, op, x); }
      case Cancel(_) => forall x ensures Fine(cal, Apply(cal, s, op).0, x) { CancelKeeps(cal, s, op, x); }
      case Progress(_, _, _) => forall x ensures Fine(cal, Apply(cal, s, op).0, x) { ProgressKeeps(cal, s, op, x); }
    }
  }

  // ---------------------------------------------------------------- whole runs

  /** A run: the states before, between and after a sequence of calls. */
  ghost predicate Stepped(cal: Calendar, ss: seq<State>, ops: seq<Op>, i: int)
    requires 0 <= i < |ops| && |ss| == |ops| + 1
  {
    Enabled(ss[i], ops[i]) && ss[i + 1] == Apply(cal, ss[i], ops[i]).0
  }

  ghost predicate Run(cal: Calendar, ss: seq<State>, ops: seq<Op>) {
    && |ss| == |ops| + 1
    && ss[0] == State(map[], map[], map[], map[], map[], map[], map[], {})
    && forall i :: 0 <= i < |ops| ==> Stepped(cal, ss, ops, i)
  }

  lemma {:induction false} RunKeeps(cal: Calendar, ss: seq<State>, ops: seq<Op>, i: nat)
    requires Run(cal, ss, ops) && i <= |ops|
    ensures Inv(cal, ss[i])
  {
    if i > 0 {
      RunKeeps(cal, ss, ops, i - 1);
      assert Stepped(cal, ss, ops, i - 1);
      ApplyKeeps(cal, ss[i - 1], ops[i - 1]);
    }
  }

  /** What a later state keeps of a slot: its nominal instant and input, its generation as a lower bound, its
      invocation once bound and its end once reached. */
  ghost predicate SlotLater(s: State, t: State, key: SlotKey) {
    key in s.slots ==>
      && key in t.slots
      && t.slots[key].nominalAt == s.slots[key].nominalAt && t.slots[key].input == s.slots[key].input
      && t.slots[key].generation >= s.slots[key].generation
      && (s.slots[key].invocation.Some? ==> t.slots[key].invocation == s.slots[key].invocation)
      && (!Open(s.slots[key]) ==> t.slots[key].state == s.slots[key].state)
  }

  /** What a later state keeps of a schedule: its definition always, and once it is closed its status, its
      slots and their invocations. */
  ghost predicate ScheduleLater(s: State, t: State, id: ScheduleId) {
    id in s.records ==>
      && id in t.records && t.records[id].definition == s.records[id].definition
      && (s.records[id].status.Closed? ==> t.records[id].status == s.records[id].status && FrozenSlots(s, t, id))
  }

  ghost predicate FrozenSlots(s: State, t: State, id: ScheduleId) {
    forall o :: SlotFrozen(s, t, SlotKey(id, o))
  }

  ghost predicate SlotFrozen(s: State, t: State, key: SlotKey) {
    && (key in s.slots <==> key in t.slots)
    && (key in s.slots ==>
        t.slots[key].invocation == s.slots[key].invocation && t.slots[key].state == s.slots[key].state)
  }

  /** Only the slot at `taken` and the record of its schedule may change, and those only forward. */
  ghost predicate Steps(s: State, t: State, taken: SlotKey) {
    && WritesOnly(s, t, taken) && SlotLater(s, t, taken)
    && (t.records == s.records
        || (taken.schedule in t.records && t.records == s.records[taken.schedule := t.records[taken.schedule]]))
    && RecordLater(s, t, taken.schedule)
  }

  /** Only the slot at `key` may differ. */
  predicate WritesOnly(s: State, t: State, key: SlotKey) {
    t.slots == s.slots || (key in t.slots && t.slots == s.slots[key := t.slots[key]])
  }

  lemma StepsLater(s: State, t: State, taken: SlotKey, key: SlotKey)
    requires Steps(s, t, taken)
    ensures SlotLater(s, t, key) && RecordLater(s, t, key.schedule)
  {
  }

  lemma StepsJoin(s: State, t: State, u: State, taken: SlotKey)
    requires Steps(s, t, taken) && Steps(t, u, taken)
    ensures Steps(s, u, taken)
  {
  }

  lemma ClaimedSteps(s: State, key: SlotKey, claimant: string, until: real)
    requires key in s.slots
    ensures Steps(s, Claimed(s, key, claimant, until).0, key)
  {
  }

  lemma OpenNextSteps(s: State, id: ScheduleId, next: real)
    requires id in s.records && SlotKey(id, Nth(s.records[id].nextSequence)) !in s.slots
    ensures Steps(s, OpenNext(s, id, next), SlotKey(id, Nth(s.records[id].nextSequence)))
  {
  }

  lemma TookSteps(cal: Calendar, s: State, t: State, op: Op, key: SlotKey)
    requires op.ClaimDue? && Took(cal, s, t, op, key)
    ensures Steps(s, t, key)
  {
    if key in s.slots {
      ClaimedSteps(s, key, op.claimant, op.now + op.lease);
    } else {
      var ready := OpenNext(s, key.schedule, NextRun(cal, s.records[key.schedule]).value);
      OpenNextSteps(s, key.schedule, NextRun(cal, s.records[key.schedule]).value);
      ClaimedSteps(ready, key, op.claimant, op.now + op.lease);
      StepsJoin(s, ready, t, key);
    }
  }

  lemma BoundSteps(s: State, key: SlotKey, engine: string, minted: InvocationId)
    requires key in s.slots && key.schedule in s.records && (s.slots[key].invocation.None? ==> Open(s.slots[key]))
    ensures Steps(s, Bound(s, key, engine, minted).0, key)
  {
  }

  lemma BindSteps(s: State, op: Op)
    requires op.Bind?
    ensures Steps(s, ApplyBind(s, op).0, op.claim.key)
  {
    var t, key := ApplyBind(s, op).0, op.claim.key;
    if t != s { BoundSteps(s, key, op.engine, op.minted); }
  }

  lemma TriggerSteps(cal: Calendar, s: State, op: Op)
    requires Inv(cal, s) && op.BindTrigger?
    ensures Steps(s, ApplyBindTrigger(s, op).0, SlotKey(op.id, Trigger(op.cycle)))
  {
    var t, key := ApplyBindTrigger(s, op).0, SlotKey(op.id, Trigger(op.cycle));
    if t != s {
      var begun := if key in s.slots then s else s.(slots := s.slots[key := NewSlot(op.now, op.input)]);
      assert Fine(cal, s, OfSlot(key));
      assert Steps(s, begun, key);
      BoundSteps(begun, key, op.engine, op.minted);
      var bound := Bound(begun, key, op.engine, op.minted).0;
      StepsJoin(s, begun, bound, key);
      assert Steps(bound, t, key);
      StepsJoin(s, bound, t, key);
    }
  }

  lemma FinishSteps(cal: Calendar, s: State, op: Op)
    requires op.Finish?
    ensures op.owned.None? ==> ApplyFinish(cal, s, op).0 == s
    ensures op.owned.Some? ==> Steps(s, ApplyFinish(cal, s, op).0, op.owned.value.key)
  {
    if ApplyFinish(cal, s, op).0 != s { FinishFinishes(cal, s, op); }
  }

  lemma RenewSteps(s: State, op: Op)
    requires op.Renew?
    ensures Steps(s, ApplyRenew(s, op).0, op.claim.key)
  {
  }

  lemma MarkWaitingSteps(s: State, op: Op)
    requires op.MarkWaiting?
    ensures Steps(s, ApplyMarkWaiting(s, op).0, op.claim.key)
  {
  }

  lemma ClaimSteps(cal: Calendar, s: State, op: Op)
    requires op.ClaimDue? && Enabled(s, op)
    ensures Apply(cal, s, op).1.Handed? ==> Steps(s, Apply(cal, s, op).0, Apply(cal, s, op).1.claim.key)
    ensures !Apply(cal, s, op).1.Handed? ==> Apply(cal, s, op).0 == s
  {
    ClaimedSlot(cal, s, op);
    if Apply(cal, s, op).1.Handed? { TookSteps(cal, s, Apply(cal, s, op).0, op, Apply(cal, s, op).1.claim.key); }
  }

  lemma CancelLater(s: State, op: Op, key: SlotKey)
    requires op.Cancel?
    ensures SlotLater(s, ApplyCancel(s, op).0, key)
  {
    if key in s.slots && s.slots[key].state.Ended? {
      match s.slots[key].state.outcome { case Completed => case Cancelled => case Faulted => }
    }
  }

  lemma CancelWrites(s: State, op: Op, key: SlotKey)
    requires op.Cancel?
    ensures RecordLater(s, ApplyCancel(s, op).0, key.schedule)
    ensures key.schedule != op.id ==> SameSlot(s, ApplyCancel(s, op).0, key)
  {
  }

  lemma CreateLater(cal: Calendar, s: State, op: Op, key: SlotKey)
    requires op.Create? || op.Progress?
    ensures Apply(cal, s, op).0.slots == s.slots && RecordLater(s, Apply(cal, s, op).0, key.schedule)
  {
  }

  /** The one slot that a call may write, unless it cancels the schedule. */
  ghost function Written(cal: Calendar, s: State, op: Op): Option<SlotKey> {
    match op
    case ClaimDue(_, _, _, _, _, _, _) =>
      if Apply(cal, s, op).1.Handed? then Some(Apply(cal, s, op).1.claim.key) else None
    case BindTrigger(id, cycle, _, _, _, _, _, _) => Some(SlotKey(id, Trigger(cycle)))
    case _ => if ClaimOf(op).Some? then Some(ClaimOf(op).value.key) else None
  }

  lemma ApplySteps(cal: Calendar, s: State, op: Op)
    requires Inv(cal, s) && Enabled(s, op) && Written(cal, s, op).Some?
    ensures Steps(s, Apply(cal, s, op).0, Written(cal, s, op).value)
  {
    match op {
      case ClaimDue(_, _, _, _, _, _, _) => ClaimSteps(cal, s, op);
      case Bind(_, _, _, _) => BindSteps(s, op);
      case BindTrigger(_, _, _, _, _, _, _, _) => TriggerSteps(cal, s, op);
      case Renew(_, _, _) => RenewSteps(s, op);
      case MarkWaiting(_, _) => MarkWaitingSteps(s, op);
      case Finish(_, _, _, _, _) => FinishSteps(cal, s, op);
    }
  }

  lemma UnwrittenStays(cal: Calendar, s: State, op: Op)
    requires Enabled(s, op) && Written(cal, s, op).None? && !op.Cancel? && !op.Create? && !op.Progress?
    ensures Apply(cal, s, op).0 == s
  {
    if op.ClaimDue? { ClaimSteps(cal, s, op); }
    if op.Finish? { FinishSteps(cal, s, op); }
  }

  lemma ApplyLater(cal: Calendar, s: State, op: Op, key: SlotKey)
    requires Inv(cal, s) && Enabled(s, op)
    ensures SlotLater(s, Apply(cal, s, op).0, key) && RecordLater(s, Apply(cal, s, op).0, key.schedule)
  {
    if op.Cancel? {
      CancelLater(s, op, key);
      CancelWrites(s, op, key);
    } else if op.Create? || op.Progress? {
      CreateLater(cal, s, op, key);
    } else if Written(cal, s, op).Some? {
      ApplySteps(cal, s, op);
      StepsLater(s, Apply(cal, s, op).0, Written(cal, s, op).value, key);
    } else {
      UnwrittenStays(cal, s, op);
    }
  }

  /** What a successful `claim_due` did: it took a recoverable slot over, or opened the next slot of a due
      schedule. */
  ghost predicate Took(cal: Calendar, s: State, t: State, op: Op, key: SlotKey)
    requires op.ClaimDue?
  {
    && key.schedule in s.records && s.records[key.schedule].status.Active?
    && if key in s.slots then
         && Recoverable(s, key, op.now)
         && (s.slots[key].invocation.Some? ==> BoundFine(s, key) && !Unfinished(s, key))
         && t == Claimed(s, key, op.claimant, op.now + op.lease).0
       else
         && key == SlotKey(key.schedule, Nth(s.records[key.schedule].nextSequence))
         && NextRun(cal, s.records[key.schedule]).Some?
         && t == Claimed(OpenNext(s, key.schedule, NextRun(cal, s.records[key.schedule]).value), key, op.claimant,
                         op.now + op.lease).0
  }

  lemma ClaimedSlot(cal: Calendar, s: State, op: Op)
    requires op.ClaimDue? && Enabled(s, op)
    ensures Apply(cal, s, op).1.Handed? ==> Took(cal, s, Apply(cal, s, op).0, op, Apply(cal, s, op).1.claim.key)
    ensures !Apply(cal, s, op).1.Handed? ==> Apply(cal, s, op).0 == s
  {
    var picked := Pick(s, op.scan, op.eligible);
    if op.lease > 0.0 && picked.Ok? && picked.value.Some? { PickIsRecoverable(s, op.now, op.scan, op.eligible); }
  }

  lemma ApplyScheduleLater(cal: Calendar, s: State, op: Op, id: ScheduleId)
    requires Inv(cal, s) && Enabled(s, op)
    ensures ScheduleLater(s, Apply(cal, s, op).0, id)
  {
    var t := Apply(cal, s, op).0;
    if id in s.records && s.records[id].status.Closed? {
      forall o ensures SlotFrozen(s, t, SlotKey(id, o)) { ClosedSlotFrozen(cal, s, op, SlotKey(id, o)); }
    }
    ApplyLater(cal, s, op, SlotKey(id, Nth(0)));
  }

  ghost predicate RecordLater(s: State, t: State, id: ScheduleId) {
    id in s.records ==>
      && id in t.records && t.records[id].definition == s.records[id].definition
      && (s.records[id].status.Closed? ==> t.records[id].status == s.records[id].status)
  }

  ghost predicate SameSlot(s: State, t: State, key: SlotKey) {
    (key in s.slots <==> key in t.slots) && (key in s.slots ==> t.slots[key] == s.slots[key])
  }

  /** A slot that the call may change. */
  ghost predicate Touched(cal: Calendar, s: State, op: Op, key: SlotKey) {
    if op.Cancel? then key.schedule == op.id else Written(cal, s, op) == Some(key)
  }

  lemma UntouchedSame(cal: Calendar, s: State, op: Op, key: SlotKey)
    requires Inv(cal, s) && Enabled(s, op) && !Touched(cal, s, op, key)
    ensures SameSlot(s, Apply(cal, s, op).0, key)
  {
    if op.Cancel? {
      CancelWrites(s, op, key);
    } else if op.Create? || op.Progress? {
      CreateLater(cal, s, op, key);
    } else if Written(cal, s, op).Some? {
      ApplySteps(cal, s, op);
    } else {
      UnwrittenStays(cal, s, op);
    }
  }

  /** No call touches the slots of a schedule that is no longer active. */
  lemma ClosedSlotFrozen(cal: Calendar, s: State, op: Op, key: SlotKey)
    requires Inv(cal, s) && Enabled(s, op)
    requires key.schedule in s.records && s.records[key.schedule].status.Closed?
    ensures SlotFrozen(s, Apply(cal, s, op).0, key)
  {
    if !Touched(cal, s, op, key) {
      UntouchedSame(cal, s, op, key);
    } else {
      assert Fine(cal, s, OfSlot(key));
      if op.ClaimDue? { ClaimedSlot(cal, s, op); } else { assert Apply(cal, s, op).0 == s; }
    }
  }

  lemma SlotLaterJoins(a: State, b: State, c: State, key: SlotKey)
    requires SlotLater(a, b, key) && SlotLater(b, c, key)
    ensures SlotLater(a, c, key)
  {
  }

  lemma ScheduleLaterJoins(a: State, b: State, c: State, id: ScheduleId)
    requires ScheduleLater(a, b, id) && ScheduleLater(b, c, id)
    ensures ScheduleLater(a, c, id)
  {
    if id in a.records && a.records[id].status.Closed? {
      forall o ensures SlotFrozen(a, c, SlotKey(id, o)) {
        assert SlotFrozen(a, b, SlotKey(id, o)) && SlotFrozen(b, c, SlotKey(id, o));
      }
    }
  }

  lemma {:induction false} RunLater(cal: Calendar, ss: seq<State>, ops: seq<Op>, i: nat, j: nat, key: SlotKey)
    requires Run(cal, ss, ops) && i <= j <= |ops|
    ensures SlotLater(ss[i], ss[j], key) && ScheduleLater(ss[i], ss[j], key.schedule)
    decreases j - i
  {
    if i < j {
      RunLater(cal, ss, ops, i, j - 1, key);
      StepLater(cal, ss, ops, j - 1, key);
      SlotLaterJoins(ss[i], ss[j - 1], ss[j], key);
      ScheduleLaterJoins(ss[i], ss[j - 1], ss[j], key.schedule);
    }
  }

  lemma StepLater(cal: Calendar, ss: seq<State>, ops: seq<Op>, i: nat, key: SlotKey)
    requires Run(cal, ss, ops) && i < |ops|
    ensures SlotLater(ss[i], ss[i + 1], key) && ScheduleLater(ss[i], ss[i + 1], key.schedule)
  {
    RunKeeps(cal, ss, ops, i);
    assert Stepped(cal, ss, ops, i);
    ApplyLater(cal, ss[i], ops[i], key);
    ApplyScheduleLater(cal, ss[i], ops[i], key.schedule);
  }

  // ---------------------------------------------------------------- the ledger

  /** In every state of every run, a timed schedule has exactly the slots 1 to nextSequence - 1; the i-th slot
      of a periodic schedule lies at `next_due` iterated i times from creation, however late it was claimed;
      and an active "after" schedule is due exactly when it has no unfinished slot, and never has two. */
  lemma Ledger(cal: Calendar, ss: seq<State>, ops: seq<Op>, i: nat, id: ScheduleId)
    requires Run(cal, ss, ops) && i <= |ops| && id in ss[i].records
    ensures
      var s, r := ss[i], ss[i].records[id];
      && (!r.definition.profile.On? ==> OccurrencesAgree(s, id))
      && id in s.origin
      && (Periodic(r.definition) ==>
            Nominal(cal, r.definition, s.origin[id], r.nextSequence) == Some(r.nextRunAt)
            && forall n: nat :: 1 <= n < r.nextSequence ==>
                 Nominal(cal, r.definition, s.origin[id], n) == Some(s.slots[SlotKey(id, Nth(n))].nominalAt))
      && (r.definition.profile.After? && r.status.Active? ==> (r.nextRunAt > 0.0 <==> NoneOpen(s, id)))
      && (r.definition.profile.After? ==> forall o, o' :: OneOpen(s, SlotKey(id, o), SlotKey(id, o')))
  {
    RunKeeps(cal, ss, ops, i);
    var s, r := ss[i], ss[i].records[id];
    assert Fine(cal, s, OfRecord(id));
    forall n: nat | 1 <= n < r.nextSequence && Periodic(r.definition)
      ensures SlotKey(id, Nth(n)) in s.slots
      ensures Nominal(cal, r.definition, s.origin[id], n) == Some(s.slots[SlotKey(id, Nth(n))].nominalAt)
    {
      assert Fine(cal, s, OfSlot(SlotKey(id, Nth(n))));
    }
    forall o, o' ensures OneOpen(s, SlotKey(id, o), SlotKey(id, o')) {
      assert Fine(cal, s, OfSlots(SlotKey(id, o), SlotKey(id, o')));
    }
  }

  /** Every reachable state passes the store's own checks: no row is ever found inconsistent. */
  lemma RowsAccepted(cal: Calendar, ss: seq<State>, ops: seq<Op>, i: nat, key: SlotKey)
    requires Run(cal, ss, ops) && i <= |ops|
    ensures key.schedule in ss[i].records ==> Readable(ss[i], key.schedule)
    ensures key in ss[i].slots ==> key.schedule in ss[i].records
    ensures key in ss[i].slots && ss[i].slots[key].invocation.Some? ==> BindingOk(ss[i], key)
  {
    RunKeeps(cal, ss, ops, i);
    assert Fine(cal, ss[i], OfRecord(key.schedule)) && Fine(cal, ss[i], OfSlot(key));
  }

  // ---------------------------------------------------------------- fencing

  function ClaimOf(op: Op): Option<Claim> {
    match op
    case Bind(claim, _, _, _) => Some(claim)
    case Renew(claim, _, _) => Some(claim)
    case MarkWaiting(claim, _) => Some(claim)
    case Finish(_, owned, _, _, _) => owned
    case _ => None
  }

  predicate Succeeded(reply: Reply) {
    reply.Handed? || reply.Handle? || reply.Done?
  }

  /** A call made with a claim succeeds only if that claim is the slot's current one. */
  lemma SuccessIsFenced(cal: Calendar, s: State, op: Op)
    requires ClaimOf(op).Some? && Succeeded(Apply(cal, s, op).1)
    ensures Fenced(s, ClaimOf(op).value, op.now)
  {
  }

  /** Generations of successful bind, renew, wait and finish calls on a slot never go backwards, and go up
      strictly across every hand-out of the slot in between. */
  lemma GenerationsAscend(cal: Calendar, ss: seq<State>, ops: seq<Op>, i: nat, j: nat)
    requires Run(cal, ss, ops) && i < j < |ops|
    requires ClaimOf(ops[i]).Some? && ClaimOf(ops[j]).Some? && ClaimOf(ops[i]).value.key == ClaimOf(ops[j]).value.key
    requires Succeeded(Apply(cal, ss[i], ops[i]).1) && Succeeded(Apply(cal, ss[j], ops[j]).1)
    ensures ClaimOf(ops[i]).value.generation <= ClaimOf(ops[j]).value.generation
    ensures forall m :: i < m < j && HandsOut(cal, ss[m], ops[m], ClaimOf(ops[i]).value.key) ==>
              ClaimOf(ops[i]).value.generation < ClaimOf(ops[j]).value.generation
  {
    var key := ClaimOf(ops[i]).value.key;
    SuccessIsFenced(cal, ss[i], ops[i]);
    SuccessIsFenced(cal, ss[j], ops[j]);
    RunLater(cal, ss, ops, i, j, key);
    forall m | i < m < j && HandsOut(cal, ss[m], ops[m], key)
      ensures ClaimOf(ops[i]).value.generation < ClaimOf(ops[j]).value.generation
    {
      HandOutRaises(cal, ss, ops, i, m, j, key);
    }
  }

  lemma HandOutRaises(cal: Calendar, ss: seq<State>, ops: seq<Op>, i: nat, m: nat, j: nat, key: SlotKey)
    requires Run(cal, ss, ops) && i < m < j < |ops| && HandsOut(cal, ss[m], ops[m], key) && key in ss[i].slots
    ensures key in ss[j].slots && ss[i].slots[key].generation < ss[j].slots[key].generation
  {
    RunLater(cal, ss, ops, i, m, key);
    HandOutAdvances(cal, ss, ops, m, key);
    RunLater(cal, ss, ops, m + 1, j, key);
  }

  /** `claim_due` answers with a claim on this slot. */
  ghost predicate HandsOut(cal: Calendar, s: State, op: Op, key: SlotKey) {
    op.ClaimDue? && Apply(cal, s, op).1.Handed? && Apply(cal, s, op).1.claim.key == key
  }

  lemma HandOutAdvances(cal: Calendar, ss: seq<State>, ops: seq<Op>, m: nat, key: SlotKey)
    requires Run(cal, ss, ops) && m < |ops| && HandsOut(cal, ss[m], ops[m], key)
    ensures key in ss[m + 1].slots
    ensures ss[m + 1].slots[key].generation == Apply(cal, ss[m], ops[m]).1.claim.generation
    ensures key in ss[m].slots ==> ss[m + 1].slots[key].generation == ss[m].slots[key].generation + 1
    ensures key in ss[m].slots ==> Recoverable(ss[m], key, ops[m].now)
    ensures key in ss[m].slots && ss[m].slots[key].state == Waiting && ss[m].slots[key].invocation.Some? ==>
              ss[m].slots[key].invocation.value in ss[m].invocations
              && ss[m].invocations[ss[m].slots[key].invocation.value].status.Over?
  {
    assert Stepped(cal, ss, ops, m);
    ClaimedSlot(cal, ss[m], ops[m]);
  }

  /** A slot is handed out only when no claim handed out before could still pass the fence, now or at any
      later time, and from then on none of them ever passes it again. A slot waiting on an invocation is
      handed out only once that invocation is over. */
  lemma HandOutIsExclusive(cal: Calendar, ss: seq<State>, ops: seq<Op>, m: nat, c: Claim, j: nat, at: real)
    requires Run(cal, ss, ops) && m < |ops| && HandsOut(cal, ss[m], ops[m], c.key)
    requires c in ss[m].issued
    ensures at >= ops[m].now ==> !Fenced(ss[m], c, at)
    ensures m < j <= |ops| ==> !Fenced(ss[j], c, at)
    ensures
      c.key in ss[m].slots
      && var slot := ss[m].slots[c.key];
         slot.state == Waiting && slot.invocation.Some? ==>
           slot.invocation.value in ss[m].invocations && ss[m].invocations[slot.invocation.value].status.Over?
  {
    RunKeeps(cal, ss, ops, m);
    assert Fine(cal, ss[m], OfClaim(c));
    HandOutAdvances(cal, ss, ops, m, c.key);
    if m < j <= |ops| { RunLater(cal, ss, ops, m + 1, j, c.key); }
  }

  lemma FinishEnds(cal: Calendar, s: State, op: Op)
    requires op.Finish? && ApplyFinish(cal, s, op).1.Done?
    ensures op.owned.Some? && op.owned.value.key in s.slots && Open(s.slots[op.owned.value.key])
    ensures op.owned.value.key in ApplyFinish(cal, s, op).0.slots
    ensures ApplyFinish(cal, s, op).0.slots[op.owned.value.key].state.Ended?
  {
  }

  /** Each slot is finished at most once. */
  lemma FinishedOnce(cal: Calendar, ss: seq<State>, ops: seq<Op>, i: nat, j: nat)
    requires Run(cal, ss, ops) && i < j < |ops| && ops[i].Finish? && ops[j].Finish?
    requires Apply(cal, ss[i], ops[i]).1.Done?
    requires ops[j].owned.Some? && ops[i].owned.value.key == ops[j].owned.value.key
    ensures !Apply(cal, ss[j], ops[j]).1.Done?
  {
    assert Stepped(cal, ss, ops, i);
    FinishEnds(cal, ss[i], ops[i]);
    RunLater(cal, ss, ops, i + 1, j, ops[i].owned.value.key);
    assert !Open(ss[j].slots[ops[j].owned.value.key]);
    FinishNeedsOpen(cal, ss[j], ops[j]);
  }

  lemma FinishNeedsOpen(cal: Calendar, s: State, op: Op)
    requires op.Finish? && op.owned.Some? && op.owned.value.key in s.slots && !Open(s.slots[op.owned.value.key])
    ensures !ApplyFinish(cal, s, op).1.Done?
  {
  }

  /** A claim that passes the fence belongs to an active schedule, so the status guard in `finish` always
      holds. */
  lemma FencedIsActive(cal: Calendar, ss: seq<State>, ops: seq<Op>, i: nat, c: Claim, now: real)
    requires Run(cal, ss, ops) && i <= |ops| && Fenced(ss[i], c, now)
    ensures c.key.schedule in ss[i].records && ss[i].records[c.key.schedule].status.Active?
  {
    RunKeeps(cal, ss, ops, i);
    assert Fine(cal, ss[i], OfSlot(c.key));
  }

  /** Once a schedule is cancelled, or ended by a failed "after" run, no later call adds a slot, binds an
      invocation or succeeds with a claim on it. */
  lemma ClosedIsFinal(cal: Calendar, ss: seq<State>, ops: seq<Op>, i: nat, j: nat, id: ScheduleId, op: Op)
    requires Run(cal, ss, ops) && i <= j <= |ops|
    requires id in ss[i].records && ss[i].records[id].status.Closed?
    ensures id in ss[j].records && ss[j].records[id].status == ss[i].records[id].status
    ensures FrozenSlots(ss[i], ss[j], id)
    ensures ClaimOf(op).Some? && ClaimOf(op).value.key.schedule == id ==> !Succeeded(Apply(cal, ss[j], op).1)
    ensures Enabled(ss[j], op) ==> forall o :: !HandsOut(cal, ss[j], op, SlotKey(id, o))
    ensures op.BindTrigger? && op.id == id ==> Apply(cal, ss[j], op).1.Conflict? || Apply(cal, ss[j], op).1.Invalid?
  {
    RunLater(cal, ss, ops, i, j, SlotKey(id, Nth(0)));
    RunKeeps(cal, ss, ops, j);
    if ClaimOf(op).Some? {
      assert Fine(cal, ss[j], OfSlot(ClaimOf(op).value.key));
      if Succeeded(Apply(cal, ss[j], op).1) { SuccessIsFenced(cal, ss[j], op); }
    }
    if Enabled(ss[j], op) {
      forall o ensures !HandsOut(cal, ss[j], op, SlotKey(id, o)) { ClosedNotHandedOut(cal, ss[j], op, SlotKey(id, o)); }
    }
  }

  lemma ClosedNotHandedOut(cal: Calendar, s: State, op: Op, key: SlotKey)
    requires Enabled(s, op) && key.schedule in s.records && s.records[key.schedule].status.Closed?
    ensures !HandsOut(cal, s, op, key)
  {
    if op.ClaimDue? { ClaimedSlot(cal, s, op); }
  }

  /** Once bound, a slot keeps its invocation, and no other slot ever has the same one. */
  lemma BindingIsForever(cal: Calendar, ss: seq<State>, ops: seq<Op>, i: nat, j: nat, key: SlotKey, other: SlotKey)
    requires Run(cal, ss, ops) && i <= j <= |ops|
    requires key in ss[i].slots && ss[i].slots[key].invocation.Some?
    ensures key in ss[j].slots && ss[j].slots[key].invocation == ss[i].slots[key].invocation
    ensures other in ss[j].slots && ss[j].slots[other].invocation == ss[i].slots[key].invocation ==> other == key
  {
    RunLater(cal, ss, ops, i, j, key);
    RunKeeps(cal, ss, ops, j);
    assert Fine(cal, ss[j], OfSlots(key, other));
  }
}
