/** The schedule tables as the store updates them (`ScheduleStore` in _schedule_store.py). Every method is one
    transaction and is proved to make exactly the transition the laws in ScheduleLaws are about. */
module ScheduleStores {
  import opened Prelude
  import opened Schedules

  /** The occurrence check as the store makes it, on the sets of occurrence keys. */
  lemma OccurrenceSets(s: State, id: ScheduleId)
    requires id in s.records
    ensures (set key | key in s.slots && key.schedule == id :: key.occurrence)
            == (set n: nat | 1 <= n < s.records[id].nextSequence :: Nth(n))
            <==> OccurrencesAgree(s, id)
  {
    var stored := set key | key in s.slots && key.schedule == id :: key.occurrence;
    var expected := set n: nat | 1 <= n < s.records[id].nextSequence :: Nth(n);
    forall o ensures o in stored <==> SlotKey(id, o) in s.slots {
      if SlotKey(id, o) in s.slots { assert SlotKey(id, o).occurrence in stored; }
    }
    forall o ensures o in expected <==> o.Nth? && 1 <= o.n < s.records[id].nextSequence {
      if o.Nth? && 1 <= o.n < s.records[id].nextSequence { assert Nth(o.n) in expected; }
    }
    if stored == expected {
      forall o ensures SlotKey(id, o) in s.slots <==> o.Nth? && 1 <= o.n < s.records[id].nextSequence {
        assert o in stored <==> o in expected;
      }
    }
    if OccurrencesAgree(s, id) {
      forall o ensures o in stored <==> o in expected {}
    }
  }

  class ScheduleStore {
    const calendar: Calendar
    var records: map<ScheduleId, Record>
    var definitions: map<ScheduleId, Definition>
    var operations: map<string, ScheduleId>
    var slots: map<SlotKey, Slot>
    var bindings: map<SlotKey, Binding>
    var invocations: map<InvocationId, Invocation>
    ghost var origin: map<ScheduleId, real>
    ghost var issued: set<Claim>

    ghost function Now(): State reads this {
      State(records, definitions, operations, slots, bindings, invocations, origin, issued)
    }

    constructor (calendar: Calendar)
      ensures Now() == State(map[], map[], map[], map[], map[], map[], map[], {}) && this.calendar == calendar
    {
      this.calendar := calendar;
      records, definitions, operations, slots, bindings, invocations := map[], map[], map[], map[], map[], map[];
      origin, issued := map[], {};
    }

    /** `_get` on a stored schedule. */
    method Stored(id: ScheduleId) returns (ok: bool)
      ensures ok <==> id in records && Readable(Now(), id)
    {
      if id !in records { return false; }
      if id !in definitions || definitions[id] != records[id].definition { return false; }
      if records[id].definition.profile.On? { return true; }
      OccurrenceSets(Now(), id);
      var last := records[id].nextSequence;
      ok := (set key | key in slots && key.schedule == id :: key.occurrence) == (set n: nat | 1 <= n < last :: Nth(n));
    }

    /** `_binding` on a stored slot. */
    method BindingAgrees(key: SlotKey) returns (ok: bool)
      requires key in slots && key.schedule in records
      ensures ok <==> BindingOk(Now(), key)
    {
      var slot, d := slots[key], records[key.schedule].definition;
      if slot.invocation.None? || key !in bindings || slot.invocation.value !in invocations { return false; }
      var i := invocations[slot.invocation.value];
      ok := bindings[key] == Binding(slot.invocation.value, i.engine, i.fingerprint, i.principal)
            && i.fingerprint == d.fingerprint && i.principal == d.principal && i.input == slot.input;
    }

    method Passes(claim: Claim, now: real) returns (ok: bool)
      ensures ok <==> Fenced(Now(), claim, now)
    {
      if claim.key !in slots { return false; }
      var slot := slots[claim.key];
      ok := slot.owner == claim.owner && slot.generation == claim.generation
            && slot.leaseUntil == Some(claim.leaseUntil)
            && claim.leaseUntil > now && !slot.state.Ended?;
    }

    method CreateSchedule(id: ScheduleId, operation: Option<string>, d: Definition, now: real) returns (reply: Reply)
      modifies this
      ensures (Now(), reply) == Apply(calendar, old(Now()), Create(id, operation, d, now))
    {
      if d.scope == "" { return Invalid; }
      if operation.Some? && operation.value in operations {
        var known := operations[operation.value];
        var ok := Stored(known);
        if !ok { return Invalid; }
        var e := records[known].definition;
        if e.fingerprint != d.fingerprint || e.principal != d.principal || e.scope != d.scope { return Conflict; }
        return Scheduled(known);
      }
      var due := 0.0;
      if !d.profile.On? {
        var next := NextDue(calendar, d, now);
        if next.None? { return Invalid; }
        due := next.value;
      }
      if id in records || id in definitions { return Invalid; }
      records := records[id := Record(d, due, Active, None, None, 1)];
      definitions := definitions[id := d];
      if operation.Some? { operations := operations[operation.value := id]; }
      origin := origin[id := now];
      reply := Scheduled(id);
    }

    /** `_claim`. */
    method TakeOver(key: SlotKey, claimant: string, until: real) returns (reply: Reply)
      requires key in slots
      modifies this
      ensures (Now(), reply) == Claimed(old(Now()), key, claimant, until)
    {
      var slot := slots[key];
      var claim := Claim(key, claimant, slot.generation + 1, until);
      slots := slots[key := slot.(owner := claimant, generation := claim.generation, leaseUntil := Some(until))];
      issued := issued + {claim};
      reply := Handed(claim);
    }

    /** The due branch of `claim_due`. */
    method ClaimNextSlot(id: ScheduleId, claimant: string, until: real) returns (reply: Reply)
      modifies this
      ensures (Now(), reply) == ClaimNext(calendar, old(Now()), id, claimant, until)
    {
      var ok := Stored(id);
      if !ok { return Invalid; }
      var r := records[id];
      var key := SlotKey(id, Nth(r.nextSequence));
      var next := 0.0;
      if r.definition.profile.Every? || r.definition.profile.Cron? {
        var later := NextDue(calendar, r.definition, r.nextRunAt);
        if later.None? { return Invalid; }
        next := later.value;
      }
      if key in slots { return Invalid; }
      slots := slots[key := NewSlot(r.nextRunAt, r.definition.input)];
      records := records[id := r.(nextSequence := r.nextSequence + 1, nextRunAt := next)];
      reply := TakeOver(key, claimant, until);
    }

    method ClaimDueSlot(now: real, lease: real, claimant: string, ghost allowed: ScheduleId -> bool, scan: seq<SlotKey>,
                        due: Option<ScheduleId>, eligible: InvocationId -> bool) returns (reply: Reply)
      modifies this
      ensures (Now(), reply)
              == Apply(calendar, old(Now()), ClaimDue(now, lease, claimant, allowed, scan, due, eligible))
    {
      if lease <= 0.0 { return Invalid; }
      var picked := PickSlot(scan, eligible);
      if picked.Err? { return Invalid; }
      if picked.value.Some? {
        if picked.value.value !in slots { return Invalid; }
        reply := TakeOver(picked.value.value, claimant, now + lease);
      } else if due.None? {
        reply := Nothing;
      } else {
        reply := ClaimNextSlot(due.value, claimant, now + lease);
      }
    }

    /** The loop over the recoverable slots. */
    method PickSlot(scan: seq<SlotKey>, eligible: InvocationId -> bool) returns (r: Result<Option<SlotKey>, ()>)
      ensures r == Pick(Now(), scan, eligible)
    {
      var i := 0;
      assert scan[0..] == scan;
      while i < |scan|
        invariant i <= |scan|
        invariant Pick(Now(), scan[i..], eligible) == Pick(Now(), scan, eligible)
      {
        var key := scan[i];
        assert scan[i..][1..] == scan[i + 1..];
        i := i + 1;
        var ok := Stored(key.schedule);
        if !ok { return Err(()); }
        if !records[key.schedule].status.Active? || key !in slots { continue; }
        var slot := slots[key];
        if slot.invocation.Some? {
          ok := BindingAgrees(key);
          if !ok { return Err(()); }
          if slot.state == Waiting && invocations[slot.invocation.value].status.Live? { continue; }
          if !eligible(slot.invocation.value) { continue; }
        }
        return Ok(Some(key));
      }
      r := Ok(None);
    }

    /** `_bind`. */
    method BindSlot(key: SlotKey, engine: string, minted: InvocationId) returns (reply: Reply)
      requires key in slots && key.schedule in records
      modifies this
      ensures (Now(), reply) == Bound(old(Now()), key, engine, minted)
    {
      var slot, r := slots[key], records[key.schedule];
      if slot.invocation.Some? {
        var ok := BindingAgrees(key);
        if !ok { return Invalid; }
        if invocations[slot.invocation.value].engine != engine { return Conflict; }
        return Handle(slot.invocation.value);
      }
      if minted in invocations || key in bindings { return Invalid; }
      var d := r.definition;
      invocations := invocations[minted := Invocation(engine, d.fingerprint, d.principal, slot.input, Live)];
      bindings := bindings[key := Binding(minted, engine, d.fingerprint, d.principal)];
      slots := slots[key := slot.(invocation := Some(minted), state := Running)];
      records := records[key.schedule := r.(lastInvocation := Some(minted))];
      reply := Handle(minted);
    }

    method BindInvocation(claim: Claim, engine: string, now: real, minted: InvocationId) returns (reply: Reply)
      modifies this
      ensures (Now(), reply) == Apply(calendar, old(Now()), Bind(claim, engine, now, minted))
    {
      var ok := Stored(claim.key.schedule);
      if !ok { return Invalid; }
      if !records[claim.key.schedule].status.Active? { return Conflict; }
      ok := Passes(claim, now);
      if !ok { return Conflict; }
      reply := BindSlot(claim.key, engine, minted);
    }

    method BindTriggerInTransaction(id: ScheduleId, cycle: string, input: Json, engine: string,
                                    fingerprint: Option<string>, scope: Option<string>, now: real, minted: InvocationId)
      returns (reply: Reply)
      modifies this
      ensures (Now(), reply)
              == Apply(calendar, old(Now()), BindTrigger(id, cycle, input, engine, fingerprint, scope, now, minted))
    {
      var ok := Stored(id);
      if !ok { return Invalid; }
      var r, key := records[id], SlotKey(id, Trigger(cycle));
      if !r.status.Active? || !r.definition.profile.On? || cycle == "" { return Conflict; }
      if fingerprint.Some? && r.definition.fingerprint != fingerprint.value { return Conflict; }
      if scope.Some? && r.definition.scope != scope.value { return Conflict; }
      if key in slots && slots[key].input != input { return Conflict; }
      if key in slots && slots[key].invocation.Some? {
        reply := BindSlot(key, engine, minted);
        return;
      }
      var saved := slots;
      if key !in slots { slots := slots[key := NewSlot(now, input)]; }
      reply := BindSlot(key, engine, minted);
      if reply.Handle? { slots := slots[key := slots[key].(state := Pending)]; } else { slots := saved; }
    }

    method RenewClaim(claim: Claim, now: real, lease: real) returns (reply: Reply)
      modifies this
      ensures (Now(), reply) == Apply(calendar, old(Now()), Renew(claim, now, lease))
    {
      if lease <= 0.0 { return Invalid; }
      var ok := Passes(claim, now);
      if !ok { return Conflict; }
      var renewed := claim.(leaseUntil := now + lease);
      slots := slots[claim.key := slots[claim.key].(leaseUntil := Some(renewed.leaseUntil))];
      issued := issued + {renewed};
      reply := Handed(renewed);
    }

    method MarkSlotWaiting(claim: Claim, now: real) returns (reply: Reply)
      modifies this
      ensures (Now(), reply) == Apply(calendar, old(Now()), MarkWaiting(claim, now))
    {
      var ok := Passes(claim, now);
      if !ok { return Conflict; }
      slots := slots[claim.key := slots[claim.key].(state := Waiting, leaseUntil := None)];
      reply := Done;
    }

    method FinishSlot(id: ScheduleId, owned: Option<Claim>, invocation: InvocationId, status: Terminal, now: real)
      returns (reply: Reply)
      modifies this
      ensures (Now(), reply) == Apply(calendar, old(Now()), Finish(id, owned, invocation, status, now))
    {
      if owned.None? || owned.value.key.schedule != id { return Conflict; }
      var key := owned.value.key;
      var ok := Stored(id);
      if !ok { return Invalid; }
      ok := Passes(owned.value, now);
      if !ok { return Conflict; }
      ok := BindingAgrees(key);
      if !ok { return Invalid; }
      var slot := slots[key];
      var i := invocations[slot.invocation.value];
      if slot.invocation.value != invocation || !i.status.Over? || i.status.outcome != status { return Conflict; }
      var r := records[id].(lastInvocation := Some(invocation), lastStatus := Some(status));
      if r.status.Active? {
        if status == Completed && r.definition.profile.After? {
          var next := NextDue(calendar, r.definition, i.status.completedAt);
          if next.None? { return Invalid; }
          r := r.(nextRunAt := next.value);
        } else if status != Completed && r.definition.profile.After? {
          r := r.(status := Closed(status));
        }
      }
      slots := slots[key := slot.(state := Ended(status), leaseUntil := None)];
      records := records[id := r];
      reply := Done;
    }

    method CancelSchedule(id: ScheduleId) returns (reply: Reply)
      modifies this
      ensures (Now(), reply) == Apply(calendar, old(Now()), Cancel(id))
    {
      var ok := Stored(id);
      if !ok { return Invalid; }
      var r := records[id];
      if r.status.Active? {
        records := records[id := r.(status := Closed(Cancelled))];
        slots := map key | key in slots ::
          if key.schedule == id && slots[key].state != Ended(Completed) && slots[key].state != Ended(Faulted)
          then slots[key].(state := Ended(Cancelled), generation := slots[key].generation + 1, leaseUntil := None)
          else slots[key];
        assert slots == Apply(calendar, old(Now()), Cancel(id)).0.slots;
      }
      reply := Done;
    }
  }
}
