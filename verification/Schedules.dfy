/** Fenced slots for scheduled workflow starts (_schedule_store.py, schedule_profile.py).

    One call is one serialised transaction. What a call reads outside the schedule tables is part of it: the
    clock, the rows its SQL queries select, new identifiers, and the eligibility callback. */
module Schedules {
  import opened Prelude

  type ScheduleId = string
  type InvocationId = string
  type Json = string

  datatype Terminal = Completed | Cancelled | Faulted

  datatype Profile = After(interval: real) | Every(interval: real) | Cron(expression: string) | On

  datatype Definition = Definition(
    profile: Profile,
    timezone: string,
    input: Json,
    fingerprint: string,
    scope: string,
    principal: Option<string>)

  datatype Status = Active | Closed(outcome: Terminal)

  datatype Record = Record(
    definition: Definition,
    nextRunAt: real,
    status: Status,
    lastInvocation: Option<InvocationId>,
    lastStatus: Option<Terminal>,
    nextSequence: nat)

  /** The occurrence keys slot:1, slot:2, ... of timed schedules and trigger:<cycle> of event schedules. */
  datatype Occurrence = Nth(n: nat) | Trigger(cycle: string)

  datatype SlotKey = SlotKey(schedule: ScheduleId, occurrence: Occurrence)

  datatype SlotState = Pending | Running | Waiting | Ended(outcome: Terminal)

  datatype Slot = Slot(
    nominalAt: real,
    state: SlotState,
    owner: string,
    generation: nat,
    leaseUntil: Option<real>,
    invocation: Option<InvocationId>,
    input: Json)

  datatype InvocationStatus = Live | Over(outcome: Terminal, completedAt: real)

  datatype Invocation = Invocation(engine: string, fingerprint: string, principal: Option<string>, input: Json,
                                   status: InvocationStatus)

  /** The immutable columns of a slot binding. */
  datatype Binding = Binding(invocation: InvocationId, engine: string, fingerprint: string, principal: Option<string>)

  datatype Claim = Claim(key: SlotKey, owner: string, generation: nat, leaseUntil: real)

  /** The tables, with two history variables: when each schedule was created and every claim handed out. */
  datatype State = State(
    records: map<ScheduleId, Record>,
    definitions: map<ScheduleId, Definition>,
    operations: map<string, ScheduleId>,
    slots: map<SlotKey, Slot>,
    bindings: map<SlotKey, Binding>,
    invocations: map<InvocationId, Invocation>,
    origin: map<ScheduleId, real>,
    issued: set<Claim>)

  /** The cron calendar: next instant of an expression in a timezone, if it has one. */
  type Calendar = (string, string, real) -> Option<real>

  /** `next_due`: the next nominal instant, refused unless it lies strictly later. */
  function NextDue(cal: Calendar, d: Definition, after: real): (r: Option<real>)
    ensures r.Some? ==> r.value > after
  {
    match d.profile
    case After(i) => if i > 0.0 then Some(after + i) else None
    case Every(i) => if i > 0.0 then Some(after + i) else None
    case Cron(e) => (
      match cal(e, d.timezone, after)
      case Some(t) => if t > after then Some(t) else None
      case None => None)
    case On => None
  }

  /** `next_due` applied `n` times from `from`. */
  function Nominal(cal: Calendar, d: Definition, from: real, n: nat): Option<real> {
    if n == 0 then Some(from)
    else
      match Nominal(cal, d, from, n - 1)
      case Some(t) => NextDue(cal, d, t)
      case None => None
  }

  predicate Open(slot: Slot) { !slot.state.Ended? }

  predicate Periodic(d: Definition) { d.profile.Every? || d.profile.Cron? }

  // ---------------------------------------------------------------- the checks the store makes

  /** `_get` accepts the row: its definition evidence and, for a timed schedule, its occurrences agree. */
  ghost predicate Readable(s: State, id: ScheduleId)
    requires id in s.records
  {
    && id in s.definitions && s.definitions[id] == s.records[id].definition
    && (!s.records[id].definition.profile.On? ==> OccurrencesAgree(s, id))
  }

  ghost predicate OccurrencesAgree(s: State, id: ScheduleId)
    requires id in s.records
  {
    forall o :: SlotKey(id, o) in s.slots <==> o.Nth? && 1 <= o.n < s.records[id].nextSequence
  }

  /** `_binding` accepts the slot: binding row, invocation and original input all agree with the schedule. */
  predicate BindingOk(s: State, key: SlotKey)
    requires key in s.slots && key.schedule in s.records
  {
    var slot, d := s.slots[key], s.records[key.schedule].definition;
    && slot.invocation.Some?
    && key in s.bindings
    && slot.invocation.value in s.invocations
    && var i := s.invocations[slot.invocation.value];
       && s.bindings[key] == Binding(slot.invocation.value, i.engine, i.fingerprint, i.principal)
       && i.fingerprint == d.fingerprint
       && i.principal == d.principal
       && i.input == slot.input
  }

  /** `_fence`: the claim is the current, unexpired claim of an unfinished slot. */
  predicate Fenced(s: State, claim: Claim, now: real) {
    && claim.key in s.slots
    && var slot := s.slots[claim.key];
       && slot.owner == claim.owner
       && slot.generation == claim.generation
       && slot.leaseUntil == Some(claim.leaseUntil)
       && claim.leaseUntil > now
       && Open(slot)
  }

  // ---------------------------------------------------------------- the rows the claim queries select

  /** A slot the recovery query may return. */
  predicate Recoverable(s: State, key: SlotKey, now: real)
    requires key in s.slots
  {
    var slot := s.slots[key];
    && Open(slot)
    && (slot.leaseUntil.None? || slot.leaseUntil.value <= now)
    && (slot.state == Waiting ==>
          slot.invocation.None? || slot.invocation.value !in s.invocations
          || s.invocations[slot.invocation.value].status.Over?)
  }

  /** ... ORDER BY nominal_at LIMIT 128. */
  ghost predicate IsScan(s: State, now: real, allowed: ScheduleId -> bool, scan: seq<SlotKey>) {
    && |scan| <= 128
    && (forall i :: 0 <= i < |scan| ==> scan[i] in s.slots && Recoverable(s, scan[i], now) && allowed(scan[i].schedule))
    && (forall i, j :: 0 <= i < j < |scan| ==>
        scan[i] != scan[j] && s.slots[scan[i]].nominalAt <= s.slots[scan[j]].nominalAt)
    && (forall key :: key in s.slots && Recoverable(s, key, now) && allowed(key.schedule) && key !in scan ==>
          |scan| == 128 && s.slots[scan[127]].nominalAt <= s.slots[key].nominalAt)
  }

  predicate IsDueAt(r: Record, now: real) {
    r.status.Active? && 0.0 < r.nextRunAt <= now
  }

  /** ... ORDER BY next_run_at LIMIT 1. */
  ghost predicate IsDue(s: State, now: real, allowed: ScheduleId -> bool, due: Option<ScheduleId>) {
    && (due.Some? ==> due.value in s.records && allowed(due.value) && IsDueAt(s.records[due.value], now))
    && (forall id :: id in s.records && allowed(id) && IsDueAt(s.records[id], now) ==>
          due.Some? && s.records[due.value].nextRunAt <= s.records[id].nextRunAt)
  }

  // ---------------------------------------------------------------- calls

  datatype Op =
    | Create(id: ScheduleId, operation: Option<string>, definition: Definition, now: real)
    | ClaimDue(now: real, lease: real, claimant: string, allowed: ScheduleId -> bool, scan: seq<SlotKey>,
               due: Option<ScheduleId>, eligible: InvocationId -> bool)
    | Bind(claim: Claim, engine: string, now: real, minted: InvocationId)
    | BindTrigger(id: ScheduleId, cycle: string, input: Json, engine: string, fingerprint: Option<string>,
                  scope: Option<string>, now: real, minted: InvocationId)
    | Renew(claim: Claim, now: real, lease: real)
    | MarkWaiting(claim: Claim, now: real)
    | Finish(id: ScheduleId, owned: Option<Claim>, invocation: InvocationId, status: Terminal, now: real)
    | Cancel(id: ScheduleId)
    /** A worker moves an invocation on; terminal invocations never change again. */
    | Progress(invocation: InvocationId, status: Terminal, at: real)

  datatype Reply =
    | Scheduled(id: ScheduleId)
    | Handed(claim: Claim)
    | Nothing
    | Handle(invocation: InvocationId)
    | Done
    | Conflict
    | Invalid

  ghost function ApplyCreate(cal: Calendar, s: State, op: Op): (State, Reply)
    requires op.Create?
  {
    if op.definition.scope == "" then (s, Invalid)
    else if op.operation.Some? && op.operation.value in s.operations then
      var id := s.operations[op.operation.value];
      if id !in s.records || !Readable(s, id) then (s, Invalid)
      else
        var d := s.records[id].definition;
        if d.fingerprint != op.definition.fingerprint || d.principal != op.definition.principal
           || d.scope != op.definition.scope
        then (s, Conflict) else (s, Scheduled(id))
    else
      var due := if op.definition.profile.On? then Some(0.0) else NextDue(cal, op.definition, op.now);
      if due.None? || op.id in s.records || op.id in s.definitions then (s, Invalid)
      else
        (s.(records := s.records[op.id := Record(op.definition, due.value, Active, None, None, 1)],
            definitions := s.definitions[op.id := op.definition],
            operations := if op.operation.Some? then s.operations[op.operation.value := op.id] else s.operations,
            origin := s.origin[op.id := op.now]),
         Scheduled(op.id))
  }

  /** A recoverable slot the claim loop passes over. */
  predicate PassedOver(s: State, key: SlotKey, eligible: InvocationId -> bool)
    requires key.schedule in s.records
  {
    || !s.records[key.schedule].status.Active?
    || key !in s.slots
    || (BoundFine(s, key) &&
          (Unfinished(s, key) || !eligible(s.slots[key].invocation.value)))
  }

  predicate BoundFine(s: State, key: SlotKey)
    requires key in s.slots && key.schedule in s.records
  {
    s.slots[key].invocation.Some? && BindingOk(s, key)
  }

  /** A waiting slot whose invocation still runs. */
  predicate Unfinished(s: State, key: SlotKey)
    requires key in s.slots && key.schedule in s.records && BoundFine(s, key)
  {
    s.slots[key].state == Waiting && s.invocations[s.slots[key].invocation.value].status.Live?
  }

  /** The loop of `claim_due` over the recoverable slots. */
  ghost function Pick(s: State, scan: seq<SlotKey>, eligible: InvocationId -> bool): Result<Option<SlotKey>, ()> {
    if scan == [] then Ok(None)
    else
      var key := scan[0];
      if key.schedule !in s.records || !Readable(s, key.schedule) then Err(())
      else if PassedOver(s, key, eligible) then Pick(s, scan[1..], eligible)
      else if s.slots[key].invocation.Some? && !BindingOk(s, key) then Err(())
      else Ok(Some(key))
  }

  /** `_claim`: a new owner, the next generation and a new lease. */
  function Claimed(s: State, key: SlotKey, claimant: string, until: real): (State, Reply)
    requires key in s.slots
  {
    var slot := s.slots[key];
    var claim := Claim(key, claimant, slot.generation + 1, until);
    (s.(slots := s.slots[key := slot.(owner := claimant, generation := slot.generation + 1, leaseUntil := Some(until))],
        issued := s.issued + {claim}),
     Handed(claim))
  }

  function NewSlot(nominalAt: real, input: Json): Slot {
    Slot(nominalAt, Pending, "", 0, None, None, input)
  }

  /** The due branch of `claim_due` opens the next slot of a schedule. */
  function OpenNext(s: State, id: ScheduleId, next: real): State
    requires id in s.records
  {
    var r := s.records[id];
    s.(slots := s.slots[SlotKey(id, Nth(r.nextSequence)) := NewSlot(r.nextRunAt, r.definition.input)],
       records := s.records[id := r.(nextSequence := r.nextSequence + 1, nextRunAt := next)])
  }

  /** When a schedule is due again once its next slot is open: a periodic one at its next instant, any other
      only after that slot has finished. */
  function NextRun(cal: Calendar, r: Record): Option<real> {
    if Periodic(r.definition) then NextDue(cal, r.definition, r.nextRunAt) else Some(0.0)
  }

  ghost function ClaimNext(cal: Calendar, s: State, id: ScheduleId, claimant: string, until: real): (State, Reply) {
    if id !in s.records || !Readable(s, id) then (s, Invalid)
    else
      var r := s.records[id];
      var key, next := SlotKey(id, Nth(r.nextSequence)), NextRun(cal, r);
      if next.None? || key in s.slots then (s, Invalid)
      else Claimed(OpenNext(s, id, next.value), key, claimant, until)
  }

  ghost function ApplyClaim(cal: Calendar, s: State, op: Op): (State, Reply)
    requires op.ClaimDue?
  {
    if op.lease <= 0.0 then (s, Invalid)
    else
      match Pick(s, op.scan, op.eligible)
      case Err(_) => (s, Invalid)
      case Ok(Some(key)) => if key in s.slots then Claimed(s, key, op.claimant, op.now + op.lease) else (s, Invalid)
      case Ok(None) =>
        if op.due.None? then (s, Nothing) else ClaimNext(cal, s, op.due.value, op.claimant, op.now + op.lease)
  }

  /** `_bind`: an existing binding is returned, otherwise a new invocation is created and bound. */
  function Bound(s: State, key: SlotKey, engine: string, minted: InvocationId): (State, Reply)
    requires key in s.slots && key.schedule in s.records
  {
    var slot, r := s.slots[key], s.records[key.schedule];
    if slot.invocation.Some? then
      if !BindingOk(s, key) then (s, Invalid)
      else if s.invocations[slot.invocation.value].engine != engine then (s, Conflict)
      else (s, Handle(slot.invocation.value))
    else if minted in s.invocations || key in s.bindings then (s, Invalid)
    else
      var d := r.definition;
      (s.(invocations := s.invocations[minted := Invocation(engine, d.fingerprint, d.principal, slot.input, Live)],
          bindings := s.bindings[key := Binding(minted, engine, d.fingerprint, d.principal)],
          slots := s.slots[key := slot.(invocation := Some(minted), state := Running)],
          records := s.records[key.schedule := r.(lastInvocation := Some(minted))]),
       Handle(minted))
  }

  ghost function ApplyBind(s: State, op: Op): (State, Reply)
    requires op.Bind?
  {
    var id := op.claim.key.schedule;
    if id !in s.records || !Readable(s, id) then (s, Invalid)
    else if !s.records[id].status.Active? || !Fenced(s, op.claim, op.now) then (s, Conflict)
    else Bound(s, op.claim.key, op.engine, op.minted)
  }

  ghost function ApplyBindTrigger(s: State, op: Op): (State, Reply)
    requires op.BindTrigger?
  {
    if op.id !in s.records || !Readable(s, op.id) then (s, Invalid)
    else
      var r, key := s.records[op.id], SlotKey(op.id, Trigger(op.cycle));
      if !r.status.Active? || !r.definition.profile.On? || op.cycle == ""
         || (op.fingerprint.Some? && r.definition.fingerprint != op.fingerprint.value)
         || (op.scope.Some? && r.definition.scope != op.scope.value)
      then (s, Conflict)
      else if key in s.slots && s.slots[key].input != op.input then (s, Conflict)
      else if key in s.slots && s.slots[key].invocation.Some? then Bound(s, key, op.engine, op.minted)
      else
        var begun := if key in s.slots then s else s.(slots := s.slots[key := NewSlot(op.now, op.input)]);
        var (bound, reply) := Bound(begun, key, op.engine, op.minted);
        if reply.Handle? then (bound.(slots := bound.slots[key := bound.slots[key].(state := Pending)]), reply)
        else (s, reply)
  }

  function ApplyRenew(s: State, op: Op): (State, Reply)
    requires op.Renew?
  {
    if op.lease <= 0.0 then (s, Invalid)
    else if !Fenced(s, op.claim, op.now) then (s, Conflict)
    else
      var renewed := op.claim.(leaseUntil := op.now + op.lease);
      (s.(slots := s.slots[op.claim.key := s.slots[op.claim.key].(leaseUntil := Some(renewed.leaseUntil))],
          issued := s.issued + {renewed}),
       Handed(renewed))
  }

  function ApplyMarkWaiting(s: State, op: Op): (State, Reply)
    requires op.MarkWaiting?
  {
    if !Fenced(s, op.claim, op.now) then (s, Conflict)
    else (s.(slots := s.slots[op.claim.key := s.slots[op.claim.key].(state := Waiting, leaseUntil := None)]), Done)
  }

  /** The record once a slot has finished: an "after" schedule is due again, or closed by a failure. */
  function Retold(cal: Calendar, r: Record, op: Op, completedAt: real): Option<Record>
    requires op.Finish?
  {
    var told := r.(lastInvocation := Some(op.invocation), lastStatus := Some(op.status));
    if !r.status.Active? || !r.definition.profile.After? then Some(told)
    else if op.status != Completed then Some(told.(status := Closed(op.status)))
    else
      match NextDue(cal, r.definition, completedAt)
      case None => None
      case Some(next) => Some(told.(nextRunAt := next))
  }

  ghost function ApplyFinish(cal: Calendar, s: State, op: Op): (State, Reply)
    requires op.Finish?
  {
    if op.owned.None? || op.owned.value.key.schedule != op.id then (s, Conflict)
    else if op.id !in s.records || !Readable(s, op.id) then (s, Invalid)
    else
      var key, r := op.owned.value.key, s.records[op.id];
      if !Fenced(s, op.owned.value, op.now) then (s, Conflict)
      else if !BindingOk(s, key) then (s, Invalid)
      else
        var slot := s.slots[key];
        var i := s.invocations[slot.invocation.value];
        if slot.invocation.value != op.invocation || !i.status.Over? || i.status.outcome != op.status then (s, Conflict)
        else
          var ended := slot.(state := Ended(op.status), leaseUntil := None);
          match Retold(cal, r, op, i.status.completedAt)
          case None => (s, Invalid)
          case Some(told) => (s.(slots := s.slots[key := ended], records := s.records[op.id := told]), Done)
  }

  function Revoked(slot: Slot): Slot {
    slot.(state := Ended(Cancelled), generation := slot.generation + 1, leaseUntil := None)
  }

  ghost function ApplyCancel(s: State, op: Op): (State, Reply)
    requires op.Cancel?
  {
    if op.id !in s.records || !Readable(s, op.id) then (s, Invalid)
    else if !s.records[op.id].status.Active? then (s, Done)
    else
      (s.(records := s.records[op.id := s.records[op.id].(status := Closed(Cancelled))],
          slots := map key | key in s.slots :: if Revocable(s, op.id, key) then Revoked(s.slots[key])
                                               else s.slots[key]),
       Done)
  }

  /** ... AND state NOT IN ('completed','faulted'). */
  predicate Revocable(s: State, id: ScheduleId, key: SlotKey)
    requires key in s.slots
  {
    key.schedule == id && s.slots[key].state != Ended(Completed) && s.slots[key].state != Ended(Faulted)
  }

  function ApplyProgress(s: State, op: Op): (State, Reply)
    requires op.Progress?
  {
    if op.invocation in s.invocations && s.invocations[op.invocation].status.Live? then
      var ended := s.invocations[op.invocation].(status := Over(op.status, op.at));
      (s.(invocations := s.invocations[op.invocation := ended]), Done)
    else (s, Nothing)
  }

  ghost function Apply(cal: Calendar, s: State, op: Op): (State, Reply) {
    match op
    case Create(_, _, _, _) => ApplyCreate(cal, s, op)
    case ClaimDue(_, _, _, _, _, _, _) => ApplyClaim(cal, s, op)
    case Bind(_, _, _, _) => ApplyBind(s, op)
    case BindTrigger(_, _, _, _, _, _, _, _) => ApplyBindTrigger(s, op)
    case Renew(_, _, _) => ApplyRenew(s, op)
    case MarkWaiting(_, _) => ApplyMarkWaiting(s, op)
    case Finish(_, _, _, _, _) => ApplyFinish(cal, s, op)
    case Cancel(_) => ApplyCancel(s, op)
    case Progress(_, _, _) => ApplyProgress(s, op)
  }

  /** Clock readings are not negative, and the query results handed to `claim_due` are those of its queries. */
  ghost predicate Enabled(s: State, op: Op) {
    match op
    case Create(_, _, _, now) => now >= 0.0
    case ClaimDue(now, _, _, allowed, scan, due, _) => IsScan(s, now, allowed, scan) && IsDue(s, now, allowed, due)
    case Progress(_, _, at) => at >= 0.0
    case _ => true
  }
}
