/** The stored trigger of one schedule: registration, polling, retention and closing (_event_triggers.py, with the
    inbox, pins and selections of event_store.py).

    Everything that is fixed for the schedule (its id, fingerprint, scope and profile) is left out of the rows.
    Arrivals of other scopes only move the shared arrival counter. A digest is the value it digests. */
module EventTriggers {
  import opened Prelude
  import opened EventMatching
  import opened EventCycles

  datatype Pin = Pin(cursor: nat, active: bool)

  datatype Head = Head(ordinal: nat, cursor: nat, closed: bool, cycle: Cycle)

  /** A completed cycle bound to an invocation. */
  datatype Done = Done(ordinal: nat, invocation: string, input: seq<Json>, cycle: Cycle)

  datatype Slot = Slot(invocation: string, input: seq<Json>)

  /** `log` is not stored: it lists every arrival in scope since registration, pruned or not. */
  datatype World = World(
    active: bool,
    counter: nat,
    inbox: seq<Arrival>,
    pin: Option<Pin>,
    selections: map<nat, Event>,
    head: Option<Head>,
    decisions: map<(nat, nat), Cycle>,
    cycles: map<nat, Done>,
    slots: map<nat, Slot>,
    log: seq<Arrival>)

  // ---------------------------------------------------------------- the validator

  predicate SelectedOk(w: World, c: Cycle) {
    && (forall i :: 0 <= i < |c.selected| ==> Evidenced(w, c.selected[i]))
    && Ordered(c.selected)
  }

  /** A selection, still in the inbox as it was. */
  predicate Evidenced(w: World, a: Arrival) {
    a.sequence > 0 && a.sequence in w.selections && w.selections[a.sequence] == a.envelope && a in w.inbox
  }

  /** The saved steps of a cycle are numbered 1 to `decisions`, and the last is the cycle itself. */
  ghost predicate StepsOk(w: World, c: Cycle) {
    && (forall i: nat :: 1 <= i <= c.decisions <==> (c.ordinal, i) in w.decisions)
    && (c.decisions > 0 ==> w.decisions[(c.ordinal, c.decisions)] == c)
  }

  function Projected(t: Trigger, selected: seq<Arrival>): seq<Json> {
    seq(|selected|, i requires 0 <= i < |selected| => t.project(selected[i].envelope))
  }

  predicate BindingOk(t: Trigger, w: World, d: Done) {
    && d.ordinal == d.cycle.ordinal
    && SelectedOk(w, d.cycle)
    && d.input == Projected(t, d.cycle.selected)
    && d.ordinal in w.slots && w.slots[d.ordinal] == Slot(d.invocation, d.input)
  }

  /** Where cycle `n` must have started: at the cursor of the one before. */
  function PriorCursor(cycles: map<nat, Done>, n: nat): nat {
    if n > 1 && n - 1 in cycles then cycles[n - 1].cycle.cursor else 0
  }

  ghost predicate CycleOk(t: Trigger, w: World, n: nat) {
    && n in w.cycles
    && var d := w.cycles[n];
       && d.cycle.ordinal == n
       && StepsOk(w, d.cycle)
       && BindingOk(t, w, d)
       && PriorCursor(w.cycles, n) <= d.cycle.cursor
  }

  predicate HeadOk(w: World) {
    && w.head.Some? && w.pin.Some?
    && var (h, p) := (w.head.value, w.pin.value);
       && h.ordinal >= 1
       && p.active != h.closed && p.cursor == h.cursor
       && h.cycle.ordinal == h.ordinal && h.cycle.cursor == h.cursor
       && (forall n :: n in w.cycles ==> 1 <= n < h.ordinal)
  }

  /** `_read` accepts the stored evidence. */
  ghost predicate ReadAccepts(t: Trigger, w: World) {
    && HeadOk(w)
    && var h := w.head.value;
       && (forall n: nat :: 1 <= n < h.ordinal ==> CycleOk(t, w, n))
       && StepsOk(w, h.cycle)
       && h.cycle.start == PriorCursor(w.cycles, h.ordinal)
       && (h.cycle.decisions == 0 ==> h.cycle == Initial(h.ordinal, h.cycle.start))
       && SelectedOk(w, h.cycle)
  }

  // ---------------------------------------------------------------- calls

  datatype Op =
    | Publish(envelope: Event)
    | PublishElsewhere
    | Prune(gone: set<nat>)
    | Deactivate
    | Poll(limit: nat, roomForStep: bool, roomForCycle: bool, invocation: string)
    | Close

  datatype Reply = Failed | Idle | Bound(done: Done)

  function Published(w: World, e: Event): World {
    var a := Arrival(w.counter + 1, e);
    w.(counter := w.counter + 1, inbox := w.inbox + [a], log := if w.head.Some? then w.log + [a] else w.log)
  }

  /** First use creates the profile, the pin and the head. */
  function Registered(w: World): Option<World> {
    if w.head.Some? then Some(w)
    else if w.pin.Some? || w.cycles != map[] || w.slots != map[] then None
    else Some(w.(pin := Some(Pin(0, true)), head := Some(Head(1, 0, false, Initial(1, 0))), log := w.inbox))
  }

  function Closed(w: World): World
    requires w.head.Some?
  {
    w.(head := Some(w.head.value.(closed := true)), pin := Some(Pin(w.head.value.cursor, false)))
  }

  /** The pin may move to the cycle's cursor, with its chosen arrivals as they stand in the inbox. */
  predicate Pinnable(w: World, c: Cycle, chosen: seq<Arrival>) {
    && c.cursor <= w.counter
    && w.pin.Some? && w.pin.value.cursor <= c.cursor && w.pin.value.active
    && forall i :: 0 <= i < |chosen| ==>
         && chosen[i] in w.inbox && chosen[i].sequence <= c.cursor
         && (chosen[i].sequence in w.selections ==> w.selections[chosen[i].sequence] == chosen[i].envelope)
  }

  function Chosen(selections: map<nat, Event>, chosen: seq<Arrival>): map<nat, Event>
    decreases |chosen|
  {
    if chosen == [] then selections else Chosen(selections[chosen[0].sequence := chosen[0].envelope], chosen[1..])
  }

  /** Pin, selections and one more saved step. */
  function Saved(w: World, c: Cycle, chosen: seq<Arrival>): World {
    w.(pin := Some(Pin(c.cursor, true)),
       selections := Chosen(w.selections, chosen),
       decisions := w.decisions[(c.ordinal, c.decisions + 1) := c.(decisions := c.decisions + 1)])
  }

  function Moved(w: World, h: Head, c: Cycle): World {
    w.(head := Some(h.(cursor := c.cursor, cycle := c.(decisions := c.decisions + 1))))
  }

  /** The cycle's one invocation: the slot already bound to this cycle, or a new one. */
  function Bind(w: World, ordinal: nat, input: seq<Json>, invocation: string): Option<(World, string)> {
    if ordinal in w.slots then
      if w.slots[ordinal].input != input then None else Some((w, w.slots[ordinal].invocation))
    else Some((w.(slots := w.slots[ordinal := Slot(invocation, input)]), invocation))
  }

  function Finished(w: World, h: Head, c: Cycle, d: Done): World {
    w.(cycles := w.cycles[h.ordinal := d],
       head := Some(Head(h.ordinal + 1, c.cursor, false, Initial(h.ordinal + 1, c.cursor))))
  }

  /** A finished cycle is bound to its one invocation, and the next one starts. */
  function Complete(t: Trigger, w: World, h: Head, c: Cycle, op: Op): (World, Reply)
    requires op.Poll?
  {
    var kept, input := c.(decisions := c.decisions + 1), Projected(t, c.selected);
    if !op.roomForCycle || !SelectedOk(w, kept) || h.ordinal in w.cycles then (w, Failed)
    else
      match Bind(w, h.ordinal, input, op.invocation)
      case None => (w, Failed)
      case Some((bound, invocation)) =>
        var d := Done(h.ordinal, invocation, input, kept);
        (Finished(bound, h, c, d), Bound(d))
  }

  function Commit(t: Trigger, w: World, h: Head, c: Cycle, terminal: bool, chosen: seq<Arrival>, op: Op): (World, Reply)
    requires op.Poll?
  {
    if !Pinnable(w, c, chosen) || !op.roomForStep then (w, Failed)
    else if terminal then Attempt(w, Complete(t, Saved(w, c, chosen), h, c, op))
    else (Moved(Saved(w, c, chosen), h, c), Idle)
  }

  /** A failed transaction leaves the tables as they were. */
  function Attempt(w: World, r: (World, Reply)): (World, Reply) { if r.1.Failed? then (w, Failed) else r }

  /** A poll, once registration and validation are out of the way. */
  function PollOutcome(t: Trigger, w: World, op: Op): (World, Reply)
    requires op.Poll? && w.head.Some?
  {
    var h := w.head.value;
    if h.closed then (w, Idle)
    else if !w.active then (Closed(w), Idle)
    else if t.instant then Attempt(w, Commit(t, w, h, h.cycle, true, [], op))
    else
      var batch := Take(After(w.inbox, h.cursor), op.limit);
      match Scan(t, h.cycle, batch)
      case Broken => (w, Failed)
      case Quiet(c) => if batch == [] then (w, Idle) else Attempt(w, Commit(t, w, h, c, false, [], op))
      case Hit(c, terminal, chosen) => Attempt(w, Commit(t, w, h, c, terminal, chosen, op))
  }

  ghost function ApplyPoll(t: Trigger, w: World, op: Op): (World, Reply)
    requires op.Poll?
  {
    match Registered(w)
    case None => (w, Failed)
    case Some(r) => if ReadAccepts(t, r) then Attempt(w, PollOutcome(t, r, op)) else (w, Failed)
  }

  ghost function Apply(t: Trigger, w: World, op: Op): (World, Reply) {
    match op
    case Publish(e) => (Published(w, e), Idle)
    case PublishElsewhere => (w.(counter := w.counter + 1), Idle)
    case Prune(gone) => (w.(inbox := Without(w.inbox, gone)), Idle)
    case Deactivate => (w.(active := false), Idle)
    case Poll(_, _, _, _) => ApplyPoll(t, w, op)
    case Close =>
      match Registered(w)
      case None => (w, Failed)
      case Some(r) => if ReadAccepts(t, r) then (Closed(r), Idle) else (w, Failed)
  }

  /** Pruning spares selections and whatever an active pin has yet to scan; a new invocation is new. */
  predicate Enabled(w: World, op: Op) {
    match op
    case Prune(gone) =>
      forall s :: s in gone ==> s !in w.selections && (w.pin.Some? && w.pin.value.active ==> s <= w.pin.value.cursor)
    case Poll(limit, _, _, invocation) => limit >= 1 && forall n :: n in w.slots ==> w.slots[n].invocation != invocation
    case _ => true
  }
}
