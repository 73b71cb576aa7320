/** What every run of a trigger keeps, and what its completed cycles are. */
module EventTriggerLaws {
  import opened Prelude
  import opened EventMatching
  import opened EventCycles
  import opened EventTriggers

  // ---------------------------------------------------------------- the invariant

  /** The stored cycles 1 to `n`, without their step counts. */
  function DoneCores(cycles: map<nat, Done>, n: nat): seq<Cycle> {
    if n == 0 then [] else DoneCores(cycles, n - 1) + [if n in cycles then Core(cycles[n].cycle) else Initial(0, 0)]
  }

  function ObservedOf(w: World): Observed
    requires w.head.Some? && w.head.value.ordinal >= 1
  {
    Observed(DoneCores(w.cycles, w.head.value.ordinal - 1), Core(w.head.value.cycle))
  }

  predicate Numbered(log: seq<Arrival>, counter: nat) {
    Ordered(log) && forall i :: 0 <= i < |log| ==> 1 <= log[i].sequence <= counter
  }

  /** The cycle covers the arrivals after `start`, up to its cursor. */
  predicate Within(c: Cycle) {
    c.start <= c.cursor && forall i :: 0 <= i < |c.selected| ==> c.start < c.selected[i].sequence <= c.cursor
  }

  datatype Probe = OfTables | OfPending | OfCurrent | OfCycle(n: nat) | OfSelection(n: nat) | OfStep(n: nat, i: nat)
                 | OfSlot(n: nat) | OfSlots(n: nat, m: nat) | OfFold

  ghost predicate TablesFine(w: World) {
    && Numbered(w.inbox, w.counter) && Numbered(w.log, w.counter)
    && (w.head.None? ==> w.pin.None? && w.cycles == map[] && w.slots == map[])
    && (w.head.Some? ==> HeadOk(w) && w.head.value.cursor <= w.counter)
  }

  /** The inbox still has everything after `x` that has ever arrived. */
  predicate SamePending(inbox: seq<Arrival>, log: seq<Arrival>, x: nat) { After(inbox, x) == After(log, x) }

  ghost predicate CurrentFine(w: World) {
    w.head.Some? ==>
      var c := w.head.value.cycle;
      && StepsOk(w, c) && SelectedOk(w, c) && Within(c)
      && c.start == PriorCursor(w.cycles, c.ordinal)
      && (c.decisions == 0 ==> c == Initial(c.ordinal, c.start))
  }

  ghost predicate CycleFine(t: Trigger, w: World, n: nat) {
    w.head.Some? && 1 <= n < w.head.value.ordinal ==>
      CycleOk(t, w, n) && Within(w.cycles[n].cycle) && w.cycles[n].cycle.start == PriorCursor(w.cycles, n)
  }

  ghost predicate FoldFine(t: Trigger, w: World) {
    w.head.Some? && w.head.value.ordinal >= 1 && !t.instant ==>
      Fold(t, START, UpTo(w.log, w.head.value.cursor)) == Some(ObservedOf(w))
  }

  ghost predicate Fine(t: Trigger, w: World, x: Probe) {
    match x
    case OfTables => TablesFine(w)
    case OfPending => w.head.Some? && !w.head.value.closed ==> SamePending(w.inbox, w.log, w.head.value.cursor)
    case OfCurrent => CurrentFine(w)
    case OfCycle(n) => CycleFine(t, w, n)
    case OfSelection(n) => n in w.selections ==> w.head.Some? && 1 <= n <= w.head.value.cursor
    case OfStep(n, i) => (n, i) in w.decisions ==> w.head.Some? && n <= w.head.value.ordinal
    case OfSlot(n) => n in w.slots <==> n in w.cycles
    case OfSlots(n, m) => n in w.slots && m in w.slots && n != m ==> w.slots[n].invocation != w.slots[m].invocation
    case OfFold => FoldFine(t, w)
  }

  ghost predicate Inv(t: Trigger, w: World) {
    forall x :: Fine(t, w, x)
  }

  /** Every state that satisfies the invariant passes the runtime's own validator. */
  lemma InvReads(t: Trigger, w: World)
    requires Inv(t, w) && w.head.Some?
    ensures ReadAccepts(t, w)
  {
    assert Fine(t, w, OfTables) && Fine(t, w, OfCurrent);
    forall n: nat | 1 <= n < w.head.value.ordinal ensures CycleOk(t, w, n) { assert Fine(t, w, OfCycle(n)); }
  }

  // ---------------------------------------------------------------- arrivals, retention, closing

  lemma Appended(log: seq<Arrival>, counter: nat, e: Event)
    requires Numbered(log, counter)
    ensures Numbered(log + [Arrival(counter + 1, e)], counter + 1)
  {
  }

  lemma AppendedAfter(log: seq<Arrival>, counter: nat, e: Event, x: nat)
    requires Numbered(log, counter) && x <= counter
    ensures
      var grown := log + [Arrival(counter + 1, e)];
      After(grown, x) == After(log, x) + [Arrival(counter + 1, e)] && UpTo(grown, x) == UpTo(log, x)
  {
    Appended(log, counter, e);
    AfterGrows(log, Arrival(counter + 1, e), x);
  }

  lemma AppendedPending(inbox: seq<Arrival>, log: seq<Arrival>, counter: nat, e: Event, x: nat)
    requires Numbered(inbox, counter) && Numbered(log, counter) && x <= counter && SamePending(inbox, log, x)
    ensures SamePending(inbox + [Arrival(counter + 1, e)], log + [Arrival(counter + 1, e)], x)
  {
    AppendedAfter(inbox, counter, e, x);
    AppendedAfter(log, counter, e, x);
  }

  /** The trigger's own rows are as they were, and every selection is still in the inbox. */
  ghost predicate RowsKept(w: World, u: World) {
    && u.pin == w.pin && u.head == w.head && u.cycles == w.cycles && u.slots == w.slots && u.decisions == w.decisions
    && u.selections == w.selections
    && forall a :: Evidenced(w, a) ==> Evidenced(u, a)
  }

  lemma SelectedKept(w: World, u: World, c: Cycle)
    requires RowsKept(w, u) && SelectedOk(w, c)
    ensures SelectedOk(u, c)
  {
    forall i | 0 <= i < |c.selected| ensures Evidenced(u, c.selected[i]) { assert Evidenced(w, c.selected[i]); }
  }

  lemma RowsKeptFine(t: Trigger, w: World, u: World, x: Probe)
    requires Fine(t, w, x) && RowsKept(w, u) && !x.OfTables? && !x.OfPending? && !x.OfFold?
    ensures Fine(t, u, x)
  {
    match x {
      case OfCurrent => if w.head.Some? { SelectedKept(w, u, w.head.value.cycle); }
      case OfCycle(n) => if w.head.Some? && 1 <= n < w.head.value.ordinal { SelectedKept(w, u, w.cycles[n].cycle); }
      case _ =>
    }
  }

  lemma PublishTables(w: World, e: Event)
    requires TablesFine(w)
    ensures TablesFine(Published(w, e))
  {
    var u := Published(w, e);
    assert Numbered(u.inbox, u.counter) by { Appended(w.inbox, w.counter, e); }
    assert Numbered(u.log, u.counter) by { if w.head.Some? { Appended(w.log, w.counter, e); } }
  }

  lemma PublishRows(w: World, e: Event)
    ensures RowsKept(w, Published(w, e))
  {
  }

  lemma PublishPending(w: World, e: Event)
    requires TablesFine(w) && w.head.Some? && SamePending(w.inbox, w.log, w.head.value.cursor)
    ensures SamePending(Published(w, e).inbox, Published(w, e).log, w.head.value.cursor)
  {
    AppendedPending(w.inbox, w.log, w.counter, e, w.head.value.cursor);
  }

  lemma SameFold(t: Trigger, w: World, u: World)
    requires FoldFine(t, w) && u.head == w.head && u.cycles == w.cycles
    requires w.head.Some? ==> UpTo(u.log, w.head.value.cursor) == UpTo(w.log, w.head.value.cursor)
    ensures FoldFine(t, u)
  {
  }

  lemma PublishFold(t: Trigger, w: World, e: Event)
    requires TablesFine(w) && FoldFine(t, w)
    ensures FoldFine(t, Published(w, e))
  {
    if w.head.Some? { AppendedAfter(w.log, w.counter, e, w.head.value.cursor); }
    SameFold(t, w, Published(w, e));
  }

  lemma PublishKeeps(t: Trigger, w: World, e: Event, x: Probe)
    requires Inv(t, w)
    ensures Fine(t, Published(w, e), x)
  {
    assert Fine(t, w, x) && Fine(t, w, OfTables);
    match x {
      case OfTables => PublishTables(w, e);
      case OfPending => if w.head.Some? && !w.head.value.closed { PublishPending(w, e); }
      case OfFold => PublishFold(t, w, e);
      case _ =>
        PublishRows(w, e);
        RowsKeptFine(t, w, Published(w, e), x);
    }
  }

  lemma PruneTables(w: World, gone: set<nat>)
    requires TablesFine(w) && Enabled(w, Prune(gone))
    ensures TablesFine(w.(inbox := Without(w.inbox, gone)))
    ensures RowsKept(w, w.(inbox := Without(w.inbox, gone)))
  {
    WithoutMembers(w.inbox, gone);
    var inbox := Without(w.inbox, gone);
    assert forall i :: 0 <= i < |inbox| ==> inbox[i] in w.inbox;
  }

  lemma PruneKeeps(t: Trigger, w: World, gone: set<nat>, x: Probe)
    requires Inv(t, w) && Enabled(w, Prune(gone))
    ensures Fine(t, w.(inbox := Without(w.inbox, gone)), x)
  {
    assert Fine(t, w, x) && Fine(t, w, OfTables);
    match x {
      case OfTables => PruneTables(w, gone);
      case OfPending => if w.head.Some? && !w.head.value.closed { WithoutKeeps(w.inbox, gone, w.head.value.cursor); }
      case OfFold =>
      case _ =>
        PruneTables(w, gone);
        RowsKeptFine(t, w, w.(inbox := Without(w.inbox, gone)), x);
    }
  }

  lemma ClosedKeeps(t: Trigger, w: World, x: Probe)
    requires Inv(t, w) && w.head.Some?
    ensures Fine(t, Closed(w), x)
  {
    assert Fine(t, w, x) && Fine(t, w, OfTables);
  }

  lemma RegisteredKeeps(t: Trigger, w: World, x: Probe)
    requires Inv(t, w)
    ensures Registered(w).Some? && Fine(t, Registered(w).value, x)
  {
    assert Fine(t, w, x) && Fine(t, w, OfTables);
    assert forall n, i :: (n, i) in w.decisions ==> Fine(t, w, OfStep(n, i));
    if w.head.None? {
      assert Cut(w.inbox, 0) == 0;
      assert UpTo(w.inbox, 0) == [];
    }
  }

  // ---------------------------------------------------------------- a poll's commit

  /** A cycle ready to be saved: the stored one, moved on by a scan. */
  predicate Ready(w: World, h: Head, c: Cycle, chosen: seq<Arrival>) {
    && w.head == Some(h) && !h.closed && w.pin == Some(Pin(h.cursor, true))
    && c == h.cycle.(cursor := c.cursor, progress := c.progress, selected := h.cycle.selected + chosen)
    && h.cursor <= c.cursor <= w.counter && |chosen| <= 1
    && (chosen != [] ==> chosen[0].sequence == c.cursor && h.cursor < c.cursor && chosen[0] in w.inbox)
    && SamePending(w.inbox, w.log, c.cursor)
  }

  function Kept(c: Cycle): Cycle { c.(decisions := c.decisions + 1) }

  lemma ChosenOne(selections: map<nat, Event>, chosen: seq<Arrival>)
    requires |chosen| <= 1
    ensures Chosen(selections, chosen) == if chosen == [] then selections
                                          else selections[chosen[0].sequence := chosen[0].envelope]
  {
    if chosen != [] { assert chosen[1..] == []; }
  }

  /** Saving a step loses no evidence. */
  lemma SavedEvidence(t: Trigger, w: World, h: Head, c: Cycle, chosen: seq<Arrival>, a: Arrival)
    requires Inv(t, w) && Ready(w, h, c, chosen) && (Evidenced(w, a) || a in chosen)
    ensures Evidenced(Saved(w, c, chosen), a)
  {
    assert Fine(t, w, OfSelection(a.sequence)) && Fine(t, w, OfTables);
    ChosenOne(w.selections, chosen);
  }

  lemma SavedSelected(t: Trigger, w: World, h: Head, c: Cycle, chosen: seq<Arrival>, d: Cycle)
    requires Inv(t, w) && Ready(w, h, c, chosen) && SelectedOk(w, d)
    ensures SelectedOk(Saved(w, c, chosen), d)
  {
    forall i | 0 <= i < |d.selected| ensures Evidenced(Saved(w, c, chosen), d.selected[i]) {
      SavedEvidence(t, w, h, c, chosen, d.selected[i]);
    }
  }

  /** The saved cycle itself is in order. */
  lemma SavedWithin(t: Trigger, w: World, h: Head, c: Cycle, chosen: seq<Arrival>)
    requires Inv(t, w) && Ready(w, h, c, chosen)
    ensures Within(Kept(c)) && Ordered(c.selected)
  {
    assert Fine(t, w, OfCurrent) && Fine(t, w, OfTables);
  }

  lemma SavedSources(t: Trigger, w: World, h: Head, c: Cycle, chosen: seq<Arrival>)
    requires Inv(t, w) && Ready(w, h, c, chosen)
    ensures forall i :: 0 <= i < |c.selected| ==> Evidenced(w, c.selected[i]) || c.selected[i] in chosen
  {
    assert Fine(t, w, OfCurrent);
  }

  lemma SavedCycle(t: Trigger, w: World, h: Head, c: Cycle, chosen: seq<Arrival>)
    requires Inv(t, w) && Ready(w, h, c, chosen)
    ensures SelectedOk(Saved(w, c, chosen), Kept(c)) && Within(Kept(c))
  {
    SavedWithin(t, w, h, c, chosen);
    SavedSources(t, w, h, c, chosen);
    forall i | 0 <= i < |c.selected| ensures Evidenced(Saved(w, c, chosen), c.selected[i]) {
      SavedEvidence(t, w, h, c, chosen, c.selected[i]);
    }
  }

  lemma SavedSteps(t: Trigger, w: World, h: Head, c: Cycle, chosen: seq<Arrival>)
    requires Inv(t, w) && Ready(w, h, c, chosen)
    ensures StepsOk(Saved(w, c, chosen), Kept(c))
  {
    assert Fine(t, w, OfCurrent) && Fine(t, w, OfTables);
    assert StepsOk(w, h.cycle);
  }

  lemma SavedCycles(t: Trigger, w: World, h: Head, c: Cycle, chosen: seq<Arrival>, n: nat)
    requires Inv(t, w) && Ready(w, h, c, chosen) && 1 <= n < h.ordinal
    ensures CycleOk(t, Saved(w, c, chosen), n) && Within(w.cycles[n].cycle)
            && w.cycles[n].cycle.start == PriorCursor(w.cycles, n)
  {
    assert Fine(t, w, OfCycle(n)) && Fine(t, w, OfTables);
    SavedSelected(t, w, h, c, chosen, w.cycles[n].cycle);
    assert StepsOk(w, w.cycles[n].cycle);
  }

  lemma SavedSelections(t: Trigger, w: World, h: Head, c: Cycle, chosen: seq<Arrival>, s: nat)
    requires Inv(t, w) && Ready(w, h, c, chosen) && s in Saved(w, c, chosen).selections
    ensures 1 <= s <= c.cursor
  {
    assert Fine(t, w, OfSelection(s)) && Fine(t, w, OfTables);
    ChosenOne(w.selections, chosen);
  }

  lemma {:induction false} DoneCoresFrame(cycles: map<nat, Done>, k: nat, d: Done, n: nat)
    requires n < k
    ensures DoneCores(cycles[k := d], n) == DoneCores(cycles, n)
  {
    if n > 0 { DoneCoresFrame(cycles, k, d, n - 1); }
  }

  /** The fold has reached this observation at the cycle's cursor. */
  ghost predicate Reached(t: Trigger, w: World, c: Cycle, o: Observed) {
    !t.instant ==> Fold(t, START, UpTo(w.log, c.cursor)) == Some(o)
  }

  function Continued(w: World, c: Cycle): Observed
    requires c.ordinal >= 1
  {
    Observed(DoneCores(w.cycles, c.ordinal - 1), Core(c))
  }

  lemma MovedTables(t: Trigger, w: World, h: Head, c: Cycle, chosen: seq<Arrival>)
    requires Inv(t, w) && Ready(w, h, c, chosen)
    ensures TablesFine(Moved(Saved(w, c, chosen), h, c))
  {
    assert Fine(t, w, OfTables);
  }

  lemma MovedCurrent(t: Trigger, w: World, h: Head, c: Cycle, chosen: seq<Arrival>)
    requires Inv(t, w) && Ready(w, h, c, chosen)
    ensures CurrentFine(Moved(Saved(w, c, chosen), h, c))
  {
    assert Fine(t, w, OfCurrent) && Fine(t, w, OfTables);
    SavedCycle(t, w, h, c, chosen);
    SavedSteps(t, w, h, c, chosen);
  }

  lemma MovedRows(t: Trigger, w: World, h: Head, c: Cycle, chosen: seq<Arrival>, x: Probe)
    requires Fine(t, w, x) && Ready(w, h, c, chosen) && c.ordinal == h.ordinal
    requires x.OfPending? || x.OfStep? || x.OfSlot? || x.OfSlots?
    ensures Fine(t, Moved(Saved(w, c, chosen), h, c), x)
  {
  }

  /** A step that leaves the cycle open. */
  lemma MovedKeeps(t: Trigger, w: World, h: Head, c: Cycle, chosen: seq<Arrival>, x: Probe)
    requires Inv(t, w) && Ready(w, h, c, chosen) && c.ordinal == h.ordinal >= 1 && Reached(t, w, c, Continued(w, c))
    ensures Fine(t, Moved(Saved(w, c, chosen), h, c), x)
  {
    match x {
      case OfTables => MovedTables(t, w, h, c, chosen);
      case OfCurrent => MovedCurrent(t, w, h, c, chosen);
      case OfCycle(n) => if 1 <= n < h.ordinal { SavedCycles(t, w, h, c, chosen, n); }
      case OfSelection(s) => if s in Saved(w, c, chosen).selections { SavedSelections(t, w, h, c, chosen, s); }
      case OfFold =>
      case _ =>
        assert Fine(t, w, x);
        MovedRows(t, w, h, c, chosen, x);
    }
  }

  function Completed(t: Trigger, w: World, h: Head, c: Cycle, chosen: seq<Arrival>, invocation: string): World {
    var input := Projected(t, c.selected);
    var saved := Saved(w, c, chosen);
    Finished(saved.(slots := saved.slots[h.ordinal := Slot(invocation, input)]), h, c,
             Done(h.ordinal, invocation, input, Kept(c)))
  }

  lemma CompletedTables(t: Trigger, w: World, h: Head, c: Cycle, chosen: seq<Arrival>, invocation: string)
    requires Inv(t, w) && Ready(w, h, c, chosen)
    ensures TablesFine(Completed(t, w, h, c, chosen, invocation))
            && CurrentFine(Completed(t, w, h, c, chosen, invocation))
  {
    assert Fine(t, w, OfTables);
    var u := Completed(t, w, h, c, chosen, invocation);
    var next := h.ordinal + 1;
    forall i: nat ensures (next, i) !in u.decisions { assert Fine(t, w, OfStep(next, i)); }
  }

  lemma SameEvidence(w: World, u: World, c: Cycle)
    requires u.decisions == w.decisions && u.selections == w.selections && u.inbox == w.inbox
    ensures (StepsOk(w, c) ==> StepsOk(u, c)) && (SelectedOk(w, c) ==> SelectedOk(u, c))
  {
    if SelectedOk(w, c) {
      forall i | 0 <= i < |c.selected| ensures Evidenced(u, c.selected[i]) { assert Evidenced(w, c.selected[i]); }
    }
  }

  lemma CompletedEvidence(t: Trigger, w: World, h: Head, c: Cycle, chosen: seq<Arrival>, invocation: string)
    requires Inv(t, w) && Ready(w, h, c, chosen)
    ensures
      var u := Completed(t, w, h, c, chosen, invocation);
      StepsOk(u, Kept(c)) && SelectedOk(u, Kept(c)) && Within(Kept(c))
  {
    SavedCycle(t, w, h, c, chosen);
    SavedSteps(t, w, h, c, chosen);
    SameEvidence(Saved(w, c, chosen), Completed(t, w, h, c, chosen, invocation), Kept(c));
  }

  lemma CompletedNewest(t: Trigger, w: World, h: Head, c: Cycle, chosen: seq<Arrival>, invocation: string)
    requires Inv(t, w) && Ready(w, h, c, chosen)
    ensures CycleFine(t, Completed(t, w, h, c, chosen, invocation), h.ordinal)
  {
    var u := Completed(t, w, h, c, chosen, invocation);
    CompletedEvidence(t, w, h, c, chosen, invocation);
    assert h.cycle.ordinal == h.ordinal && h.cycle.start == PriorCursor(w.cycles, h.ordinal) by {
      assert Fine(t, w, OfTables) && Fine(t, w, OfCurrent);
    }
    assert PriorCursor(u.cycles, h.ordinal) == PriorCursor(w.cycles, h.ordinal);
    assert u.cycles[h.ordinal] == Done(h.ordinal, invocation, Projected(t, c.selected), Kept(c));
  }

  lemma CompletedOlder(t: Trigger, w: World, h: Head, c: Cycle, chosen: seq<Arrival>, invocation: string, n: nat)
    requires Inv(t, w) && Ready(w, h, c, chosen) && 1 <= n < h.ordinal
    ensures CycleFine(t, Completed(t, w, h, c, chosen, invocation), n)
  {
    var u := Completed(t, w, h, c, chosen, invocation);
    SavedCycles(t, w, h, c, chosen, n);
    assert StepsOk(u, u.cycles[n].cycle) && SelectedOk(u, u.cycles[n].cycle);
  }

  lemma CompletedFold(t: Trigger, w: World, h: Head, c: Cycle, chosen: seq<Arrival>, invocation: string)
    requires w.head == Some(h) && c.ordinal == h.ordinal >= 1
    requires Reached(t, w, c,
                     Observed(DoneCores(w.cycles, c.ordinal - 1) + [Core(c)], Initial(c.ordinal + 1, c.cursor)))
    ensures FoldFine(t, Completed(t, w, h, c, chosen, invocation))
  {
    DoneCoresFrame(w.cycles, h.ordinal, Done(h.ordinal, invocation, Projected(t, c.selected), Kept(c)), h.ordinal - 1);
  }

  /** Steps, slots and pending arrivals once a cycle has its slot. */
  lemma CompletedRows(t: Trigger, w: World, h: Head, c: Cycle, chosen: seq<Arrival>, invocation: string, x: Probe)
    requires Fine(t, w, x) && Ready(w, h, c, chosen) && c.ordinal == h.ordinal
    requires forall n :: n in w.slots ==> w.slots[n].invocation != invocation
    requires x.OfPending? || x.OfStep? || x.OfSlot? || x.OfSlots?
    ensures Fine(t, Completed(t, w, h, c, chosen, invocation), x)
  {
  }

  /** A step that completes the cycle and binds its invocation. */
  lemma CompletedKeeps(t: Trigger, w: World, h: Head, c: Cycle, chosen: seq<Arrival>, invocation: string, x: Probe)
    requires Inv(t, w) && Ready(w, h, c, chosen) && c.ordinal == h.ordinal >= 1
    requires forall n :: n in w.slots ==> w.slots[n].invocation != invocation
    requires Reached(t, w, c,
                     Observed(DoneCores(w.cycles, c.ordinal - 1) + [Core(c)], Initial(c.ordinal + 1, c.cursor)))
    ensures Fine(t, Completed(t, w, h, c, chosen, invocation), x)
  {
    match x {
      case OfTables => CompletedTables(t, w, h, c, chosen, invocation);
      case OfCurrent => CompletedTables(t, w, h, c, chosen, invocation);
      case OfCycle(n) =>
        if n == h.ordinal { CompletedNewest(t, w, h, c, chosen, invocation); }
        if 1 <= n < h.ordinal { CompletedOlder(t, w, h, c, chosen, invocation, n); }
      case OfSelection(s) => if s in Saved(w, c, chosen).selections { SavedSelections(t, w, h, c, chosen, s); }
      case OfFold => CompletedFold(t, w, h, c, chosen, invocation);
      case _ =>
        assert Fine(t, w, x);
        CompletedRows(t, w, h, c, chosen, invocation, x);
    }
  }

  // ---------------------------------------------------------------- a whole poll

  /** What a commit comes to on honest tables: only a full table can stop it. */
  function Committed(t: Trigger, w: World, h: Head, c: Cycle, terminal: bool, chosen: seq<Arrival>,
                     op: Op): (World, Reply)
    requires op.Poll?
  {
    if !op.roomForStep || (terminal && !op.roomForCycle) then (w, Failed)
    else if !terminal then (Moved(Saved(w, c, chosen), h, c), Idle)
    else (Completed(t, w, h, c, chosen, op.invocation),
          Bound(Done(h.ordinal, op.invocation, Projected(t, c.selected), Kept(c))))
  }

  lemma CommitExact(t: Trigger, w: World, h: Head, c: Cycle, terminal: bool, chosen: seq<Arrival>, op: Op)
    requires Inv(t, w) && Ready(w, h, c, chosen) && op.Poll?
    ensures Commit(t, w, h, c, terminal, chosen, op) == Committed(t, w, h, c, terminal, chosen, op)
  {
    assert Fine(t, w, OfTables) && Fine(t, w, OfSlot(h.ordinal));
    SavedCycle(t, w, h, c, chosen);
    forall i | 0 <= i < |chosen| ensures chosen[i].sequence !in w.selections {
      assert Fine(t, w, OfSelection(chosen[i].sequence));
    }
  }

  function ChosenBy(end: ScanEnd): seq<Arrival> { if end.Hit? then end.chosen else [] }

  lemma BatchMoves(inbox: seq<Arrival>, log: seq<Arrival>, x: nat, limit: nat, n: nat)
    requires Ordered(inbox) && Ordered(log) && SamePending(inbox, log, x)
    requires 0 < n <= |Take(After(inbox, x), limit)|
    ensures
      var batch := Take(After(inbox, x), limit);
      var y := batch[n - 1].sequence;
      && x < y && SamePending(inbox, log, y) && UpTo(log, y) == UpTo(log, x) + batch[..n]
      && |After(inbox, y)| < |After(inbox, x)|
  {
    var batch := Take(After(inbox, x), limit);
    assert batch[..n] == After(log, x)[..n];
    Advances(inbox, x, n);
    Advances(log, x, n);
  }

  lemma BatchInInbox(inbox: seq<Arrival>, x: nat, limit: nat)
    ensures forall a :: a in Take(After(inbox, x), limit) ==> a in inbox
  {
  }

  /** A scan of a batch has got where the fold gets over the arrivals it consumed. */
  lemma ScanReached(t: Trigger, log: seq<Arrival>, inbox: seq<Arrival>, done: seq<Cycle>, c: Cycle, limit: nat,
                    batch: seq<Arrival>)
    requires Ordered(inbox) && Ordered(log) && SamePending(inbox, log, c.cursor)
             && batch == Take(After(inbox, c.cursor), limit) != []
    requires !Scan(t, c, batch).Broken? && Fold(t, START, UpTo(log, c.cursor)) == Some(Observed(done, Core(c)))
    ensures
      var end := Scan(t, c, batch);
      && Fold(t, START, UpTo(log, end.cycle.cursor)) == Some(Observation(done, end))
      && SamePending(inbox, log, end.cycle.cursor) && c.cursor < end.cycle.cursor
      && |After(inbox, end.cycle.cursor)| < |After(inbox, c.cursor)|
      && exists a :: a in batch && a.sequence == end.cycle.cursor
  {
    var n := ScanFolds(t, done, c, batch);
    BatchMoves(inbox, log, c.cursor, limit, n);
    FoldJoins(t, START, UpTo(log, c.cursor), batch[..n]);
    assert batch[n - 1] in batch;
  }

  lemma ScanProgress(t: Trigger, w: World, h: Head, limit: nat, batch: seq<Arrival>)
    requires Inv(t, w) && w.head == Some(h) && !h.closed && !t.instant
    requires batch == Take(After(w.inbox, h.cursor), limit) != [] && !Scan(t, h.cycle, batch).Broken?
    ensures
      var end := Scan(t, h.cycle, batch);
      && h.cursor < end.cycle.cursor <= w.counter && SamePending(w.inbox, w.log, end.cycle.cursor)
      && |After(w.inbox, end.cycle.cursor)| < |After(w.inbox, h.cursor)|
      && h.ordinal >= 1 && Reached(t, w, end.cycle, Observation(DoneCores(w.cycles, h.ordinal - 1), end))
  {
    assert Fine(t, w, OfTables) && Fine(t, w, OfPending) && Fine(t, w, OfFold);
    ScanReached(t, w.log, w.inbox, DoneCores(w.cycles, h.ordinal - 1), h.cycle, limit, batch);
    BatchInInbox(w.inbox, h.cursor, limit);
  }

  /** A scan of a batch leaves a cycle ready to be saved. */
  lemma ScanReady(t: Trigger, w: World, h: Head, limit: nat, batch: seq<Arrival>)
    requires Inv(t, w) && w.head == Some(h) && !h.closed && !t.instant
    requires batch == Take(After(w.inbox, h.cursor), limit) != [] && !Scan(t, h.cycle, batch).Broken?
    ensures
      var end := Scan(t, h.cycle, batch);
      Ready(w, h, end.cycle, ChosenBy(end)) && end.cycle.ordinal == h.ordinal
  {
    assert HeadOk(w) by { assert Fine(t, w, OfTables); }
    ScanProgress(t, w, h, limit, batch);
    ScanShape(t, h.cycle, batch);
    BatchInInbox(w.inbox, h.cursor, limit);
    assert h.cycle.selected + [] == h.cycle.selected;
  }

  lemma InstantReady(t: Trigger, w: World, h: Head)
    requires Inv(t, w) && w.head == Some(h) && !h.closed
    ensures Ready(w, h, h.cycle, [])
  {
    assert Fine(t, w, OfTables) && Fine(t, w, OfPending);
    assert h.cycle.selected + [] == h.cycle.selected;
  }

  lemma InstantKeeps(t: Trigger, w: World, op: Op, x: Probe)
    requires Inv(t, w) && Enabled(w, op) && op.Poll? && w.head.Some? && !w.head.value.closed && t.instant
    ensures Fine(t, Commit(t, w, w.head.value, w.head.value.cycle, true, [], op).0, x)
  {
    var h := w.head.value;
    assert Fine(t, w, x) && Fine(t, w, OfTables);
    InstantReady(t, w, h);
    CommitExact(t, w, h, h.cycle, true, [], op);
    CompletedKeeps(t, w, h, h.cycle, [], op.invocation, x);
  }

  /** How a cycle stands after a scan: done, or still in progress. */
  function Standing(w: World, c: Cycle, terminal: bool): Observed
    requires c.ordinal >= 1
  {
    if terminal then Observed(DoneCores(w.cycles, c.ordinal - 1) + [Core(c)], Initial(c.ordinal + 1, c.cursor))
    else Continued(w, c)
  }

  lemma StandingIsObserved(w: World, end: ScanEnd)
    requires !end.Broken? && end.cycle.ordinal >= 1
    ensures Observation(DoneCores(w.cycles, end.cycle.ordinal - 1), end)
            == Standing(w, end.cycle, end.Hit? && end.terminal)
  {
  }

  /** A scan of the next batch ends in the fold of what it consumed. */
  lemma ScanFolded(t: Trigger, w: World, h: Head, limit: nat, batch: seq<Arrival>)
    requires Inv(t, w) && w.head == Some(h) && !h.closed && !t.instant
    requires batch == Take(After(w.inbox, h.cursor), limit) != [] && !Scan(t, h.cycle, batch).Broken?
    ensures
      var end := Scan(t, h.cycle, batch);
      && Ready(w, h, end.cycle, ChosenBy(end)) && end.cycle.ordinal == h.ordinal >= 1
      && Reached(t, w, end.cycle, Standing(w, end.cycle, end.Hit? && end.terminal))
  {
    ScanReady(t, w, h, limit, batch);
    ScanProgress(t, w, h, limit, batch);
    StandingIsObserved(w, Scan(t, h.cycle, batch));
  }

  lemma CommittedKeeps(t: Trigger, w: World, h: Head, c: Cycle, terminal: bool, chosen: seq<Arrival>, op: Op, x: Probe)
    requires Inv(t, w) && Ready(w, h, c, chosen) && c.ordinal == h.ordinal >= 1 && op.Poll? && Enabled(w, op)
    requires Reached(t, w, c, Standing(w, c, terminal))
    ensures Fine(t, Committed(t, w, h, c, terminal, chosen, op).0, x)
  {
    assert Fine(t, w, x);
    if terminal {
      CompletedKeeps(t, w, h, c, chosen, op.invocation, x);
    } else {
      MovedKeeps(t, w, h, c, chosen, x);
    }
  }

  lemma ScanKeeps(t: Trigger, w: World, op: Op, x: Probe)
    requires Inv(t, w) && Enabled(w, op) && op.Poll? && w.head.Some? && !w.head.value.closed && !t.instant
    requires Take(After(w.inbox, w.head.value.cursor), op.limit) != []
    requires !Scan(t, w.head.value.cycle, Take(After(w.inbox, w.head.value.cursor), op.limit)).Broken?
    ensures
      var end := Scan(t, w.head.value.cycle, Take(After(w.inbox, w.head.value.cursor), op.limit));
      Fine(t, Commit(t, w, w.head.value, end.cycle, end.Hit? && end.terminal, ChosenBy(end), op).0, x)
  {
    var h := w.head.value;
    var end := Scan(t, h.cycle, Take(After(w.inbox, h.cursor), op.limit));
    var terminal := end.Hit? && end.terminal;
    ScanFolded(t, w, h, op.limit, Take(After(w.inbox, h.cursor), op.limit));
    CommitExact(t, w, h, end.cycle, terminal, ChosenBy(end), op);
    CommittedKeeps(t, w, h, end.cycle, terminal, ChosenBy(end), op, x);
  }

  /** A poll that has arrivals to scan. */
  lemma ScanCommits(t: Trigger, w: World, op: Op)
    requires Inv(t, w) && op.Poll? && w.head.Some? && !w.head.value.closed && w.active && !t.instant
    requires Take(After(w.inbox, w.head.value.cursor), op.limit) != []
    requires !Scan(t, w.head.value.cycle, Take(After(w.inbox, w.head.value.cursor), op.limit)).Broken?
    ensures
      var end := Scan(t, w.head.value.cycle, Take(After(w.inbox, w.head.value.cursor), op.limit));
      PollOutcome(t, w, op) == Committed(t, w, w.head.value, end.cycle, end.Hit? && end.terminal, ChosenBy(end), op)
  {
    var h := w.head.value;
    var batch := Take(After(w.inbox, h.cursor), op.limit);
    var end := Scan(t, h.cycle, batch);
    ScanReady(t, w, h, op.limit, batch);
    CommitExact(t, w, h, end.cycle, end.Hit? && end.terminal, ChosenBy(end), op);
  }

  lemma CommittedMoves(t: Trigger, w: World, h: Head, c: Cycle, terminal: bool, chosen: seq<Arrival>, op: Op)
    requires op.Poll? && w.head == Some(h) && !h.closed && h.cursor <= c.cursor
    ensures
      var (u, reply) := Committed(t, w, h, c, terminal, chosen, op);
      && (reply.Failed? <==> !op.roomForStep || (terminal && !op.roomForCycle))
      && u.log == w.log && u.inbox == w.inbox && u.active == w.active && u.head.Some? && !u.head.value.closed
      && u.head.value.cursor == if reply.Failed? then h.cursor else c.cursor
  {
  }

  lemma OutcomeKeeps(t: Trigger, w: World, op: Op, x: Probe)
    requires Inv(t, w) && Enabled(w, op) && op.Poll? && w.head.Some?
    ensures Fine(t, PollOutcome(t, w, op).0, x)
  {
    assert Fine(t, w, x);
    var h := w.head.value;
    if !h.closed {
      if !w.active {
        ClosedKeeps(t, w, x);
      } else if t.instant {
        InstantKeeps(t, w, op, x);
      } else {
        var batch := Take(After(w.inbox, h.cursor), op.limit);
        if batch != [] && !Scan(t, h.cycle, batch).Broken? { ScanKeeps(t, w, op, x); }
      }
    }
  }

  lemma RegisteredInv(t: Trigger, w: World)
    requires Inv(t, w)
    ensures Registered(w).Some? && Registered(w).value.head.Some? && Inv(t, Registered(w).value)
    ensures ReadAccepts(t, Registered(w).value)
  {
    RegisteredKeeps(t, w, OfTables);
    forall x ensures Fine(t, Registered(w).value, x) { RegisteredKeeps(t, w, x); }
    InvReads(t, Registered(w).value);
  }

  lemma PollKeeps(t: Trigger, w: World, op: Op, x: Probe)
    requires Inv(t, w) && Enabled(w, op) && op.Poll?
    ensures Fine(t, ApplyPoll(t, w, op).0, x)
  {
    assert Fine(t, w, x);
    RegisteredInv(t, w);
    OutcomeKeeps(t, Registered(w).value, op, x);
  }

  /** Every call keeps the invariant. */
  lemma ApplyKeeps(t: Trigger, w: World, op: Op)
    requires Inv(t, w) && Enabled(w, op)
    ensures Inv(t, Apply(t, w, op).0)
  {
    forall x ensures Fine(t, Apply(t, w, op).0, x) { StepKeeps(t, w, op, x); }
  }

  lemma StepKeeps(t: Trigger, w: World, op: Op, x: Probe)
    requires Inv(t, w) && Enabled(w, op)
    ensures Fine(t, Apply(t, w, op).0, x)
  {
    match op {
      case Publish(e) => PublishKeeps(t, w, e, x);
      case PublishElsewhere => CounterKeeps(t, w, x);
      case Prune(gone) => PruneKeeps(t, w, gone, x);
      case Deactivate => DeactivateKeeps(t, w, x);
      case Poll(_, _, _, _) => PollKeeps(t, w, op, x);
      case Close => CloseKeeps(t, w, x);
    }
  }

  lemma CloseKeeps(t: Trigger, w: World, x: Probe)
    requires Inv(t, w)
    ensures Fine(t, Apply(t, w, Close).0, x)
  {
    RegisteredInv(t, w);
    ClosedKeeps(t, Registered(w).value, x);
  }

  lemma CounterKeeps(t: Trigger, w: World, x: Probe)
    requires Inv(t, w)
    ensures Fine(t, w.(counter := w.counter + 1), x)
  {
    assert Fine(t, w, x);
    match x {
      case OfTables =>
      case OfPending =>
      case OfFold =>
      case _ => RowsKeptFine(t, w, w.(counter := w.counter + 1), x);
    }
  }

  lemma DeactivateKeeps(t: Trigger, w: World, x: Probe)
    requires Inv(t, w)
    ensures Fine(t, w.(active := false), x)
  {
    assert Fine(t, w, x);
    match x {
      case OfTables =>
      case OfPending =>
      case OfFold =>
      case _ => RowsKeptFine(t, w, w.(active := false), x);
    }
  }

  // ---------------------------------------------------------------- whole runs

  ghost function Run(t: Trigger, w: World, ops: seq<Op>): World
    decreases |ops|
  {
    if ops == [] then w else Run(t, Apply(t, w, ops[0]).0, ops[1..])
  }

  ghost predicate Allowed(t: Trigger, w: World, ops: seq<Op>)
    decreases |ops|
  {
    ops == [] || (Enabled(w, ops[0]) && Allowed(t, Apply(t, w, ops[0]).0, ops[1..]))
  }

  lemma {:induction false} RunKeeps(t: Trigger, w: World, ops: seq<Op>)
    requires Inv(t, w) && Allowed(t, w, ops)
    ensures Inv(t, Run(t, w, ops))
    decreases |ops|
  {
    if ops != [] {
      ApplyKeeps(t, w, ops[0]);
      RunKeeps(t, Apply(t, w, ops[0]).0, ops[1..]);
    }
  }

  const EMPTY := World(true, 0, [], None, map[], None, map[], map[], map[], [])

  ghost predicate Reachable(t: Trigger, w: World) {
    exists ops :: Allowed(t, EMPTY, ops) && Run(t, EMPTY, ops) == w
  }

  lemma ReachableInv(t: Trigger, w: World)
    requires Reachable(t, w)
    ensures Inv(t, w)
  {
    assert forall x :: Fine(t, EMPTY, x);
    var ops :| Allowed(t, EMPTY, ops) && Run(t, EMPTY, ops) == w;
    RunKeeps(t, EMPTY, ops);
  }

  /** Every state reached by registration, polls, closing, arrivals and pruning passes the runtime's validator. */
  lemma EvidenceAccepted(t: Trigger, w: World)
    requires Reachable(t, w) && w.head.Some?
    ensures ReadAccepts(t, w)
  {
    ReachableInv(t, w);
    InvReads(t, w);
  }

  // ---------------------------------------------------------------- cycles

  /** The stored cycle `n`: a completed one, or the one in progress. */
  function StoredCycle(w: World, n: nat): Cycle
    requires w.head.Some?
  {
    if n in w.cycles then w.cycles[n].cycle else w.head.value.cycle
  }

  /** Consecutive cycles cover consecutive stretches of the arrivals, from 0 to the trigger's cursor. */
  lemma CyclesTile(t: Trigger, w: World, n: nat)
    requires Reachable(t, w) && w.head.Some? && 1 <= n <= w.head.value.ordinal
    ensures
      var c := StoredCycle(w, n);
      && c.ordinal == n && c.start == (if n == 1 then 0 else StoredCycle(w, n - 1).cursor) && Within(c)
      && Ordered(c.selected)
      && (n == w.head.value.ordinal ==> c.cursor == w.head.value.cursor)
  {
    ReachableInv(t, w);
    assert Fine(t, w, OfTables) && Fine(t, w, OfCurrent) && Fine(t, w, OfCycle(n));
    if n > 1 { assert Fine(t, w, OfCycle(n - 1)); }
  }

  lemma {:induction false} CyclesApart(t: Trigger, w: World, m: nat, n: nat)
    requires Reachable(t, w) && w.head.Some? && 1 <= m < n <= w.head.value.ordinal
    ensures StoredCycle(w, m).cursor <= StoredCycle(w, n).start
    decreases n
  {
    CyclesTile(t, w, n);
    CyclesTile(t, w, n - 1);
    if m < n - 1 { CyclesApart(t, w, m, n - 1); }
  }

  /** No arrival is selected twice, in one cycle or in two. */
  lemma SelectedOnce(t: Trigger, w: World, m: nat, i: nat, n: nat, j: nat)
    requires Reachable(t, w) && w.head.Some? && 1 <= m <= n <= w.head.value.ordinal
    requires i < |StoredCycle(w, m).selected| && j < |StoredCycle(w, n).selected|
    requires StoredCycle(w, m).selected[i].sequence == StoredCycle(w, n).selected[j].sequence
    ensures m == n && i == j
  {
    CyclesTile(t, w, m);
    CyclesTile(t, w, n);
    if m < n { CyclesApart(t, w, m, n); }
  }

  /** Completed cycles and invocations match one to one: cycles 1 to ordinal - 1, each with an invocation of its own. */
  lemma OneInvocationEach(t: Trigger, w: World, m: nat, n: nat)
    requires Reachable(t, w) && w.head.Some?
    ensures n in w.cycles <==> 1 <= n < w.head.value.ordinal
    ensures n in w.cycles <==> n in w.slots
    ensures n in w.cycles ==>
            w.cycles[n].invocation == w.slots[n].invocation
            && w.cycles[n].input == Projected(t, w.cycles[n].cycle.selected)
    ensures m in w.cycles && n in w.cycles && m != n ==> w.cycles[m].invocation != w.cycles[n].invocation
  {
    ReachableInv(t, w);
    assert Fine(t, w, OfTables) && Fine(t, w, OfSlot(m)) && Fine(t, w, OfSlot(n)) && Fine(t, w, OfSlots(m, n));
    assert Fine(t, w, OfCycle(m)) && Fine(t, w, OfCycle(n));
  }

  // ---------------------------------------------------------------- batching does not matter

  /** Nothing is left to scan. */
  predicate Quiescent(w: World) { w.head.Some? && !w.head.value.closed && After(w.inbox, w.head.value.cursor) == [] }

  /** At every moment, the cycles are those of the one-at-a-time fold over what has been consumed. */
  lemma PolledIsFolded(t: Trigger, w: World)
    requires Reachable(t, w) && w.head.Some? && !t.instant
    ensures w.head.value.ordinal >= 1 && Fold(t, START, UpTo(w.log, w.head.value.cursor)) == Some(ObservedOf(w))
  {
    ReachableInv(t, w);
    assert Fine(t, w, OfTables) && Fine(t, w, OfFold);
  }

  /** Once everything has been consumed, they are those of the whole log. */
  lemma QuiescentIsFolded(t: Trigger, w: World)
    requires Reachable(t, w) && Quiescent(w) && !t.instant
    ensures w.head.value.ordinal >= 1 && Fold(t, START, w.log) == Some(ObservedOf(w))
  {
    PolledIsFolded(t, w);
    ReachableInv(t, w);
    assert Fine(t, w, OfPending);
    assert UpTo(w.log, w.head.value.cursor) == w.log;
  }

  /** Two histories with the same arrivals end alike, whatever their batches, pruning and failures. */
  lemma BatchingIrrelevant(t: Trigger, w: World, u: World)
    requires Reachable(t, w) && Reachable(t, u) && Quiescent(w) && Quiescent(u) && !t.instant && w.log == u.log
    ensures w.head.value.ordinal >= 1 && u.head.value.ordinal >= 1 && ObservedOf(w) == ObservedOf(u)
  {
    QuiescentIsFolded(t, w);
    QuiescentIsFolded(t, u);
  }

  // ---------------------------------------------------------------- what a stored cycle holds

  lemma {:induction false} DoneCoresAt(cycles: map<nat, Done>, k: nat, n: nat)
    requires 1 <= n <= k && n in cycles
    ensures |DoneCores(cycles, k)| == k && DoneCores(cycles, k)[n - 1] == Core(cycles[n].cycle)
    decreases k
  {
    if n < k { DoneCoresAt(cycles, k - 1, n); } else { DoneCoresSize(cycles, k - 1); }
  }

  lemma {:induction false} DoneCoresSize(cycles: map<nat, Done>, k: nat)
    ensures |DoneCores(cycles, k)| == k
  {
    if k > 0 { DoneCoresSize(cycles, k - 1); }
  }

  /** The stored cycles are those of the observation, in order. */
  lemma StoredIsObserved(t: Trigger, w: World, n: nat)
    requires Inv(t, w) && w.head.Some? && 1 <= n <= w.head.value.ordinal
    ensures
      var o, c := ObservedOf(w), Core(StoredCycle(w, n));
      |o.done| == w.head.value.ordinal - 1 && c == if n <= |o.done| then o.done[n - 1] else o.current
  {
    assert Fine(t, w, OfTables) && Fine(t, w, OfCycle(n));
    DoneCoresSize(w.cycles, w.head.value.ordinal - 1);
    if n < w.head.value.ordinal { DoneCoresAt(w.cycles, w.head.value.ordinal - 1, n); }
  }

  /** A stored cycle is the matcher carried over the arrivals of its own stretch. */
  lemma StoredFromInterval(t: Trigger, w: World, n: nat)
    requires Reachable(t, w) && w.head.Some? && !t.instant && 1 <= n <= w.head.value.ordinal
    ensures FromInterval(t, UpTo(w.log, w.head.value.cursor), Core(StoredCycle(w, n)))
  {
    PolledIsFolded(t, w);
    ReachableInv(t, w);
    assert Numbered(w.log, w.counter) by { assert Fine(t, w, OfTables); }
    FoldIntervals(t, UpTo(w.log, w.head.value.cursor), ObservedOf(w));
    StoredIsObserved(t, w, n);
  }

  /** Its selections are the events of the decisions taken there that are not terminators. */
  lemma StoredSelections(v: Services, s: Strategy, w: World, n: nat)
    requires Reachable(Compile(v, s), w) && w.head.Some? && !Instant(s) && 1 <= n <= w.head.value.ordinal
    ensures
      var c := StoredCycle(w, n);
      var ds := Decisions(v, s, FRESH, Envelopes(Between(UpTo(w.log, w.head.value.cursor), c.start, c.cursor)));
      ds.Ok? && Envelopes(c.selected) == Selecting(ds.value)
  {
    var c := StoredCycle(w, n);
    StoredFromInterval(Compile(v, s), w, n);
    CarryDecides(v, s, Initial(c.ordinal, c.start), Between(UpTo(w.log, w.head.value.cursor), c.start, c.cursor),
                 Core(c));
  }

  /** Whatever rules of the filters they matched share a name, two decisions extracted equal values for it. */
  ghost predicate ExtractAlike(v: Services, s: Strategy, x: (Event, Decision), y: (Event, Decision)) {
    forall f: nat, g: nat, a: nat, b: nat ::
      RuleOf(s, x.1, f, a) && RuleOf(s, y.1, g, b) && s.filters[f].correlate[a].0 == s.filters[g].correlate[b].0 ==>
        && v.evaluate(s.filters[f].correlate[a].1.from, x.0).Ok?
        && v.evaluate(s.filters[g].correlate[b].1.from, y.0).Ok?
        && JsonEqual(v.evaluate(s.filters[f].correlate[a].1.from, x.0).value,
                     v.evaluate(s.filters[g].correlate[b].1.from, y.0).value)
  }

  /** Rule `a` of filter `f`, which the decision matched. */
  predicate RuleOf(s: Strategy, d: Decision, f: nat, a: nat) {
    f in d.indices && f < |s.filters| && a < |s.filters[f].correlate|
  }

  /** Any two selected events of a stored cycle agree on every correlation name shared by the filters they matched. */
  lemma StoredSelectionsAgree(v: Services, s: Strategy, w: World, n: nat, i: nat, j: nat)
    returns (x: Decision, y: Decision)
    requires Reachable(Compile(v, s), w) && w.head.Some? && !Instant(s) && WellFormed(s)
             && 1 <= n <= w.head.value.ordinal
    requires i <= j < |StoredCycle(w, n).selected|
    ensures
      var c := StoredCycle(w, n);
      var ds := Decisions(v, s, FRESH, Envelopes(Between(UpTo(w.log, w.head.value.cursor), c.start, c.cursor)));
      && ds.Ok? && (c.selected[i].envelope, x) in ds.value && (c.selected[j].envelope, y) in ds.value
      && !x.terminator && !y.terminator
      && ExtractAlike(v, s, (c.selected[i].envelope, x), (c.selected[j].envelope, y))
  {
    var c := StoredCycle(w, n);
    var events := Envelopes(Between(UpTo(w.log, w.head.value.cursor), c.start, c.cursor));
    StoredSelections(v, s, w, n);
    var ds := Decisions(v, s, FRESH, events).value;
    var p, q := SelectingPair(ds, i, j);
    x, y := ds[p].1, ds[q].1;
    DecisionsAlike(v, s, events, ds, p, q);
    assert Envelopes(c.selected)[i] == c.selected[i].envelope && Envelopes(c.selected)[j] == c.selected[j].envelope;
  }

  lemma DecisionsAlike(v: Services, s: Strategy, events: seq<Event>, ds: seq<(Event, Decision)>, p: nat, q: nat)
    requires WellFormed(s) && Decisions(v, s, FRESH, events) == Ok(ds) && p <= q < |ds|
    ensures ExtractAlike(v, s, ds[p], ds[q])
  {
    forall f: nat, g: nat, a: nat, b: nat | RuleOf(s, ds[p].1, f, a) && RuleOf(s, ds[q].1, g, b)
                        && s.filters[f].correlate[a].0 == s.filters[g].correlate[b].0
      ensures
        && v.evaluate(s.filters[f].correlate[a].1.from, ds[p].0).Ok?
        && v.evaluate(s.filters[g].correlate[b].1.from, ds[q].0).Ok?
        && JsonEqual(v.evaluate(s.filters[f].correlate[a].1.from, ds[p].0).value,
                     v.evaluate(s.filters[g].correlate[b].1.from, ds[q].0).value)
    {
      SelectedEventsAgree(v, s, events, ds, p, f, a, q, g, b);
    }
  }

  // ---------------------------------------------------------------- polling gets there

  lemma {:induction false} UnbrokenScan(t: Trigger, done: seq<Cycle>, c: Cycle, batch: seq<Arrival>)
    requires Fold(t, Observed(done, Core(c)), batch).Some?
    ensures !Scan(t, c, batch).Broken?
    decreases |batch|
  {
    if batch != [] && Judge(t, c, batch[0]).Ignored? {
      UnbrokenScan(t, done, c.(cursor := batch[0].sequence), batch[1..]);
    }
  }

  /** The matcher faults on no arrival of this log. */
  ghost predicate Faultless(t: Trigger, log: seq<Arrival>) { Fold(t, START, log).Some? }

  lemma FaultlessScan(t: Trigger, log: seq<Arrival>, x: nat, n: nat, done: seq<Cycle>, c: Cycle)
    requires Faultless(t, log) && Fold(t, START, UpTo(log, x)) == Some(Observed(done, Core(c))) && n <= |After(log, x)|
    ensures !Scan(t, c, After(log, x)[..n]).Broken?
  {
    var pending := After(log, x);
    assert UpTo(log, x) + pending == log && pending[..n] + pending[n..] == pending;
    FoldJoins(t, START, UpTo(log, x), pending);
    FoldJoins(t, Observed(done, Core(c)), pending[..n], pending[n..]);
    UnbrokenScan(t, done, c, pending[..n]);
  }

  lemma FaultlessBatch(t: Trigger, w: World, limit: nat)
    requires Inv(t, w) && w.head.Some? && !w.head.value.closed && !t.instant && Faultless(t, w.log)
    ensures !Scan(t, w.head.value.cycle, Take(After(w.inbox, w.head.value.cursor), limit)).Broken?
  {
    var h := w.head.value;
    assert HeadOk(w) && Ordered(w.log) by { assert Fine(t, w, OfTables); }
    assert SamePending(w.inbox, w.log, h.cursor) by { assert Fine(t, w, OfPending); }
    assert FoldFine(t, w) by { assert Fine(t, w, OfFold); }
    var batch := Take(After(w.inbox, h.cursor), limit);
    assert batch == After(w.log, h.cursor)[..|batch|];
    FaultlessScan(t, w.log, h.cursor, |batch|, DoneCores(w.cycles, h.ordinal - 1), h.cycle);
  }

  /** A poll with room either finds nothing to do or moves on. */
  lemma PollAdvances(t: Trigger, w: World, op: Op)
    requires Inv(t, w) && Enabled(w, op) && op.Poll? && op.roomForStep && op.roomForCycle
    requires w.head.Some? && !w.head.value.closed && w.active && !t.instant && Faultless(t, w.log)
    ensures
      var (u, reply) := Apply(t, w, op);
      && !reply.Failed? && u.log == w.log && u.active && u.head.Some? && !u.head.value.closed
      && if Quiescent(w) then u == w
         else w.head.value.cursor < u.head.value.cursor
              && |After(u.inbox, u.head.value.cursor)| < |After(w.inbox, w.head.value.cursor)|
  {
    var h := w.head.value;
    var batch := Take(After(w.inbox, h.cursor), op.limit);
    InvReads(t, w);
    FaultlessBatch(t, w, op.limit);
    if !Quiescent(w) {
      var end := Scan(t, h.cycle, batch);
      ScanCommits(t, w, op);
      ScanProgress(t, w, h, op.limit, batch);
      CommittedMoves(t, w, h, end.cycle, end.Hit? && end.terminal, ChosenBy(end), op);
    }
  }

  /** Enough polls, of any batch sizes, consume the whole log: the cycles are then those of the fold over it. */
  lemma {:induction false} PollsDrain(t: Trigger, w: World, polls: seq<Op>)
    requires Inv(t, w) && w.head.Some? && !w.head.value.closed && w.active && !t.instant && Faultless(t, w.log)
    requires Allowed(t, w, polls) && forall i :: 0 <= i < |polls| ==>
             polls[i].Poll? && polls[i].roomForStep && polls[i].roomForCycle
    requires |After(w.inbox, w.head.value.cursor)| <= |polls|
    ensures
      var u := Run(t, w, polls);
      Quiescent(u) && u.log == w.log && u.head.value.ordinal >= 1 && Some(ObservedOf(u)) == Fold(t, START, w.log)
    decreases |polls|
  {
    if polls == [] {
      assert Fine(t, w, OfTables) && Fine(t, w, OfPending) && Fine(t, w, OfFold);
      assert UpTo(w.log, w.head.value.cursor) == w.log;
    } else {
      PollAdvances(t, w, polls[0]);
      ApplyKeeps(t, w, polls[0]);
      PollsDrain(t, Apply(t, w, polls[0]).0, polls[1..]);
    }
  }

  // ---------------------------------------------------------------- a fault is final

  lemma {:induction false} FaultlessPrefix(t: Trigger, o: Observed, log: seq<Arrival>, n: nat)
    requires n <= |log| && Fold(t, o, log).Some?
    ensures Fold(t, o, log[..n]).Some?
  {
    assert log[..n] + log[n..] == log;
    FoldJoins(t, o, log[..n], log[n..]);
  }

  /** Everything up to the cursor has been folded without a fault. */
  lemma PassedIsFaultless(t: Trigger, w: World, n: nat)
    requires Reachable(t, w) && w.head.Some? && !t.instant && n < Cut(w.log, w.head.value.cursor)
    ensures Faultless(t, w.log[..n + 1])
  {
    PolledIsFolded(t, w);
    var k := Cut(w.log, w.head.value.cursor);
    FaultlessPrefix(t, START, w.log[..k], n + 1);
    assert w.log[..k][..n + 1] == w.log[..n + 1];
  }

  /** No run passes an arrival on which the one-at-a-time fold faults. */
  lemma FaultNeverPassed(t: Trigger, w: World, n: nat)
    requires Reachable(t, w) && w.head.Some? && !t.instant && n < |w.log| && !Faultless(t, w.log[..n + 1])
    ensures w.head.value.cursor < w.log[n].sequence
  {
    ReachableInv(t, w);
    assert Fine(t, w, OfTables);
    if n < Cut(w.log, w.head.value.cursor) { PassedIsFaultless(t, w, n); }
  }

  /** Arrivals, the cursor and a closed head only go forward. */
  predicate Onward(w: World, u: World) {
    w.head.Some? ==>
      && u.head.Some? && w.log <= u.log && w.head.value.cursor <= u.head.value.cursor
      && (w.head.value.closed ==> u.head.value.closed)
  }

  lemma OutcomeOnward(t: Trigger, w: World, op: Op)
    requires Inv(t, w) && op.Poll? && w.head.Some?
    ensures Onward(w, PollOutcome(t, w, op).0)
  {
    var h := w.head.value;
    if !h.closed && w.active {
      if t.instant { InstantOnward(t, w, op); } else { ScanOnward(t, w, op); }
    }
  }

  lemma InstantOnward(t: Trigger, w: World, op: Op)
    requires Inv(t, w) && op.Poll? && w.head.Some? && !w.head.value.closed && w.active && t.instant
    ensures Onward(w, PollOutcome(t, w, op).0)
  {
    var h := w.head.value;
    assert Fine(t, w, OfTables);
    InstantReady(t, w, h);
    CommitExact(t, w, h, h.cycle, true, [], op);
    CommittedMoves(t, w, h, h.cycle, true, [], op);
  }

  lemma ScanOnward(t: Trigger, w: World, op: Op)
    requires Inv(t, w) && op.Poll? && w.head.Some? && !w.head.value.closed && w.active && !t.instant
    ensures Onward(w, PollOutcome(t, w, op).0)
  {
    var h := w.head.value;
    var batch := Take(After(w.inbox, h.cursor), op.limit);
    var end := Scan(t, h.cycle, batch);
    if batch != [] && !end.Broken? {
      ScanCommits(t, w, op);
      ScanProgress(t, w, h, op.limit, batch);
      CommittedMoves(t, w, h, end.cycle, end.Hit? && end.terminal, ChosenBy(end), op);
    }
  }

  lemma StepOnward(t: Trigger, w: World, op: Op)
    requires Inv(t, w)
    ensures Onward(w, Apply(t, w, op).0)
  {
    if w.head.Some? && op.Poll? { OutcomeOnward(t, w, op); }
  }

  lemma {:induction false} RunOnward(t: Trigger, w: World, ops: seq<Op>)
    requires Inv(t, w) && Allowed(t, w, ops)
    ensures Onward(w, Run(t, w, ops))
    decreases |ops|
  {
    if ops != [] {
      StepOnward(t, w, ops[0]);
      ApplyKeeps(t, w, ops[0]);
      RunOnward(t, Apply(t, w, ops[0]).0, ops[1..]);
    }
  }

  /** The next arrival to scan is one on which the matcher faults. */
  predicate Stuck(t: Trigger, w: World) {
    && w.head.Some?
    && var pending := After(w.log, w.head.value.cursor);
       pending != [] && Judge(t, w.head.value.cycle, pending[0]).Faulted?
  }

  /** A stuck trigger can only fail, close or stay as it is. */
  lemma StuckFails(t: Trigger, w: World, poll: Op)
    requires Inv(t, w) && Stuck(t, w) && !t.instant && poll.Poll? && poll.limit >= 1
    requires w.active && !w.head.value.closed
    ensures Apply(t, w, poll) == (w, Failed)
  {
    assert Fine(t, w, OfPending);
    InvReads(t, w);
    var h := w.head.value;
    var pending, batch := After(w.inbox, h.cursor), Take(After(w.inbox, h.cursor), poll.limit);
    assert batch[0] == pending[0];
    assert Scan(t, h.cycle, batch).Broken?;
  }

  lemma StuckFold(t: Trigger, w: World)
    requires Reachable(t, w) && Stuck(t, w) && !t.instant
    ensures
      var n := Cut(w.log, w.head.value.cursor);
      n < |w.log| && !Faultless(t, w.log[..n + 1])
  {
    PolledIsFolded(t, w);
    var n := Cut(w.log, w.head.value.cursor);
    assert w.log[..n + 1] == w.log[..n] + [w.log[n]];
    FoldJoins(t, START, w.log[..n], [w.log[n]]);
  }

  lemma {:induction false} AllowedJoins(t: Trigger, w: World, a: seq<Op>, b: seq<Op>)
    requires Allowed(t, w, a) && Allowed(t, Run(t, w, a), b)
    ensures Allowed(t, w, a + b) && Run(t, w, a + b) == Run(t, Run(t, w, a), b)
    decreases |a|
  {
    if a == [] {
      assert a + b == b;
    } else {
      assert (a + b)[1..] == a[1..] + b;
      AllowedJoins(t, Apply(t, w, a[0]).0, a[1..], b);
    }
  }

  lemma ReachableRuns(t: Trigger, w: World, ops: seq<Op>)
    requires Reachable(t, w) && Allowed(t, w, ops)
    ensures Reachable(t, Run(t, w, ops))
  {
    var before :| Allowed(t, EMPTY, before) && Run(t, EMPTY, before) == w;
    AllowedJoins(t, EMPTY, before, ops);
  }

  /** Once stuck, always stuck: whatever arrives, is pruned or is polled later, every poll of the open, active trigger
      fails. */
  lemma StuckForGood(t: Trigger, w: World, ops: seq<Op>)
    requires Reachable(t, w) && Stuck(t, w) && !t.instant && Allowed(t, w, ops)
    ensures Stuck(t, Run(t, w, ops)) && Run(t, w, ops).head.value.cursor == w.head.value.cursor
  {
    var u, n := Run(t, w, ops), Cut(w.log, w.head.value.cursor);
    ReachableInv(t, w);
    ReachableRuns(t, w, ops);
    RunOnward(t, w, ops);
    StuckFold(t, w);
    assert w.log[..n + 1] == u.log[..n + 1];
    FaultNeverPassed(t, u, n);
    ReachableInv(t, u);
    assert Fine(t, u, OfTables) && Fine(t, w, OfTables);
    StuckObserved(t, w, u, n);
  }

  /** Between the same two arrivals the cycle in progress is the same. */
  lemma StuckObserved(t: Trigger, w: World, u: World, n: nat)
    requires Reachable(t, w) && Reachable(t, u) && w.head.Some? && u.head.Some? && !t.instant && w.log <= u.log
             && n < |w.log|
    requires n == Cut(w.log, w.head.value.cursor) && w.head.value.cursor <= u.head.value.cursor < u.log[n].sequence
    ensures Core(w.head.value.cycle) == Core(u.head.value.cycle) && After(u.log, u.head.value.cursor) == u.log[n..]
  {
    PolledIsFolded(t, w);
    PolledIsFolded(t, u);
    ReachableInv(t, u);
    assert Fine(t, u, OfTables);
    CutUnique(u.log, u.head.value.cursor, n);
    assert w.log[..n] == u.log[..n];
  }
}
