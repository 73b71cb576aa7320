/** The trigger store as it runs: its validator and its polling loop, held against `EventTriggers`. */
module EventTriggerStores {
  import opened Prelude
  import opened EventMatching
  import opened EventCycles
  import opened EventTriggers

  class EventTriggerStore {
    const t: Trigger
    var active: bool
    var counter: nat
    var inbox: seq<Arrival>
    var pin: Option<Pin>
    var selections: map<nat, Event>
    var head: Option<Head>
    var decisions: map<(nat, nat), Cycle>
    var cycles: map<nat, Done>
    var slots: map<nat, Slot>
    ghost var log: seq<Arrival>

    ghost function Stored(): World
      reads this
    {
      World(active, counter, inbox, pin, selections, head, decisions, cycles, slots, log)
    }

    constructor (t: Trigger)
      ensures this.t == t && Stored() == World(true, 0, [], None, map[], None, map[], map[], map[], [])
    {
      this.t := t;
      active, counter, inbox, pin, selections := true, 0, [], None, map[];
      head, decisions, cycles, slots, log := None, map[], map[], map[], [];
    }

    /** The saved steps of one cycle. */
    method VerifyDecisions(c: Cycle) returns (ok: bool)
      ensures ok <==> StepsOk(Stored(), c)
    {
      if exists k :: k in decisions && k.0 == c.ordinal && !(1 <= k.1 <= c.decisions) {
        ghost var k :| k in decisions && k.0 == c.ordinal && !(1 <= k.1 <= c.decisions);
        assert (c.ordinal, k.1) in decisions;
        return false;
      }
      var i := 1;
      while i <= c.decisions
        invariant 1 <= i <= c.decisions + 1
        invariant forall j: nat :: 1 <= j < i ==> (c.ordinal, j) in decisions
      {
        if (c.ordinal, i) !in decisions { return false; }
        i := i + 1;
      }
      return c.decisions == 0 || decisions[(c.ordinal, c.decisions)] == c;
    }

    method VerifySelected(c: Cycle) returns (ok: bool)
      ensures ok <==> SelectedOk(Stored(), c)
    {
      var i := 0;
      while i < |c.selected|
        invariant 0 <= i <= |c.selected|
        invariant forall j :: 0 <= j < i ==> Evidenced(Stored(), c.selected[j])
        invariant Ordered(c.selected[..i])
      {
        var a := c.selected[i];
        if a.sequence == 0 || a.sequence !in selections || selections[a.sequence] != a.envelope || a !in inbox {
          assert !Evidenced(Stored(), c.selected[i]);
          return false;
        }
        if i > 0 && c.selected[i - 1].sequence >= a.sequence { return false; }
        assert c.selected[..i + 1] == c.selected[..i] + [a];
        i := i + 1;
      }
      assert c.selected[..i] == c.selected;
      return true;
    }

    /** One completed cycle: its steps, selections, input and slot. */
    method VerifyCycle(n: nat, prior: nat) returns (ok: bool)
      requires prior == PriorCursor(cycles, n)
      ensures ok <==> CycleOk(t, Stored(), n)
    {
      if n !in cycles { return false; }
      var d := cycles[n];
      if d.cycle.ordinal != n { return false; }
      var steps := VerifyDecisions(d.cycle);
      if !steps || d.ordinal != d.cycle.ordinal { return false; }
      var selected := VerifySelected(d.cycle);
      if !selected || d.input != Projected(t, d.cycle.selected) { return false; }
      if d.ordinal !in slots || slots[d.ordinal] != Slot(d.invocation, d.input) { return false; }
      return prior <= d.cycle.cursor;
    }

    /** `_read`: head and pin, then every completed cycle in order, then the one in progress. */
    method Read() returns (ok: bool)
      ensures ok <==> ReadAccepts(t, Stored())
    {
      if head.None? || pin.None? { return false; }
      var h, p := head.value, pin.value;
      if h.ordinal < 1 || p.active == h.closed || p.cursor != h.cursor { return false; }
      if h.cycle.ordinal != h.ordinal || h.cycle.cursor != h.cursor { return false; }
      if exists n :: n in cycles && !(1 <= n < h.ordinal) { return false; }
      var n, prior := 1, 0;
      while n < h.ordinal
        invariant 1 <= n <= h.ordinal && prior == PriorCursor(cycles, n)
        invariant forall m: nat :: 1 <= m < n ==> CycleOk(t, Stored(), m)
      {
        var fine := VerifyCycle(n, prior);
        if !fine { return false; }
        prior := cycles[n].cycle.cursor;
        n := n + 1;
      }
      var steps := VerifyDecisions(h.cycle);
      if !steps || h.cycle.start != prior { return false; }
      if h.cycle.decisions == 0 && h.cycle != Initial(h.ordinal, prior) { return false; }
      ok := VerifySelected(h.cycle);
    }

    /** First use. */
    method Register() returns (ok: bool)
      modifies this
      ensures
        match Registered(old(Stored()))
        case None => !ok && Stored() == old(Stored())
        case Some(r) => ok && Stored() == r
    {
      if head.Some? { return true; }
      if pin.Some? || cycles != map[] || slots != map[] { return false; }
      pin, head := Some(Pin(0, true)), Some(Head(1, 0, false, Initial(1, 0)));
      log := inbox;
      return true;
    }

    /** The loop over one batch: arrivals are passed over until the matcher decides or faults. */
    method ScanBatch(c: Cycle, batch: seq<Arrival>) returns (end: ScanEnd)
      ensures end == Scan(t, c, batch)
    {
      var cycle, i := c, 0;
      while i < |batch|
        invariant 0 <= i <= |batch|
        invariant Scan(t, c, batch) == Scan(t, cycle, batch[i..])
      {
        var a := batch[i];
        assert batch[i..][1..] == batch[i + 1..];
        var decision := t.decide(a.envelope, cycle.progress);
        if decision.Err? { return Broken; }
        if decision.value.Some? {
          var d := decision.value.value;
          if Rebinds(cycle.progress.correlations, d) { return Broken; }
          var chosen := if d.terminator then [] else [a];
          return Hit(cycle.(cursor := a.sequence, progress := Absorbed(cycle.progress, d),
                            selected := cycle.selected + chosen), d.terminal, chosen);
        }
        cycle := cycle.(cursor := a.sequence);
        i := i + 1;
      }
      return Quiet(cycle);
    }

    /** The pin may move to the cycle's cursor, with at most one chosen arrival as it stands in the inbox. */
    method CheckPin(c: Cycle, chosen: seq<Arrival>) returns (ok: bool)
      requires |chosen| <= 1
      ensures ok <==> Pinnable(Stored(), c, chosen)
    {
      if c.cursor > counter || pin.None? || pin.value.cursor > c.cursor || !pin.value.active { return false; }
      if chosen == [] { return true; }
      var a := chosen[0];
      return a in inbox && a.sequence <= c.cursor
             && (a.sequence in selections ==> selections[a.sequence] == a.envelope);
    }

    /** The cycle row, its slot and the next head. */
    method CompleteCycle(c: Cycle, roomForStep: bool, roomForCycle: bool, invocation: string) returns (r: Reply)
      requires head.Some?
      modifies this
      ensures (Stored(), r)
              == Complete(t, old(Stored()), old(head.value), c, Poll(1, roomForStep, roomForCycle, invocation))
    {
      var h, input, kept := head.value, Projected(t, c.selected), c.(decisions := c.decisions + 1);
      if !roomForCycle || h.ordinal in cycles { return Failed; }
      var selected := VerifySelected(kept);
      if !selected { return Failed; }
      if h.ordinal in slots {
        if slots[h.ordinal].input != input { return Failed; }
      } else {
        slots := slots[h.ordinal := Slot(invocation, input)];
      }
      var d := Done(h.ordinal, slots[h.ordinal].invocation, input, kept);
      cycles := cycles[h.ordinal := d];
      head := Some(Head(h.ordinal + 1, c.cursor, false, Initial(h.ordinal + 1, c.cursor)));
      return Bound(d);
    }

    /** Pin, selections and one saved step, and for a finished cycle its invocation. */
    method CommitCycle(c: Cycle, terminal: bool, chosen: seq<Arrival>, roomForStep: bool, roomForCycle: bool,
                       invocation: string)
      returns (r: Reply)
      requires head.Some? && |chosen| <= 1
      modifies this
      ensures (Stored(), r) == Attempt(old(Stored()), Commit(t, old(Stored()), old(head.value), c, terminal, chosen,
                                                             Poll(1, roomForStep, roomForCycle, invocation)))
    {
      var ok := CheckPin(c, chosen);
      if !ok || !roomForStep { return Failed; }
      var h, kept := head.value, c.(decisions := c.decisions + 1);
      var oldPin, oldSelections, oldDecisions := pin, selections, decisions;
      pin, selections := Some(Pin(c.cursor, true)), Chosen(selections, chosen);
      decisions := decisions[(c.ordinal, c.decisions + 1) := kept];
      if !terminal {
        head := Some(h.(cursor := c.cursor, cycle := kept));
        return Idle;
      }
      r := CompleteCycle(c, roomForStep, roomForCycle, invocation);
      if r.Failed? { pin, selections, decisions := oldPin, oldSelections, oldDecisions; }
    }

    method CloseNow()
      requires head.Some?
      modifies this
      ensures Stored() == Closed(old(Stored()))
    {
      var h := head.value;
      pin, head := Some(Pin(h.cursor, false)), Some(h.(closed := true));
    }

    /** The work of a poll on a registered, validated trigger. */
    method Advance(limit: nat, roomForStep: bool, roomForCycle: bool, invocation: string) returns (r: Reply)
      requires head.Some?
      modifies this
      ensures (Stored(), r) == PollOutcome(t, old(Stored()), Poll(limit, roomForStep, roomForCycle, invocation))
    {
      var h := head.value;
      if h.closed { return Idle; }
      if !active {
        CloseNow();
        return Idle;
      }
      if t.instant {
        r := CommitCycle(h.cycle, true, [], roomForStep, roomForCycle, invocation);
        return;
      }
      var batch := Take(After(inbox, h.cursor), limit);
      ScanShape(t, h.cycle, batch);
      var end := ScanBatch(h.cycle, batch);
      match end {
        case Broken => r := Failed;
        case Quiet(c) =>
          if batch == [] { return Idle; }
          r := CommitCycle(c, false, [], roomForStep, roomForCycle, invocation);
        case Hit(c, terminal, chosen) => r := CommitCycle(c, terminal, chosen, roomForStep, roomForCycle, invocation);
      }
    }

    /** One transaction: a failure undoes the registration as well. */
    method PollTrigger(limit: nat, roomForStep: bool, roomForCycle: bool, invocation: string) returns (r: Reply)
      modifies this
      ensures (Stored(), r) == Apply(t, old(Stored()), Poll(limit, roomForStep, roomForCycle, invocation))
    {
      var oldHead, oldPin := head, pin;
      ghost var oldLog := log;
      var ok := Register();
      if !ok { return Failed; }
      ghost var registered := Stored();
      var fine := Read();
      if fine {
        r := Advance(limit, roomForStep, roomForCycle, invocation);
      } else {
        r := Failed;
      }
      if r.Failed? {
        assert Stored() == registered;
        head, pin := oldHead, oldPin;
        log := oldLog;
      }
    }

    method CloseTrigger() returns (r: Reply)
      modifies this
      ensures (Stored(), r) == Apply(t, old(Stored()), Close)
    {
      var oldHead, oldPin := head, pin;
      ghost var oldLog := log;
      var ok := Register();
      if !ok { return Failed; }
      var fine := Read();
      if !fine {
        head, pin := oldHead, oldPin;
        log := oldLog;
        return Failed;
      }
      CloseNow();
      return Idle;
    }
  }
}
