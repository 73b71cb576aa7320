/** What a trigger's cycles mean: the matcher folded over the scope's arrivals, one at a time.

    This is the reference that the stored trigger tables are held against. */
module EventCycles {
  import opened Prelude
  import opened EventMatching

  datatype Arrival = Arrival(sequence: nat, envelope: Event)

  /** One trigger cycle. `decisions` counts the saved steps, which depend on how arrivals were batched. */
  datatype Cycle = Cycle(ordinal: nat, start: nat, cursor: nat, progress: Progress, selected: seq<Arrival>,
                         decisions: nat)

  function Initial(ordinal: nat, cursor: nat): Cycle { Cycle(ordinal, cursor, cursor, FRESH, [], 0) }

  /** The cycle apart from its count of saved steps. */
  function Core(c: Cycle): Cycle { c.(decisions := 0) }

  /** A compiled strategy: the matcher as a function, the projection of inputs, and whether it needs no event at all. */
  datatype Trigger = Trigger(decide: (Event, Progress) -> Fallible<Option<Decision>>, project: Event -> Json,
                             instant: bool)

  /** A listener whose strategy needs no event. */
  predicate Instant(s: Strategy) {
    match s.mode
    case All => s.filters == []
    case One => false
    case Any => s.until.Other? && Instant(s.until.strategy)
  }

  function Compile(v: Services, s: Strategy): Trigger {
    Trigger((e, p) => Decide(v, s, e, p), v.project, Instant(s))
  }

  // ---------------------------------------------------------------- one arrival

  datatype Verdict = Faulted | Ignored | Applied(cycle: Cycle, terminal: bool, chosen: seq<Arrival>)

  /** The matcher's effect on a cycle. */
  function Judge(t: Trigger, c: Cycle, a: Arrival): Verdict {
    match t.decide(a.envelope, c.progress)
    case Err(_) => Faulted
    case Ok(None) => Ignored
    case Ok(Some(d)) =>
      if Rebinds(c.progress.correlations, d) then Faulted
      else
        var chosen := if d.terminator then [] else [a];
        Applied(c.(cursor := a.sequence, progress := Absorbed(c.progress, d), selected := c.selected + chosen),
                d.terminal, chosen)
  }

  /** Completed cycles and the cycle in progress. */
  datatype Observed = Observed(done: seq<Cycle>, current: Cycle)

  const START := Observed([], Initial(1, 0))

  function Consume(t: Trigger, o: Observed, a: Arrival): Option<Observed> {
    match Judge(t, o.current, a)
    case Faulted => None
    case Ignored => Some(o.(current := o.current.(cursor := a.sequence)))
    case Applied(c, false, _) => Some(o.(current := c))
    case Applied(c, true, _) => Some(Observed(o.done + [c], Initial(c.ordinal + 1, c.cursor)))
  }

  function Fold(t: Trigger, o: Observed, log: seq<Arrival>): Option<Observed>
    decreases |log|
  {
    if log == [] then Some(o)
    else
      match Consume(t, o, log[0])
      case None => None
      case Some(next) => Fold(t, next, log[1..])
  }

  lemma {:induction false} FoldJoins(t: Trigger, o: Observed, a: seq<Arrival>, b: seq<Arrival>)
    ensures Fold(t, o, a + b) == match Fold(t, o, a) case None => None case Some(m) => Fold(t, m, b)
    decreases |a|
  {
    if a == [] {
      assert a + b == b;
    } else {
      assert (a + b)[1..] == a[1..] + b;
      match Consume(t, o, a[0]) {
        case None =>
        case Some(next) => FoldJoins(t, next, a[1..], b);
      }
    }
  }

  // ---------------------------------------------------------------- one batch

  /** How a poll's loop over a batch ends: at a fault, at its end, or at the first decision. */
  datatype ScanEnd = Broken | Quiet(cycle: Cycle) | Hit(cycle: Cycle, terminal: bool, chosen: seq<Arrival>)

  function Scan(t: Trigger, c: Cycle, batch: seq<Arrival>): ScanEnd
    decreases |batch|
  {
    if batch == [] then Quiet(c)
    else
      match Judge(t, c, batch[0])
      case Faulted => Broken
      case Ignored => Scan(t, c.(cursor := batch[0].sequence), batch[1..])
      case Applied(d, terminal, chosen) => Hit(d, terminal, chosen)
  }

  function Observation(done: seq<Cycle>, end: ScanEnd): Observed
    requires !end.Broken?
  {
    match end
    case Quiet(c) => Observed(done, Core(c))
    case Hit(c, false, _) => Observed(done, Core(c))
    case Hit(c, true, _) => Observed(done + [Core(c)], Initial(c.ordinal + 1, c.cursor))
  }

  /** A batch has the effect of the arrivals it consumed, taken one at a time. */
  lemma {:induction false} ScanFolds(t: Trigger, done: seq<Cycle>, c: Cycle, batch: seq<Arrival>) returns (n: nat)
    requires !Scan(t, c, batch).Broken? && batch != []
    ensures 0 < n <= |batch|
    ensures Fold(t, Observed(done, Core(c)), batch[..n]) == Some(Observation(done, Scan(t, c, batch)))
    ensures Scan(t, c, batch).cycle.cursor == batch[n - 1].sequence
    ensures Scan(t, c, batch).Quiet? ==> n == |batch| && Scan(t, c, batch).cycle == c.(cursor := batch[n - 1].sequence)
    decreases |batch|
  {
    var next := c.(cursor := batch[0].sequence);
    if Judge(t, c, batch[0]).Ignored? {
      if batch[1..] == [] {
        n := 1;
      } else {
        var m := ScanFolds(t, done, next, batch[1..]);
        n := m + 1;
      }
    } else {
      n := 1;
    }
    assert batch[..n][1..] == batch[1..][..n - 1];
    var o := Consume(t, Observed(done, Core(c)), batch[0]).value;
    assert Fold(t, Observed(done, Core(c)), batch[..n]) == Fold(t, o, batch[..n][1..]);
  }

  /** What a decision adds to a cycle. */
  lemma {:induction false} ScanShape(t: Trigger, c: Cycle, batch: seq<Arrival>)
    ensures
      match Scan(t, c, batch)
      case Broken => true
      case Quiet(d) => d == c.(cursor := d.cursor)
      case Hit(d, _, chosen) =>
        && d == c.(cursor := d.cursor, progress := d.progress, selected := c.selected + chosen)
        && |chosen| <= 1
        && (chosen != [] ==> chosen[0] in batch && chosen[0].sequence == d.cursor)
        && exists a :: a in batch && a.sequence == d.cursor
    decreases |batch|
  {
    if batch != [] && Judge(t, c, batch[0]).Ignored? {
      ScanShape(t, c.(cursor := batch[0].sequence), batch[1..]);
      assert forall a :: a in batch[1..] ==> a in batch;
    } else if batch != [] {
      assert batch[0] in batch;
    }
  }

  // ---------------------------------------------------------------- logs in sequence order

  predicate Ordered(log: seq<Arrival>) {
    forall i, j :: 0 <= i < j < |log| ==> log[i].sequence < log[j].sequence
  }

  /** How many arrivals come at or before `x`. */
  function Cut(log: seq<Arrival>, x: nat): (n: nat)
    ensures n <= |log| && (n < |log| ==> log[n].sequence > x)
    ensures forall i :: 0 <= i < n ==> log[i].sequence <= x
    decreases |log|
  {
    if log == [] || log[0].sequence > x then 0 else 1 + Cut(log[1..], x)
  }

  /** In an ordered table, `WHERE sequence > x ORDER BY sequence`. */
  function After(log: seq<Arrival>, x: nat): seq<Arrival> { log[Cut(log, x)..] }

  function UpTo(log: seq<Arrival>, x: nat): seq<Arrival> { log[..Cut(log, x)] }

  function Take(log: seq<Arrival>, limit: nat): seq<Arrival> { if |log| <= limit then log else log[..limit] }

  lemma CutUnique(log: seq<Arrival>, x: nat, n: nat)
    requires Ordered(log) && n <= |log| && (n > 0 ==> log[n - 1].sequence <= x) && (n < |log| ==> log[n].sequence > x)
    ensures Cut(log, x) == n
  {
  }

  /** Moving the cursor over the first `n` pending arrivals. */
  lemma Advances(log: seq<Arrival>, x: nat, n: nat)
    requires Ordered(log) && 0 < n <= |After(log, x)|
    ensures
      var p := After(log, x);
      var y := p[n - 1].sequence;
      y > x && UpTo(log, y) == UpTo(log, x) + p[..n] && After(log, y) == p[n..]
  {
    var k := Cut(log, x);
    CutUnique(log, log[k + n - 1].sequence, k + n);
  }

  lemma AfterGrows(log: seq<Arrival>, a: Arrival, x: nat)
    requires Ordered(log + [a]) && a.sequence > x
    ensures After(log + [a], x) == After(log, x) + [a] && UpTo(log + [a], x) == UpTo(log, x)
  {
    var n := Cut(log, x);
    assert n < |log| ==> (log + [a])[n] == log[n];
    assert n > 0 ==> (log + [a])[n - 1] == log[n - 1];
    CutUnique(log + [a], x, n);
  }

  function Without(log: seq<Arrival>, gone: set<nat>): seq<Arrival>
    decreases |log|
  {
    if log == [] then []
    else if log[0].sequence in gone then Without(log[1..], gone)
    else [log[0]] + Without(log[1..], gone)
  }

  lemma {:induction false} WithoutHolds(log: seq<Arrival>, gone: set<nat>)
    ensures forall a :: a in Without(log, gone) <==> a in log && a.sequence !in gone
    decreases |log|
  {
    if log != [] {
      WithoutHolds(log[1..], gone);
      assert forall a :: a in log <==> a == log[0] || a in log[1..];
    }
  }

  lemma {:induction false} WithoutMembers(log: seq<Arrival>, gone: set<nat>)
    requires Ordered(log)
    ensures forall a :: a in Without(log, gone) <==> a in log && a.sequence !in gone
    ensures Ordered(Without(log, gone))
    decreases |log|
  {
    WithoutHolds(log, gone);
    if log != [] {
      WithoutMembers(log[1..], gone);
      var rest := Without(log[1..], gone);
      assert forall i :: 0 <= i < |rest| ==> rest[i] in log[1..];
    }
  }

  lemma {:induction false} WithoutNone(log: seq<Arrival>, gone: set<nat>)
    requires forall i :: 0 <= i < |log| ==> log[i].sequence !in gone
    ensures Without(log, gone) == log
    decreases |log|
  {
    if log != [] { WithoutNone(log[1..], gone); }
  }

  lemma AfterTail(a: Arrival, rest: seq<Arrival>, x: nat)
    requires a.sequence <= x
    ensures After([a] + rest, x) == After(rest, x)
  {
    assert ([a] + rest)[1..] == rest;
  }

  /** Pruning at or before the cursor leaves the pending arrivals. */
  lemma {:induction false} WithoutKeeps(log: seq<Arrival>, gone: set<nat>, x: nat)
    requires Ordered(log) && forall s :: s in gone ==> s <= x
    ensures After(Without(log, gone), x) == After(log, x)
    decreases |log|
  {
    if log == [] {
    } else if log[0].sequence > x {
      WithoutNone(log, gone);
    } else {
      WithoutKeeps(log[1..], gone, x);
      assert log == [log[0]] + log[1..];
      AfterTail(log[0], log[1..], x);
      AfterTail(log[0], Without(log[1..], gone), x);
    }
  }

  // ---------------------------------------------------------------- a cycle is its own interval

  function Between(log: seq<Arrival>, x: nat, y: nat): seq<Arrival> { UpTo(After(log, x), y) }

  /** One cycle carried over arrivals, without closing it. */
  function Carry(t: Trigger, c: Cycle, log: seq<Arrival>): Option<Cycle>
    decreases |log|
  {
    if log == [] then Some(c)
    else
      match Judge(t, c, log[0])
      case Faulted => None
      case Ignored => Carry(t, c.(cursor := log[0].sequence), log[1..])
      case Applied(d, _, _) => Carry(t, d, log[1..])
  }

  lemma {:induction false} CarryJoins(t: Trigger, c: Cycle, log: seq<Arrival>, a: Arrival)
    requires Carry(t, c, log).Some?
    ensures Carry(t, c, log + [a]) == Carry(t, Carry(t, c, log).value, [a])
    decreases |log|
  {
    if log == [] {
      assert log + [a] == [a];
    } else {
      assert (log + [a])[1..] == log[1..] + [a];
      match Judge(t, c, log[0]) {
        case Faulted =>
        case Ignored => CarryJoins(t, c.(cursor := log[0].sequence), log[1..], a);
        case Applied(d, _, _) => CarryJoins(t, d, log[1..], a);
      }
    }
  }

  function LastSequence(log: seq<Arrival>): nat { if log == [] then 0 else log[|log| - 1].sequence }

  /** The cycle is the matcher carried over exactly the arrivals between its start and its cursor. */
  ghost predicate FromInterval(t: Trigger, log: seq<Arrival>, c: Cycle) {
    c.start <= c.cursor <= LastSequence(log)
    && Carry(t, Initial(c.ordinal, c.start), Between(log, c.start, c.cursor)) == Some(c)
  }

  lemma OlderInterval(t: Trigger, log: seq<Arrival>, a: Arrival, c: Cycle)
    requires Ordered(log + [a]) && a.sequence > 0 && FromInterval(t, log, c)
    ensures FromInterval(t, log + [a], c)
  {
    assert a.sequence > LastSequence(log) by {
      if log != [] { assert (log + [a])[|log| - 1] == log[|log| - 1] && (log + [a])[|log|] == a; }
    }
    AfterGrows(log, a, c.start);
    assert Ordered(After(log, c.start) + [a]) by {
      assert After(log + [a], c.start) == (log + [a])[Cut(log + [a], c.start)..];
    }
    AfterGrows(After(log, c.start), a, c.cursor);
  }

  /** At the end of the log, an interval is everything after its start. */
  lemma WholeInterval(log: seq<Arrival>, x: nat)
    requires Ordered(log)
    ensures Between(log, x, LastSequence(log)) == After(log, x)
  {
    var p := After(log, x);
    if p != [] {
      assert p[|p| - 1] == log[|log| - 1];
      CutUnique(p, LastSequence(log), |p|);
    }
  }

  lemma NewerInterval(t: Trigger, log: seq<Arrival>, a: Arrival, c: Cycle, d: Cycle)
    requires Ordered(log + [a]) && a.sequence > 0 && FromInterval(t, log, c) && c.cursor == LastSequence(log)
    requires Carry(t, c, [a]) == Some(d) && d.ordinal == c.ordinal && d.start == c.start && d.cursor == a.sequence
    ensures FromInterval(t, log + [a], d)
  {
    assert Ordered(log) by { assert forall i :: 0 <= i < |log| ==> (log + [a])[i] == log[i]; }
    assert a.sequence > LastSequence(log) by {
      if log != [] { assert (log + [a])[|log| - 1] == log[|log| - 1] && (log + [a])[|log|] == a; }
    }
    WholeInterval(log, c.start);
    WholeInterval(log + [a], c.start);
    AfterGrows(log, a, c.start);
    CarryJoins(t, Initial(c.ordinal, c.start), After(log, c.start), a);
  }

  ghost predicate AllFromIntervals(t: Trigger, log: seq<Arrival>, o: Observed) {
    && FromInterval(t, log, o.current) && o.current.cursor == LastSequence(log)
    && forall n :: 0 <= n < |o.done| ==> FromInterval(t, log, o.done[n])
  }

  lemma FreshInterval(t: Trigger, log: seq<Arrival>, ordinal: nat)
    requires Ordered(log)
    ensures FromInterval(t, log, Initial(ordinal, LastSequence(log)))
  {
    if log != [] { CutUnique(log, LastSequence(log), |log|); }
    assert Between(log, LastSequence(log), LastSequence(log)) == [];
  }

  lemma CarriedInterval(t: Trigger, log: seq<Arrival>, a: Arrival, c: Cycle)
    requires Ordered(log + [a]) && a.sequence > 0 && FromInterval(t, log, c) && c.cursor == LastSequence(log)
    requires !Judge(t, c, a).Faulted?
    ensures FromInterval(t, log + [a], Next(t, c, a))
  {
    var next := Next(t, c, a);
    assert Carry(t, next, [a][1..]) == Some(next);
    NewerInterval(t, log, a, c, next);
  }

  lemma OlderIntervals(t: Trigger, log: seq<Arrival>, a: Arrival, done: seq<Cycle>)
    requires Ordered(log + [a]) && a.sequence > 0 && forall n :: 0 <= n < |done| ==> FromInterval(t, log, done[n])
    ensures forall n :: 0 <= n < |done| ==> FromInterval(t, log + [a], done[n])
  {
    forall n | 0 <= n < |done| ensures FromInterval(t, log + [a], done[n]) { OlderInterval(t, log, a, done[n]); }
  }

  /** The open cycle after one more arrival, whether or not that closes it. */
  function Next(t: Trigger, c: Cycle, a: Arrival): Cycle {
    var j := Judge(t, c, a);
    if j.Applied? then j.cycle else c.(cursor := a.sequence)
  }

  /** What holds of the cycles before an arrival, of the cycle it leads to and of a fresh one, holds of all after it. */
  lemma ConsumeAll(t: Trigger, o: Observed, a: Arrival, u: Observed, holds: Cycle -> bool)
    requires Consume(t, o, a) == Some(u) && (forall n :: 0 <= n < |o.done| ==> holds(o.done[n]))
    requires holds(Next(t, o.current, a)) && holds(Initial(o.current.ordinal + 1, a.sequence))
    ensures u.current.cursor == a.sequence && holds(u.current) && forall n :: 0 <= n < |u.done| ==> holds(u.done[n])
  {
  }

  lemma ConsumeInterval(t: Trigger, log: seq<Arrival>, a: Arrival, o: Observed, u: Observed)
    requires Ordered(log + [a]) && a.sequence > 0 && AllFromIntervals(t, log, o) && Consume(t, o, a) == Some(u)
    ensures AllFromIntervals(t, log + [a], u)
  {
    var holds := c => FromInterval(t, log + [a], c);
    OlderIntervals(t, log, a, o.done);
    CarriedInterval(t, log, a, o.current);
    FreshInterval(t, log + [a], o.current.ordinal + 1);
    assert holds(Next(t, o.current, a)) && holds(Initial(o.current.ordinal + 1, a.sequence));
    ConsumeAll(t, o, a, u, holds);
    assert holds(u.current) && forall n :: 0 <= n < |u.done| ==> holds(u.done[n]);
  }

  /** Every cycle of the fold, completed or not, comes from exactly its own interval of arrivals. */
  lemma {:induction false} FoldIntervals(t: Trigger, log: seq<Arrival>, o: Observed)
    requires Ordered(log) && (forall i :: 0 <= i < |log| ==> log[i].sequence > 0) && Fold(t, START, log) == Some(o)
    ensures AllFromIntervals(t, log, o)
    decreases |log|
  {
    if log == [] {
      assert Between([], 0, 0) == [];
    } else {
      var front, a := log[..|log| - 1], log[|log| - 1];
      assert front + [a] == log;
      FoldJoins(t, START, front, [a]);
      var m := Fold(t, START, front).value;
      assert Fold(t, m, [a]) == Consume(t, m, a) by { assert [a][1..] == []; }
      FoldIntervals(t, front, m);
      ConsumeInterval(t, front, a, m, o);
    }
  }

  // ---------------------------------------------------------------- a cycle's selections

  function Envelopes(log: seq<Arrival>): seq<Event> {
    seq(|log|, i requires 0 <= i < |log| => log[i].envelope)
  }

  /** The events of the decisions that select. */
  function Selecting(ds: seq<(Event, Decision)>): seq<Event>
    decreases |ds|
  {
    if ds == [] then [] else (if ds[0].1.terminator then [] else [ds[0].0]) + Selecting(ds[1..])
  }

  /** Two selecting decisions, in order. */
  lemma {:induction false} SelectingPair(ds: seq<(Event, Decision)>, i: nat, j: nat) returns (p: nat, q: nat)
    requires i <= j < |Selecting(ds)|
    ensures p <= q < |ds| && !ds[p].1.terminator && !ds[q].1.terminator
    ensures ds[p].0 == Selecting(ds)[i] && ds[q].0 == Selecting(ds)[j]
    decreases |ds|
  {
    if ds[0].1.terminator {
      var x, y := SelectingPair(ds[1..], i, j);
      p, q := x + 1, y + 1;
    } else if i == 0 && j == 0 {
      p, q := 0, 0;
    } else if i == 0 {
      var x, y := SelectingPair(ds[1..], j - 1, j - 1);
      p, q := 0, y + 1;
    } else {
      var x, y := SelectingPair(ds[1..], i - 1, j - 1);
      p, q := x + 1, y + 1;
    }
  }

  /** The decisions of a trigger over a run of events. */
  function Decided(t: Trigger, p: Progress, events: seq<Event>): Fallible<seq<(Event, Decision)>>
    decreases |events|
  {
    if events == [] then Ok([])
    else
      match t.decide(events[0], p)
      case Err(f) => Err(f)
      case Ok(None) => Decided(t, p, events[1..])
      case Ok(Some(d)) =>
        match Decided(t, Absorbed(p, d), events[1..])
        case Err(f) => Err(f)
        case Ok(rest) => Ok([(events[0], d)] + rest)
  }

  lemma {:induction false} CompiledDecides(v: Services, s: Strategy, p: Progress, events: seq<Event>)
    ensures Decided(Compile(v, s), p, events) == Decisions(v, s, p, events)
    decreases |events|
  {
    if events != [] {
      match Compile(v, s).decide(events[0], p) {
        case Err(_) =>
        case Ok(None) => CompiledDecides(v, s, p, events[1..]);
        case Ok(Some(d)) => CompiledDecides(v, s, Absorbed(p, d), events[1..]);
      }
    }
  }

  /** What carrying a cycle over arrivals selects, on top of what it had selected. */
  ghost predicate Selects(t: Trigger, c: Cycle, log: seq<Arrival>, d: Cycle) {
    var ds := Decided(t, c.progress, Envelopes(log));
    && ds.Ok? && c.progress.matched <= d.progress.matched
    && Envelopes(d.selected) == Envelopes(c.selected) + Selecting(ds.value)
  }

  lemma SelectingStep(head: (Event, Decision), rest: seq<(Event, Decision)>)
    ensures Selecting([head] + rest) == (if head.1.terminator then [] else [head.0]) + Selecting(rest)
  {
    assert ([head] + rest)[1..] == rest;
  }

  lemma EnvelopesJoin(a: seq<Arrival>, b: seq<Arrival>)
    ensures Envelopes(a + b) == Envelopes(a) + Envelopes(b)
  {
  }

  lemma AppliedSelects(t: Trigger, c: Cycle, log: seq<Arrival>, d: Cycle)
    requires log != [] && Judge(t, c, log[0]).Applied? && Selects(t, Judge(t, c, log[0]).cycle, log[1..], d)
    ensures Selects(t, c, log, d)
  {
    var Applied(next, _, chosen) := Judge(t, c, log[0]);
    var rest := Decided(t, next.progress, Envelopes(log[1..])).value;
    assert Envelopes(log)[0] == log[0].envelope && Envelopes(log)[1..] == Envelopes(log[1..]);
    EnvelopesJoin(c.selected, chosen);
    SelectingStep((log[0].envelope, t.decide(log[0].envelope, c.progress).value.value), rest);
    assert Envelopes(d.selected) == Envelopes(c.selected) + (Envelopes(chosen) + Selecting(rest));
  }

  lemma {:induction false} CarrySelects(t: Trigger, c: Cycle, log: seq<Arrival>, d: Cycle)
    requires Carry(t, c, log) == Some(d)
    ensures Selects(t, c, log, d)
    decreases |log|
  {
    if log == [] {
    } else if Judge(t, c, log[0]).Ignored? {
      CarrySelects(t, c.(cursor := log[0].sequence), log[1..], d);
      assert Envelopes(log)[0] == log[0].envelope && Envelopes(log)[1..] == Envelopes(log[1..]);
    } else {
      CarrySelects(t, Judge(t, c, log[0]).cycle, log[1..], d);
      AppliedSelects(t, c, log, d);
    }
  }

  /** Carrying a cycle takes the matcher's decisions, and selects the events of those that are not terminators. */
  lemma CarryDecides(v: Services, s: Strategy, c: Cycle, log: seq<Arrival>, d: Cycle)
    requires Carry(Compile(v, s), c, log) == Some(d)
    ensures
      var ds := Decisions(v, s, c.progress, Envelopes(log));
      && ds.Ok? && c.progress.matched <= d.progress.matched
      && Envelopes(d.selected) == Envelopes(c.selected) + Selecting(ds.value)
  {
    CarrySelects(Compile(v, s), c, log, d);
    CompiledDecides(v, s, c.progress, Envelopes(log));
  }
}
