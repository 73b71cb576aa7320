/** When a trigger refuses to re-bind a correlation: exactly when, on which runs, and for how long. */
module Rebinding {
  import opened Prelude
  import opened EventMatching
  import opened EventCycles
  import opened EventTriggers
  import opened EventTriggerLaws

  // ---------------------------------------------------------------- which filters an event hits

  /** Everything a filter asks for before its correlation rules. */
  predicate Passes(v: Services, e: Event, f: Filter) {
    && v.admits(f, e)
    && AllOk((n, x) => StaticOk(v, e, (n, x)), f.properties) == Ok(true)
    && AllOk((n, x) => PredicateOk(v, e, (n, x)), f.properties) == Ok(true)
  }

  /** The rule extracts a value, equal to the one held for its name and to the one expected. */
  predicate RuleHolds(v: Services, e: Event, rule: Rule, held: Option<Json>) {
    && v.evaluate(rule.from, e).Ok?
    && (held.Some? ==> JsonEqual(v.evaluate(rule.from, e).value, held.value))
    && (rule.expected.Some? ==> JsonEqual(v.evaluate(rule.from, e).value, rule.expected.value))
  }

  /** The rule for a name. */
  function RuleNamed(rules: seq<(string, Rule)>, name: string): Option<Rule> {
    if rules == [] then None else if rules[0].0 == name then Some(rules[0].1) else RuleNamed(rules[1..], name)
  }

  /** The event matches filter `i`, given the filters before it. */
  predicate Hits(v: Services, s: Strategy, e: Event, p: Progress, i: nat)
    requires i < |s.filters|
    decreases i, 1
  {
    && !(s.mode == All && i in p.matched)
    && Passes(v, e, s.filters[i])
    && forall j :: 0 <= j < |s.filters[i].correlate| ==>
         RuleHolds(v, e, s.filters[i].correlate[j].1, Held(v, s, e, p, i, s.filters[i].correlate[j].0))
  }

  /** The value held for a name before filter `i`: that of the last filter hit with a rule for it, or the saved one. */
  function Held(v: Services, s: Strategy, e: Event, p: Progress, i: nat, name: string): Option<Json>
    requires i <= |s.filters|
    decreases i, 0
  {
    if i == 0 then Lookup(p.correlations, name)
    else
      var rule := RuleNamed(s.filters[i - 1].correlate, name);
      if rule.Some? && Hits(v, s, e, p, i - 1) then
        match v.evaluate(rule.value.from, e) case Ok(x) => Some(x) case Err(_) => None
      else Held(v, s, e, p, i - 1, name)
  }

  function Lookup(b: Bindings, name: string): Option<Json> { if name in b then Some(b[name]) else None }

  /** The strategy's terminator takes the event. */
  predicate Ended(v: Services, s: Strategy, e: Event, p: Progress) {
    match s.until
    case Never => false
    case When(x) => v.condition(x, v.project(e)) == Ok(true)
    case Other(inner) => Decide(v, inner, e, InnerOf(p)).Ok? && Decide(v, inner, e, InnerOf(p)).value.Some?
  }

  // ---------------------------------------------------------------- the matcher hits exactly those

  ghost predicate AllHold(v: Services, e: Event, rules: seq<(string, Rule)>, saved: Bindings) {
    forall j :: 0 <= j < |rules| ==> RuleHolds(v, e, rules[j].1, Lookup(saved, rules[j].0))
  }

  /** The value that the rules give a name, or the one it had. */
  function Given(v: Services, e: Event, rules: seq<(string, Rule)>, name: string, before: Option<Json>): Option<Json> {
    match RuleNamed(rules, name)
    case None => before
    case Some(rule) => match v.evaluate(rule.from, e) case Ok(x) => Some(x) case Err(_) => None
  }

  lemma {:induction false} NamedOnce(rules: seq<(string, Rule)>, name: string)
    ensures RuleNamed(rules, name).None? <==> forall j :: 0 <= j < |rules| ==> rules[j].0 != name
  {
    if rules != [] { NamedOnce(rules[1..], name); }
  }

  lemma {:induction false} ExtractExact(v: Services, e: Event, rules: seq<(string, Rule)>, saved: Bindings,
                                        found: Bindings)
    requires DistinctNames(rules) && Extract(v, e, rules, saved, found).Ok?
    ensures
      var b := Extract(v, e, rules, saved, found).value;
      && (b.Some? <==> AllHold(v, e, rules, saved))
      && (b.Some? ==> forall k :: Lookup(b.value, k) == Given(v, e, rules, k, Lookup(found, k)))
    decreases |rules|
  {
    if rules != [] {
      var (name, rule) := rules[0];
      if RuleHolds(v, e, rule, Lookup(saved, name)) {
        var actual := v.evaluate(rule.from, e).value;
        ExtractExact(v, e, rules[1..], saved, found[name := actual]);
        NamedOnce(rules[1..], name);
        assert forall j :: 1 <= j < |rules| ==> rules[j] == rules[1..][j - 1];
      }
    }
  }

  lemma MatchExact(v: Services, e: Event, f: Filter, saved: Bindings)
    requires DistinctNames(f.correlate) && MatchFilter(v, e, f, saved).Ok?
    ensures
      var b := MatchFilter(v, e, f, saved).value;
      && (b.Some? <==> Passes(v, e, f) && AllHold(v, e, f.correlate, saved))
      && (b.Some? ==> forall k :: Lookup(b.value, k) == Given(v, e, f.correlate, k, None))
  {
    if Passes(v, e, f) { ExtractExact(v, e, f.correlate, saved, map[]); }
  }

  /** What the matcher has found among the first `i` filters. */
  ghost predicate FoundTo(v: Services, s: Strategy, e: Event, p: Progress, i: nat, found: Found)
    requires i <= |s.filters|
  {
    && (forall j: nat :: j in found.matches <==> j < i && Hits(v, s, e, p, j))
    && forall k :: Lookup(p.correlations + found.bindings, k) == Held(v, s, e, p, i, k)
  }

  /** What a name has after filter `i` takes the event. */
  lemma HeldNext(v: Services, s: Strategy, e: Event, p: Progress, i: nat, bindings: Bindings, b: Bindings, k: string)
    requires i < |s.filters| && Hits(v, s, e, p, i)
    requires Lookup(p.correlations + bindings, k) == Held(v, s, e, p, i, k)
    requires Lookup(b, k) == Given(v, e, s.filters[i].correlate, k, None)
    ensures Lookup(p.correlations + (bindings + b), k) == Held(v, s, e, p, i + 1, k)
  {
    NamedHolds(v, s, e, p, i, k);
  }

  /** A filter matches exactly when it is hit. */
  lemma MatchIsHit(v: Services, s: Strategy, e: Event, p: Progress, i: nat, saved: Bindings)
    requires i < |s.filters| && WellFormed(s) && !(s.mode == All && i in p.matched)
    requires forall k :: Lookup(saved, k) == Held(v, s, e, p, i, k)
    requires MatchFilter(v, e, s.filters[i], saved).Ok?
    ensures MatchFilter(v, e, s.filters[i], saved).value.Some? <==> Hits(v, s, e, p, i)
  {
    MatchExact(v, e, s.filters[i], saved);
  }

  lemma FoundNext(v: Services, s: Strategy, e: Event, p: Progress, i: nat, found: Found, b: Option<Bindings>)
    requires i < |s.filters| && WellFormed(s) && FoundTo(v, s, e, p, i, found)
    requires !(s.mode == All && i in p.matched)
    requires MatchFilter(v, e, s.filters[i], p.correlations + found.bindings) == Ok(b)
    ensures b.None? ==> FoundTo(v, s, e, p, i + 1, found)
    ensures b.Some? ==> FoundTo(v, s, e, p, i + 1, Found(found.matches + {i}, found.bindings + b.value))
  {
    MatchIsHit(v, s, e, p, i, p.correlations + found.bindings);
    if b.Some? {
      MatchExact(v, e, s.filters[i], p.correlations + found.bindings);
      forall k ensures Lookup(p.correlations + (found.bindings + b.value), k) == Held(v, s, e, p, i + 1, k) {
        HeldNext(v, s, e, p, i, found.bindings, b.value, k);
      }
    }
  }

  lemma {:induction false} NamedIn(rules: seq<(string, Rule)>, name: string) returns (j: nat)
    requires RuleNamed(rules, name).Some?
    ensures j < |rules| && rules[j] == (name, RuleNamed(rules, name).value)
  {
    if rules[0].0 == name {
      j := 0;
    } else {
      var k := NamedIn(rules[1..], name);
      j := k + 1;
    }
  }

  /** A rule that holds has a value. */
  lemma NamedHolds(v: Services, s: Strategy, e: Event, p: Progress, i: nat, name: string)
    requires i < |s.filters| && Hits(v, s, e, p, i)
    ensures
      var rule := RuleNamed(s.filters[i].correlate, name);
      rule.Some? ==> v.evaluate(rule.value.from, e).Ok?
  {
    if RuleNamed(s.filters[i].correlate, name).Some? {
      var j := NamedIn(s.filters[i].correlate, name);
      assert RuleHolds(v, e, s.filters[i].correlate[j].1, Held(v, s, e, p, i, s.filters[i].correlate[j].0));
    }
  }

  lemma {:induction false} CollectExact(v: Services, s: Strategy, e: Event, p: Progress, i: nat, found: Found)
    requires i <= |s.filters| && WellFormed(s) && FoundTo(v, s, e, p, i, found) && Collect(v, e, s, p, i, found).Ok?
    ensures FoundTo(v, s, e, p, |s.filters|, Collect(v, e, s, p, i, found).value)
    decreases |s.filters| - i
  {
    if i < |s.filters| {
      if s.mode == All && i in p.matched {
        CollectExact(v, s, e, p, i + 1, found);
      } else {
        var b := MatchFilter(v, e, s.filters[i], p.correlations + found.bindings).value;
        FoundNext(v, s, e, p, i, found, b);
        CollectExact(v, s, e, p, i + 1, if b.None? then found
                     else Found(found.matches + {i}, found.bindings + b.value));
      }
    }
  }

  lemma AllFound(v: Services, s: Strategy, e: Event, p: Progress)
    requires WellFormed(s) && Collect(v, e, s, p, 0, Found({}, map[])).Ok?
    ensures FoundTo(v, s, e, p, |s.filters|, Collect(v, e, s, p, 0, Found({}, map[])).value)
  {
    var none: Bindings := map[];
    assert p.correlations + none == p.correlations;
    CollectExact(v, s, e, p, 0, Found({}, map[]));
  }

  // ---------------------------------------------------------------- the exact condition

  /** Some bound name would be left with another text. */
  predicate Respells(v: Services, s: Strategy, e: Event, p: Progress) {
    exists k :: k in p.correlations && Held(v, s, e, p, |s.filters|, k) != Some(p.correlations[k])
  }

  /** A decision is refused exactly when the terminator does not take the event and, for a name already bound, the last
      rule for it among the filters hit extracts a differently written value. */
  lemma RebindExact(v: Services, s: Strategy, e: Event, p: Progress, d: Decision)
    requires WellFormed(s) && Decide(v, s, e, p) == Ok(Some(d))
    ensures Rebinds(p.correlations, d) <==> !Ended(v, s, e, p) && Respells(v, s, e, p)
  {
    if !Ended(v, s, e, p) {
      AllFound(v, s, e, p);
      assert forall k :: Lookup(p.correlations + d.correlations, k) == Held(v, s, e, p, |s.filters|, k);
    }
  }

  /** Without a decision every name keeps its value. */
  lemma {:induction false} NoHitKeeps(v: Services, s: Strategy, e: Event, p: Progress, i: nat, name: string)
    requires i <= |s.filters| && forall j: nat :: j < i ==> !Hits(v, s, e, p, j)
    ensures Held(v, s, e, p, i, name) == Lookup(p.correlations, name)
  {
    if i > 0 {
      assert !Hits(v, s, e, p, i - 1);
      NoHitKeeps(v, s, e, p, i - 1, name);
    }
  }

  /** So an arrival stops a poll exactly when its expressions fault or it respells a bound name. */
  lemma FaultExact(v: Services, s: Strategy, c: Cycle, a: Arrival)
    requires WellFormed(s)
    ensures
      var e, p := a.envelope, c.progress;
      Judge(Compile(v, s), c, a).Faulted? <==> Decide(v, s, e, p).Err? || (!Ended(v, s, e, p) && Respells(v, s, e, p))
  {
    var e, p := a.envelope, c.progress;
    var r := Decide(v, s, e, p);
    if r.Ok? && r.value.Some? {
      RebindExact(v, s, e, p, r.value.value);
    } else if r.Ok? && !Ended(v, s, e, p) {
      AllFound(v, s, e, p);
      forall k | k in p.correlations ensures Held(v, s, e, p, |s.filters|, k) == Some(p.correlations[k]) {
        NoHitKeeps(v, s, e, p, |s.filters|, k);
      }
    }
  }

  // ---------------------------------------------------------------- values written one way

  ghost predicate NormalBindings(b: Bindings) {
    forall k :: k in b ==> Normal(b[k]) == b[k]
  }

  /** Every correlation rule of the strategy extracts a value without whole-number floats from this event. */
  ghost predicate EvaluatesNormal(v: Services, s: Strategy, e: Event) {
    forall i, j :: 0 <= i < |s.filters| && 0 <= j < |s.filters[i].correlate| ==>
                     NormalRule(v, s.filters[i].correlate[j].1, e)
  }

  predicate NormalRule(v: Services, rule: Rule, e: Event) {
    v.evaluate(rule.from, e).Ok? ==> Normal(v.evaluate(rule.from, e).value) == v.evaluate(rule.from, e).value
  }

  lemma {:induction false} HeldNormal(v: Services, s: Strategy, e: Event, p: Progress, i: nat, name: string)
    requires i <= |s.filters| && NormalBindings(p.correlations) && EvaluatesNormal(v, s, e)
    ensures Held(v, s, e, p, i, name).Some? ==>
            Normal(Held(v, s, e, p, i, name).value) == Held(v, s, e, p, i, name).value
  {
    if i > 0 {
      HeldNormal(v, s, e, p, i - 1, name);
      var rules := s.filters[i - 1].correlate;
      if RuleNamed(rules, name).Some? {
        var j := NamedIn(rules, name);
        assert NormalRule(v, s.filters[i - 1].correlate[j].1, e);
      }
    }
  }

  lemma DecisionNormal(v: Services, s: Strategy, e: Event, p: Progress, d: Decision)
    requires WellFormed(s) && Decide(v, s, e, p) == Ok(Some(d)) && NormalBindings(p.correlations)
             && EvaluatesNormal(v, s, e)
    ensures NormalBindings(Absorbed(p, d).correlations) && !Rebinds(p.correlations, d)
  {
    if !Ended(v, s, e, p) {
      AllFound(v, s, e, p);
      forall k | k in p.correlations + d.correlations
        ensures Normal((p.correlations + d.correlations)[k]) == (p.correlations + d.correlations)[k]
      {
        HeldNormal(v, s, e, p, |s.filters|, k);
        assert Lookup(p.correlations + d.correlations, k) == Held(v, s, e, p, |s.filters|, k);
      }
    }
    DecisionAgrees(v, s, e, p, d);
    forall k | k in p.correlations && k in d.correlations ensures p.correlations[k] == d.correlations[k] {
      assert (p.correlations + d.correlations)[k] == d.correlations[k];
      EqualTextAgrees(d.correlations[k], p.correlations[k]);
    }
  }

  lemma {:induction false} CarryNormal(v: Services, s: Strategy, c: Cycle, log: seq<Arrival>, d: Cycle)
    requires WellFormed(s) && NormalBindings(c.progress.correlations) && Carry(Compile(v, s), c, log) == Some(d)
    requires forall i :: 0 <= i < |log| ==> EvaluatesNormal(v, s, log[i].envelope)
    ensures NormalBindings(d.progress.correlations)
    decreases |log|
  {
    if log != [] {
      match Judge(Compile(v, s), c, log[0]) {
        case Faulted =>
        case Ignored => CarryNormal(v, s, c.(cursor := log[0].sequence), log[1..], d);
        case Applied(next, _, _) =>
          DecisionNormal(v, s, log[0].envelope, c.progress, Decide(v, s, log[0].envelope, c.progress).value.value);
          CarryNormal(v, s, next, log[1..], d);
      }
    }
  }

  /** In every reachable state of a trigger whose correlation rules extract no whole-number floats, the re-binding error
      is unreachable: an arrival faults only if its own expressions do. */
  lemma NeverRebinds(v: Services, s: Strategy, w: World, a: Arrival)
    requires Reachable(Compile(v, s), w) && w.head.Some? && !Instant(s) && WellFormed(s)
    requires forall i :: 0 <= i < |w.log| ==> EvaluatesNormal(v, s, w.log[i].envelope)
    requires EvaluatesNormal(v, s, a.envelope)
    ensures Judge(Compile(v, s), w.head.value.cycle, a).Faulted? <==>
            Decide(v, s, a.envelope, w.head.value.cycle.progress).Err?
  {
    var t, h := Compile(v, s), w.head.value;
    PolledIsFolded(t, w);
    ReachableInv(t, w);
    assert Fine(t, w, OfTables);
    StoredFromInterval(t, w, h.ordinal);
    var log := Between(UpTo(w.log, h.cursor), h.cycle.start, h.cycle.cursor);
    assert forall i :: 0 <= i < |log| ==> log[i] in w.log;
    CarryNormal(v, s, Initial(h.cycle.ordinal, h.cycle.start), log, Core(h.cycle));
    var r := Decide(v, s, a.envelope, h.cycle.progress);
    if r.Ok? && r.value.Some? { DecisionNormal(v, s, a.envelope, h.cycle.progress, r.value.value); }
  }

  /** Such a trigger's poll, given room, fails only because an expression faults on an arrival it has yet to scan. */
  lemma PollFailsOnlyOnError(v: Services, s: Strategy, w: World, poll: Op) returns (a: Arrival)
    requires Reachable(Compile(v, s), w) && w.head.Some? && !Instant(s) && WellFormed(s) && w.active
             && !w.head.value.closed
    requires forall i :: 0 <= i < |w.log| ==> EvaluatesNormal(v, s, w.log[i].envelope)
    requires Enabled(w, poll) && poll.Poll? && poll.roomForStep && poll.roomForCycle
    requires Apply(Compile(v, s), w, poll).1.Failed?
    ensures a in After(w.log, w.head.value.cursor) && Decide(v, s, a.envelope, w.head.value.cycle.progress).Err?
  {
    var t, h := Compile(v, s), w.head.value;
    ReachableInv(t, w);
    InvReads(t, w);
    assert Fine(t, w, OfPending);
    var batch := Take(After(w.inbox, h.cursor), poll.limit);
    var end := Scan(t, h.cycle, batch);
    if batch != [] && !end.Broken? {
      ScanReady(t, w, h, poll.limit, batch);
      CommitExact(t, w, h, end.cycle, end.Hit? && end.terminal, ChosenBy(end), poll);
    }
    a := BrokenAt(t, h.cycle, batch);
    assert a in After(w.log, h.cursor) && a in w.log;
    NeverRebinds(v, s, w, a);
  }

  /** A scan breaks at an arrival that faults in the state it started from: what it passed over left no trace. */
  lemma {:induction false} BrokenAt(t: Trigger, c: Cycle, batch: seq<Arrival>) returns (a: Arrival)
    requires Scan(t, c, batch).Broken?
    ensures a in batch && Judge(t, c, a).Faulted?
    decreases |batch|
  {
    if Judge(t, c, batch[0]).Faulted? {
      a := batch[0];
    } else {
      a := BrokenAt(t, c.(cursor := batch[0].sequence), batch[1..]);
    }
  }

  // ---------------------------------------------------------------- it does happen

  /** Services that read members by name and admit everything. */
  function Members(): Services {
    Services((x, e) => Ok(if x in e then e[x] else Null), (x, j) => Ok(true), (x, y) => Ok(true), x => false,
             (f, e) => true, e => Obj(e))
  }

  function Numbered(n: int): Filter { Filter([("n", Int(n))], [("id", Rule("k", None))]) }

  /** Both of two events, correlated by `id`. */
  const PAIR := Strategy(All, [Numbered(0), Numbered(1)], Never)

  const FIRST: Event := map["n" := Int(0), "k" := Int(1)]
  const SECOND: Event := map["n" := Int(1), "k" := Float(1.0)]

  lemma AllOkOne(check: (string, Json) -> Fallible<bool>, property: (string, Json))
    ensures AllOk(check, [property]) == check(property.0, property.1)
  {
    assert [property][1..] == [];
  }

  /** A numbered filter takes the events of its number and binds their `k`. */
  lemma NumberedMatches(n: int, e: Event, saved: Bindings)
    requires "n" in e && e["n"].Int? && "k" in e && ("id" in saved ==> JsonEqual(e["k"], saved["id"]))
    ensures MatchFilter(Members(), e, Numbered(n), saved)
            == Ok(if e["n"].i == n then Some(map["id" := e["k"]]) else None)
  {
    var v, f := Members(), Numbered(n);
    AllOkOne((n, x) => StaticOk(v, e, (n, x)), ("n", Int(n)));
    AllOkOne((n, x) => PredicateOk(v, e, (n, x)), ("n", Int(n)));
    assert StaticOk(v, e, ("n", Int(n))) == Ok(e["n"].i == n) && PredicateOk(v, e, ("n", Int(n))) == Ok(true);
    assert f.correlate[1..] == [];
    var none: Bindings := map[];
    assert Extract(v, e, [], saved, none["id" := e["k"]]) == Ok(Some(map["id" := e["k"]]));
  }

  lemma FirstDecision()
    ensures Decide(Members(), PAIR, FIRST, FRESH) == Ok(Some(Decision({0}, map["id" := Int(1)], false, false, None)))
  {
    var v, bound := Members(), map["id" := Int(1)];
    var none: Bindings := map[];
    assert FRESH.correlations + none == none && none + bound == bound && FRESH.correlations + bound == bound;
    EqualIsEquivalence(Int(1), Int(1), Int(1));
    NumberedMatches(0, FIRST, none);
    NumberedMatches(1, FIRST, bound);
    assert {} + {0} == {0};
    assert Collect(v, FIRST, PAIR, FRESH, 2, Found({0}, bound)) == Ok(Found({0}, bound));
    assert Collect(v, FIRST, PAIR, FRESH, 1, Found({0}, bound)) == Ok(Found({0}, bound));
    assert Collect(v, FIRST, PAIR, FRESH, 0, Found({}, none)) == Ok(Found({0}, bound));
    assert |FRESH.matched + {0}| == 1;
  }

  const HALF := Progress(map["id" := Int(1)], {0}, None)

  lemma SecondDecision()
    ensures Decide(Members(), PAIR, SECOND, HALF) == Ok(Some(Decision({1}, map["id" := Float(1.0)], true, false, None)))
    ensures Rebinds(HALF.correlations, Decision({1}, map["id" := Float(1.0)], true, false, None))
  {
    var v, bound := Members(), map["id" := Float(1.0)];
    var none: Bindings := map[];
    assert HALF.correlations + none == HALF.correlations && none + bound == bound;
    EqualTextDiffers();
    EqualIsEquivalence(Int(1), Float(1.0), Int(1));
    NumberedMatches(1, SECOND, HALF.correlations);
    assert {} + {1} == {1};
    assert Collect(v, SECOND, PAIR, HALF, 2, Found({1}, bound)) == Ok(Found({1}, bound));
    assert Collect(v, SECOND, PAIR, HALF, 1, Found({}, none)) == Ok(Found({1}, bound));
    assert Collect(v, SECOND, PAIR, HALF, 0, Found({}, none)) == Ok(Found({1}, bound));
    assert HALF.matched + {1} == {0, 1} && |{0, 1}| == 2;
    assert "id" in HALF.correlations;
  }

  const ONE := Arrival(1, FIRST)
  const TWO := Arrival(2, SECOND)

  /** One poll after the two arrivals. */
  const ARRIVED := World(true, 2, [ONE, TWO], None, map[], None, map[], map[], map[], [])

  lemma BothArrive(t: Trigger)
    ensures Allowed(t, EMPTY, [Publish(FIRST), Publish(SECOND)])
            && Run(t, EMPTY, [Publish(FIRST), Publish(SECOND)]) == ARRIVED
  {
    var a, b := Publish(FIRST), Publish(SECOND);
    var m := Apply(t, EMPTY, a).0;
    assert [a, b][1..] == [b] && [b][1..] == [];
    assert m.inbox == [ONE] && Apply(t, m, b).0 == ARRIVED;
    assert Run(t, m, [b]) == Run(t, ARRIVED, []) && Allowed(t, m, [b]);
  }

  const TAKEN := Decision({0}, map["id" := Int(1)], false, false, None)
  const REFUSED := Decision({1}, map["id" := Float(1.0)], true, false, None)

  /** A trigger that takes the first event, and then would re-bind `id` for the second. */
  predicate Respelling(t: Trigger) {
    !t.instant && t.decide(FIRST, FRESH) == Ok(Some(TAKEN)) && t.decide(SECOND, HALF) == Ok(Some(REFUSED))
  }

  lemma FirstScan(t: Trigger, batch: seq<Arrival>)
    requires Respelling(t) && batch != [] && batch[0] == ONE
    ensures
      var end := Scan(t, Initial(1, 0), batch);
      end.Hit? && end.cycle.progress == HALF && end.cycle.cursor == 1 && !end.terminal
  {
    assert Absorbed(FRESH, TAKEN) == HALF by {
      assert FRESH.correlations + TAKEN.correlations == HALF.correlations;
    }
    assert !Rebinds(FRESH.correlations, TAKEN);
  }

  /** The first poll selects the first arrival and stops there. */
  lemma FirstPoll(t: Trigger, poll: Op)
    requires Respelling(t) && poll.Poll? && poll.limit >= 1 && poll.roomForStep && poll.roomForCycle
    ensures
      var w := Apply(t, ARRIVED, poll).0;
      && w.head.Some? && w.head.value.cursor == 1 && w.head.value.cycle.progress == HALF && w.log == [ONE, TWO]
      && w.active && !w.head.value.closed
  {
    BothArrive(t);
    ReachableInv(t, ARRIVED);
    RegisteredInv(t, ARRIVED);
    var r := Registered(ARRIVED).value;
    var batch := Take(After(r.inbox, 0), poll.limit);
    assert After(r.inbox, 0) == [ONE, TWO];
    FirstScan(t, batch);
    var end := Scan(t, Initial(1, 0), batch);
    ScanReady(t, r, r.head.value, poll.limit, batch);
    CommitExact(t, r, r.head.value, end.cycle, false, ChosenBy(end), poll);
  }

  lemma ThenStuck(t: Trigger, w: World)
    requires Respelling(t) && w.head.Some? && w.head.value.cursor == 1 && w.head.value.cycle.progress == HALF
             && w.log == [ONE, TWO]
    ensures Stuck(t, w)
  {
    CutUnique(w.log, 1, 1);
    assert After(w.log, 1) == [TWO];
    assert "id" in HALF.correlations && "id" in REFUSED.correlations;
    assert Rebinds(HALF.correlations, REFUSED);
  }

  lemma StallsAfter(t: Trigger, first: Op, ops: seq<Op>, poll: Op)
    requires Respelling(t) && first.Poll? && first.limit >= 1 && first.roomForStep && first.roomForCycle
    requires poll.Poll? && poll.limit >= 1 && Allowed(t, EMPTY, [Publish(FIRST), Publish(SECOND), first] + ops)
    ensures
      var u := Run(t, EMPTY, [Publish(FIRST), Publish(SECOND), first] + ops);
      && u.head.Some? && u.head.value.cursor == 1
      && (u.active && !u.head.value.closed ==> Apply(t, u, poll) == (u, Failed))
      && (ops == [] ==> Apply(t, u, poll) == (u, Failed))
  {
    var w := Apply(t, ARRIVED, first).0;
    FirstPoll(t, first);
    ThenStuck(t, w);
    RunsOn(t, first, ops);
    StuckForGood(t, w, ops);
    ReachableRuns(t, w, ops);
    var u := Run(t, w, ops);
    ReachableInv(t, u);
    if u.active && !u.head.value.closed { StuckFails(t, u, poll); }
  }

  /** Publish, publish, poll, and then every poll of the open, active trigger fails, whatever else happens in
      between. */
  lemma RebindRun(first: Op, ops: seq<Op>, poll: Op)
    requires first.Poll? && first.limit >= 1 && first.roomForStep && first.roomForCycle && poll.Poll? && poll.limit >= 1
    requires Allowed(Compile(Members(), PAIR), EMPTY, [Publish(FIRST), Publish(SECOND), first] + ops)
    ensures
      var t := Compile(Members(), PAIR);
      var u := Run(t, EMPTY, [Publish(FIRST), Publish(SECOND), first] + ops);
      && u.head.Some? && u.head.value.cursor == 1
      && (u.active && !u.head.value.closed ==> Apply(t, u, poll) == (u, Failed))
      && (ops == [] ==> Apply(t, u, poll) == (u, Failed))
  {
    FirstDecision();
    SecondDecision();
    StallsAfter(Compile(Members(), PAIR), first, ops, poll);
  }

  lemma PollOnce(t: Trigger, w: World, op: Op)
    ensures Run(t, w, [op]) == Apply(t, w, op).0 && (Enabled(w, op) ==> Allowed(t, w, [op]))
  {
    assert [op][1..] == [];
    assert Run(t, w, [op]) == Run(t, Apply(t, w, op).0, []);
  }

  lemma RunsOn(t: Trigger, first: Op, ops: seq<Op>)
    requires Allowed(t, EMPTY, [Publish(FIRST), Publish(SECOND), first] + ops)
    ensures
      var w := Apply(t, ARRIVED, first).0;
      && Reachable(t, w) && Allowed(t, w, ops)
      && Run(t, EMPTY, [Publish(FIRST), Publish(SECOND), first] + ops) == Run(t, w, ops)
  {
    var three := [Publish(FIRST), Publish(SECOND), first];
    BothArrive(t);
    RunSplits(t, EMPTY, three, ops);
    assert three == [Publish(FIRST), Publish(SECOND)] + [first];
    RunSplits(t, EMPTY, [Publish(FIRST), Publish(SECOND)], [first]);
    PollOnce(t, ARRIVED, first);
  }

  lemma {:induction false} RunSplits(t: Trigger, w: World, a: seq<Op>, b: seq<Op>)
    requires Allowed(t, w, a + b)
    ensures Allowed(t, w, a) && Allowed(t, Run(t, w, a), b) && Run(t, w, a + b) == Run(t, Run(t, w, a), b)
    decreases |a|
  {
    if a == [] {
      assert a + b == b;
    } else {
      assert (a + b)[1..] == a[1..] + b && (a + b)[0] == a[0];
      RunSplits(t, Apply(t, w, a[0]).0, a[1..], b);
    }
  }
}
