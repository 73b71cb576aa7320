/** JSON equality and candidate matching for event subscriptions (event_matching.py).

    The jq service, the regular-expression test and the filter guard are functions of their inputs that may fault. */
module EventMatching {
  import opened Prelude
  import Paging

  // ---------------------------------------------------------------- JSON values

  datatype Json =
    | Null
    | Bool(b: bool)
    | Int(i: int)
    | Float(r: real)
    | Str(s: string)
    | Arr(items: seq<Json>)
    | Obj(fields: map<string, Json>)

  predicate JsonEqual(a: Json, b: Json)
    decreases a
  {
    match (a, b)
    case (Bool(x), Bool(y)) => x == y
    case (Int(x), Int(y)) => x == y
    case (Int(x), Float(y)) => x as real == y
    case (Float(x), Int(y)) => x == y as real
    case (Float(x), Float(y)) => x == y
    case (Arr(x), Arr(y)) => |x| == |y| && forall i :: 0 <= i < |x| ==> JsonEqual(x[i], y[i])
    case (Obj(x), Obj(y)) => x.Keys == y.Keys && forall k :: k in x ==> JsonEqual(x[k], y[k])
    case (Null, Null) => true
    case (Str(x), Str(y)) => x == y
    case (_, _) => false
  }

  predicate Integral(x: real) { x.Floor as real == x }

  /** The value with every whole-number float written as an integer. */
  function Normal(a: Json): Json
    decreases a
  {
    match a
    case Float(x) => if Integral(x) then Int(x.Floor) else a
    case Arr(x) => Arr(seq(|x|, i requires 0 <= i < |x| => Normal(x[i])))
    case Obj(x) => Obj(map k | k in x :: Normal(x[k]))
    case _ => a
  }

  lemma NormalInt(x: int)
    ensures Integral(x as real) && (x as real).Floor == x
  {
  }

  /** `json_equal` compares values up to the spelling of whole numbers. */
  lemma {:induction false} EqualIsNormal(a: Json, b: Json)
    ensures JsonEqual(a, b) <==> Normal(a) == Normal(b)
    decreases a
  {
    match (a, b) {
      case (Int(x), Float(y)) => NormalInt(x);
      case (Float(x), Int(y)) => NormalInt(y);
      case (Arr(x), Arr(y)) =>
        forall i | 0 <= i < |x| && i < |y| ensures JsonEqual(x[i], y[i]) <==> Normal(x[i]) == Normal(y[i]) {
          EqualIsNormal(x[i], y[i]);
        }
        ArrNormal(x, y);
      case (Obj(x), Obj(y)) =>
        forall k | k in x && k in y ensures JsonEqual(x[k], y[k]) <==> Normal(x[k]) == Normal(y[k]) {
          EqualIsNormal(x[k], y[k]);
        }
        ObjNormal(x, y);
      case (_, _) =>
    }
  }

  lemma ArrNormal(x: seq<Json>, y: seq<Json>)
    ensures Normal(Arr(x)) == Normal(Arr(y)) <==>
            |x| == |y| && forall i :: 0 <= i < |x| ==> Normal(x[i]) == Normal(y[i])
  {
    var p, q := Normal(Arr(x)).items, Normal(Arr(y)).items;
    assert |p| == |x| && |q| == |y|;
    assert forall i :: 0 <= i < |x| ==> p[i] == Normal(x[i]);
    assert forall i :: 0 <= i < |y| ==> q[i] == Normal(y[i]);
  }

  lemma ObjNormal(x: map<string, Json>, y: map<string, Json>)
    ensures Normal(Obj(x)) == Normal(Obj(y)) <==>
            x.Keys == y.Keys && forall k :: k in x ==> Normal(x[k]) == Normal(y[k])
  {
    var p, q := Normal(Obj(x)).fields, Normal(Obj(y)).fields;
    assert p.Keys == x.Keys && q.Keys == y.Keys;
    assert forall k :: k in x ==> p[k] == Normal(x[k]);
    assert forall k :: k in y ==> q[k] == Normal(y[k]);
  }

  lemma EqualIsEquivalence(a: Json, b: Json, c: Json)
    ensures JsonEqual(a, a)
    ensures JsonEqual(a, b) ==> JsonEqual(b, a)
    ensures JsonEqual(a, b) && JsonEqual(b, c) ==> JsonEqual(a, c)
  {
    EqualIsNormal(a, a);
    EqualIsNormal(a, b);
    EqualIsNormal(b, a);
    EqualIsNormal(b, c);
    EqualIsNormal(a, c);
  }

  /** Canonical text is the value itself, so equal values may differ in text: 1 and 1.0 do. */
  lemma EqualTextDiffers()
    ensures JsonEqual(Int(1), Float(1.0)) && Int(1) != Float(1.0)
  {
  }

  /** Equal values have one text exactly when they are written alike; values without whole-number floats always are. */
  lemma EqualTextAgrees(a: Json, b: Json)
    requires JsonEqual(a, b) && Normal(a) == a && Normal(b) == b
    ensures a == b
  {
    EqualIsNormal(a, b);
  }

  // ---------------------------------------------------------------- strategies

  type Event = map<string, Json>

  datatype Rule = Rule(from: string, expected: Option<Json>)

  datatype Filter = Filter(properties: seq<(string, Json)>, correlate: seq<(string, Rule)>)

  datatype Mode = One | All | Any

  datatype Until = Never | When(expression: string) | Other(strategy: Strategy)

  datatype Strategy = Strategy(mode: Mode, filters: seq<Filter>, until: Until)

  /** A faulting expression aborts the whole match. */
  type Fallible<+T> = Result<T, string>

  /** The expression services, and the projection that `until` conditions read. */
  datatype Services = Services(
    evaluate: (string, Event) -> Fallible<Json>,
    condition: (string, Json) -> Fallible<bool>,
    test: (string, string) -> Fallible<bool>,
    isExpression: string -> bool,
    admits: (Filter, Event) -> bool,
    project: Event -> Json)

  type Bindings = map<string, Json>

  /** Matcher state; `inner` is the saved state of a nested terminator. */
  datatype Progress = Progress(correlations: Bindings, matched: set<nat>, inner: Option<Progress>)

  const FRESH := Progress(map[], {}, None)

  datatype Decision = Decision(indices: set<nat>, correlations: Bindings, terminal: bool, terminator: bool,
                               inner: Option<Progress>)

  // ---------------------------------------------------------------- one filter

  /** A fixed restriction: a pattern for text, equality for anything else. Expressions come later. */
  function StaticOk(v: Services, e: Event, property: (string, Json)): Fallible<bool> {
    var (name, expected) := property;
    if name !in e then Ok(false)
    else if expected.Str? then
      if v.isExpression(expected.s) then Ok(true)
      else if !e[name].Str? then Ok(false)
      else v.test(expected.s, e[name].s)
    else Ok(JsonEqual(e[name], expected))
  }

  function PredicateOk(v: Services, e: Event, property: (string, Json)): Fallible<bool> {
    var (name, expected) := property;
    if expected.Str? && v.isExpression(expected.s) && name in e then v.condition(expected.s, e[name]) else Ok(true)
  }

  /** The first of these checks that is not plainly true decides. */
  function AllOk(check: (string, Json) -> Fallible<bool>, properties: seq<(string, Json)>): Fallible<bool> {
    if properties == [] then Ok(true)
    else
      match check(properties[0].0, properties[0].1)
      case Err(f) => Err(f)
      case Ok(false) => Ok(false)
      case Ok(true) => AllOk(check, properties[1..])
  }

  /** The values that the rules extract, if each agrees with what is saved and expected. */
  function Extract(v: Services, e: Event, rules: seq<(string, Rule)>, saved: Bindings,
                   found: Bindings): Fallible<Option<Bindings>>
    decreases |rules|
  {
    if rules == [] then Ok(Some(found))
    else
      var (name, rule) := rules[0];
      match v.evaluate(rule.from, e)
      case Err(f) => Err(f)
      case Ok(actual) =>
        if name in saved && !JsonEqual(actual, saved[name]) then Ok(None)
        else if rule.expected.Some? && !JsonEqual(actual, rule.expected.value) then Ok(None)
        else Extract(v, e, rules[1..], saved, found[name := actual])
  }

  function MatchFilter(v: Services, e: Event, f: Filter, saved: Bindings): Fallible<Option<Bindings>> {
    if !v.admits(f, e) then Ok(None)
    else
      match AllOk((n, x) => StaticOk(v, e, (n, x)), f.properties)
      case Err(x) => Err(x)
      case Ok(false) => Ok(None)
      case Ok(true) =>
        match AllOk((n, x) => PredicateOk(v, e, (n, x)), f.properties)
        case Err(x) => Err(x)
        case Ok(false) => Ok(None)
        case Ok(true) => Extract(v, e, f.correlate, saved, map[])
  }

  // ---------------------------------------------------------------- one strategy

  datatype Found = Found(matches: set<nat>, bindings: Bindings)

  /** Filters from `i` on, each matched against everything bound so far. */
  function Collect(v: Services, e: Event, s: Strategy, p: Progress, i: nat, found: Found): Fallible<Found>
    requires i <= |s.filters|
    decreases |s.filters| - i
  {
    if i == |s.filters| then Ok(found)
    else if s.mode == All && i in p.matched then Collect(v, e, s, p, i + 1, found)
    else
      match MatchFilter(v, e, s.filters[i], p.correlations + found.bindings)
      case Err(f) => Err(f)
      case Ok(None) => Collect(v, e, s, p, i + 1, found)
      case Ok(Some(b)) => Collect(v, e, s, p, i + 1, Found(found.matches + {i}, found.bindings + b))
  }

  function InnerOf(p: Progress): Progress { if p.inner.Some? then p.inner.value else FRESH }

  function Absorbed(p: Progress, d: Decision): Progress {
    Progress(p.correlations + d.correlations, p.matched + d.indices, d.inner)
  }

  function Decide(v: Services, s: Strategy, e: Event, p: Progress): Fallible<Option<Decision>>
    decreases s, 1
  {
    if s.until.Other? then
      match Decide(v, s.until.strategy, e, InnerOf(p))
      case Err(f) => Err(f)
      case Ok(Some(d)) => Ok(Some(Decision({}, map[], d.terminal, true, Some(Absorbed(InnerOf(p), d)))))
      case Ok(None) => DecideFilters(v, s, e, p)
    else DecideFilters(v, s, e, p)
  }

  function DecideFilters(v: Services, s: Strategy, e: Event, p: Progress): Fallible<Option<Decision>>
    decreases s, 0
  {
    match Collect(v, e, s, p, 0, Found({}, map[]))
    case Err(f) => Err(f)
    case Ok(found) =>
      if found.matches == {} && !(s.mode == Any && s.filters == []) then Ok(None)
      else
        var complete := s.mode != All || |p.matched + found.matches| == |s.filters|;
        match s.until
        case Never => Ok(Some(Decision(found.matches, found.bindings, complete, false, p.inner)))
        case Other(_) => Ok(Some(Decision(found.matches, found.bindings, false, false, p.inner)))
        case When(x) =>
          match v.condition(x, v.project(e))
          case Err(f) => Err(f)
          case Ok(true) => Ok(Some(Decision({}, map[], true, true, p.inner)))
          case Ok(false) => Ok(Some(Decision(found.matches, found.bindings, false, false, p.inner)))
  }

  // ---------------------------------------------------------------- correlations agree

  /** Shared keys have equal values. */
  ghost predicate Agrees(a: Bindings, b: Bindings) {
    forall k :: k in a && k in b ==> JsonEqual(a[k], b[k])
  }

  lemma AgreesJoin(a: Bindings, old_: Bindings, new_: Bindings)
    requires Agrees(new_, old_) && Agrees(a, old_ + new_)
    ensures Agrees(a, old_) && Agrees(a, new_) && Agrees(new_ + a, old_)
  {
    forall k | k in a && k in new_ ensures JsonEqual(a[k], new_[k]) { assert (old_ + new_)[k] == new_[k]; }
    forall k | k in a && k in old_ ensures JsonEqual(a[k], old_[k]) {
      if k in new_ {
        assert (old_ + new_)[k] == new_[k];
        EqualIsEquivalence(a[k], new_[k], old_[k]);
      } else {
        assert (old_ + new_)[k] == old_[k];
      }
    }
    forall k | k in new_ + a && k in old_ ensures JsonEqual((new_ + a)[k], old_[k]) {
      if k in a { assert (new_ + a)[k] == a[k]; } else { assert (new_ + a)[k] == new_[k]; }
    }
  }

  /** Each rule's value is in `b`. */
  ghost predicate Holds(v: Services, e: Event, rules: seq<(string, Rule)>, b: Bindings) {
    forall i :: 0 <= i < |rules| ==> BoundTo(v, e, rules[i], b)
  }

  predicate BoundTo(v: Services, e: Event, rule: (string, Rule), b: Bindings) {
    v.evaluate(rule.1.from, e).Ok? && rule.0 in b && JsonEqual(v.evaluate(rule.1.from, e).value, b[rule.0])
  }

  ghost predicate DistinctNames(rules: seq<(string, Rule)>) {
    forall i, j :: 0 <= i < j < |rules| ==> rules[i].0 != rules[j].0
  }

  ghost predicate WellFormed(s: Strategy) {
    forall i :: 0 <= i < |s.filters| ==> DistinctNames(s.filters[i].correlate)
  }

  lemma {:induction false} ExtractAgrees(v: Services, e: Event, rules: seq<(string, Rule)>, saved: Bindings,
                                         found: Bindings, b: Bindings)
    requires Extract(v, e, rules, saved, found) == Ok(Some(b)) && Agrees(found, saved) && DistinctNames(rules)
    ensures Agrees(b, saved) && Holds(v, e, rules, b)
    ensures forall k :: k in found ==> k in b
    ensures forall k :: k in found && (forall i :: 0 <= i < |rules| ==> rules[i].0 != k) ==> b[k] == found[k]
    decreases |rules|
  {
    if rules != [] {
      var (name, rule) := rules[0];
      var actual := v.evaluate(rule.from, e).value;
      ExtractAgrees(v, e, rules[1..], saved, found[name := actual], b);
      EqualIsEquivalence(actual, actual, actual);
      assert b[name] == actual;
      assert BoundTo(v, e, rules[0], b);
      forall i | 0 <= i < |rules| ensures BoundTo(v, e, rules[i], b) {
        if i > 0 { assert rules[i] == rules[1..][i - 1]; }
      }
    }
  }

  ghost predicate AllHold(v: Services, e: Event, s: Strategy, found: Found) {
    forall i :: i in found.matches ==> i < |s.filters| && Holds(v, e, s.filters[i].correlate, found.bindings)
  }

  lemma HoldsJoin(v: Services, e: Event, rules: seq<(string, Rule)>, b: Bindings, c: Bindings)
    requires Holds(v, e, rules, b) && Agrees(c, b)
    ensures Holds(v, e, rules, b + c)
  {
    forall i | 0 <= i < |rules| ensures BoundTo(v, e, rules[i], b + c) {
      var (name, rule) := rules[i];
      assert BoundTo(v, e, rules[i], b);
      if name in c {
        EqualIsEquivalence(c[name], b[name], b[name]);
        EqualIsEquivalence(v.evaluate(rule.from, e).value, b[name], c[name]);
      }
    }
  }

  lemma HoldsOver(v: Services, e: Event, rules: seq<(string, Rule)>, b: Bindings, c: Bindings)
    requires Holds(v, e, rules, c)
    ensures Holds(v, e, rules, b + c)
  {
    forall i | 0 <= i < |rules| ensures BoundTo(v, e, rules[i], b + c) { assert BoundTo(v, e, rules[i], c); }
  }

  lemma MatchAgrees(v: Services, e: Event, f: Filter, saved: Bindings, b: Bindings)
    requires MatchFilter(v, e, f, saved) == Ok(Some(b)) && DistinctNames(f.correlate)
    ensures Agrees(b, saved) && Holds(v, e, f.correlate, b)
  {
    ExtractAgrees(v, e, f.correlate, saved, map[], b);
  }

  lemma {:induction false} CollectAgrees(v: Services, e: Event, s: Strategy, p: Progress, i: nat, found: Found,
                                         all: Found)
    requires i <= |s.filters| && WellFormed(s) && Collect(v, e, s, p, i, found) == Ok(all)
    requires Agrees(found.bindings, p.correlations) && AllHold(v, e, s, found)
    requires s.mode == All ==> found.matches !! p.matched
    ensures Agrees(all.bindings, p.correlations) && AllHold(v, e, s, all)
    ensures s.mode == All ==> all.matches !! p.matched
    decreases |s.filters| - i
  {
    if i < |s.filters| {
      if s.mode == All && i in p.matched {
        CollectAgrees(v, e, s, p, i + 1, found, all);
      } else {
        var saved := p.correlations + found.bindings;
        var m := MatchFilter(v, e, s.filters[i], saved);
        if m.value.None? {
          CollectAgrees(v, e, s, p, i + 1, found, all);
        } else {
          var b := m.value.value;
          MatchAgrees(v, e, s.filters[i], saved, b);
          AgreesJoin(b, p.correlations, found.bindings);
          var next := Found(found.matches + {i}, found.bindings + b);
          forall j | j in next.matches ensures j < |s.filters| && Holds(v, e, s.filters[j].correlate, next.bindings) {
            if j in found.matches {
              HoldsJoin(v, e, s.filters[j].correlate, found.bindings, b);
            } else {
              HoldsOver(v, e, s.filters[j].correlate, found.bindings, b);
            }
          }
          CollectAgrees(v, e, s, p, i + 1, next, all);
        }
      }
    }
  }

  /** A decision binds what its filters extract from the event, in agreement with all that was bound before. */
  lemma DecisionAgrees(v: Services, s: Strategy, e: Event, p: Progress, d: Decision)
    requires WellFormed(s) && Decide(v, s, e, p) == Ok(Some(d))
    ensures Agrees(d.correlations, p.correlations)
    ensures forall i :: i in d.indices ==> i < |s.filters| && Holds(v, e, s.filters[i].correlate, d.correlations)
    ensures s.mode == All ==> d.indices !! p.matched
  {
    var all := Collect(v, e, s, p, 0, Found({}, map[]));
    if all.Ok? { CollectAgrees(v, e, s, p, 0, Found({}, map[]), all.value); }
  }

  // ---------------------------------------------------------------- over a cycle

  /** The decisions that a run of events takes, each starting from what the earlier ones left. */
  function Decisions(v: Services, s: Strategy, p: Progress, events: seq<Event>): Fallible<seq<(Event, Decision)>>
    decreases |events|
  {
    if events == [] then Ok([])
    else
      match Decide(v, s, events[0], p)
      case Err(f) => Err(f)
      case Ok(None) => Decisions(v, s, p, events[1..])
      case Ok(Some(d)) =>
        match Decisions(v, s, Absorbed(p, d), events[1..])
        case Err(f) => Err(f)
        case Ok(rest) => Ok([(events[0], d)] + rest)
  }

  /** Bound values and matched filters stay, up to equality, throughout the run. */
  lemma {:induction false} DecisionsAgree(v: Services, s: Strategy, p: Progress, events: seq<Event>,
                                          ds: seq<(Event, Decision)>)
    requires WellFormed(s) && Decisions(v, s, p, events) == Ok(ds)
    ensures forall i :: 0 <= i < |ds| ==> Agrees(ds[i].1.correlations, p.correlations)
    ensures forall i :: 0 <= i < |ds| && s.mode == All ==> ds[i].1.indices !! p.matched
    ensures forall i, j :: 0 <= i < j < |ds| ==> Agrees(ds[j].1.correlations, ds[i].1.correlations)
    ensures forall i, j :: 0 <= i < j < |ds| && s.mode == All ==> ds[j].1.indices !! ds[i].1.indices
    ensures forall i :: 0 <= i < |ds| ==> Extracts(v, s, ds[i])
    decreases |events|
  {
    if events != [] {
      var first := Decide(v, s, events[0], p).value;
      if first.None? {
        DecisionsAgree(v, s, p, events[1..], ds);
      } else {
        var d := first.value;
        DecisionAgrees(v, s, events[0], p, d);
        var next := Absorbed(p, d);
        DecisionsAgree(v, s, next, events[1..], ds[1..]);
        forall j | 1 <= j < |ds|
          ensures Agrees(ds[j].1.correlations, p.correlations) && Agrees(ds[j].1.correlations, d.correlations)
        {
          assert ds[j] == ds[1..][j - 1];
          AgreesJoin(ds[j].1.correlations, p.correlations, d.correlations);
        }
        assert forall j :: 1 <= j < |ds| ==> ds[j] == ds[1..][j - 1];
      }
    }
  }

  /** A decision's matched filters all find their values in its bindings. */
  ghost predicate Extracts(v: Services, s: Strategy, hit: (Event, Decision)) {
    forall i :: i in hit.1.indices ==> i < |s.filters| && Holds(v, hit.0, s.filters[i].correlate, hit.1.correlations)
  }

  /** Any two matches of a cycle, through whatever filters, extract equal values for a shared correlation name. */
  lemma SelectedEventsAgree(v: Services, s: Strategy, events: seq<Event>, ds: seq<(Event, Decision)>,
                            i: nat, f: nat, a: nat, j: nat, g: nat, b: nat)
    requires WellFormed(s) && Decisions(v, s, FRESH, events) == Ok(ds)
    requires i <= j < |ds| && f in ds[i].1.indices && g in ds[j].1.indices && f < |s.filters| && g < |s.filters|
    requires a < |s.filters[f].correlate| && b < |s.filters[g].correlate|
             && s.filters[f].correlate[a].0 == s.filters[g].correlate[b].0
    ensures
      var x, y := v.evaluate(s.filters[f].correlate[a].1.from, ds[i].0),
          v.evaluate(s.filters[g].correlate[b].1.from, ds[j].0);
      x.Ok? && y.Ok? && JsonEqual(x.value, y.value)
  {
    DecisionsAgree(v, s, FRESH, events, ds);
    assert Extracts(v, s, ds[i]) && Extracts(v, s, ds[j]);
    var p, q := s.filters[f].correlate[a], s.filters[g].correlate[b];
    assert BoundTo(v, ds[i].0, p, ds[i].1.correlations) && BoundTo(v, ds[j].0, q, ds[j].1.correlations);
    var m, n := ds[i].1.correlations[p.0], ds[j].1.correlations[p.0];
    var x, y := v.evaluate(p.1.from, ds[i].0).value, v.evaluate(q.1.from, ds[j].0).value;
    assert i < j ==> Agrees(ds[j].1.correlations, ds[i].1.correlations);
    EqualIsEquivalence(m, m, m);
    EqualIsEquivalence(n, m, m);
    EqualIsEquivalence(y, n, m);
    EqualIsEquivalence(y, m, m);
    EqualIsEquivalence(x, m, y);
  }

  // ---------------------------------------------------------------- completion of an "all" strategy

  function Indices(n: nat): (all: set<nat>)
    ensures |all| == n && forall i: nat :: i in all <==> i < n
  {
    if n == 0 then {} else Indices(n - 1) + {n - 1}
  }

  lemma FullSubset(a: set<nat>, b: set<nat>)
    requires a <= b && |a| == |b|
    ensures a == b
  {
    if x :| x in b && x !in a { Paging.Subset(a, b - {x}); }
  }

  /** Without a terminator, an "all" cycle ends exactly when every filter has matched. */
  lemma AllEndsWhenMatched(v: Services, s: Strategy, e: Event, p: Progress, d: Decision)
    requires WellFormed(s) && s.mode == All && s.until == Never && Decide(v, s, e, p) == Ok(Some(d))
    requires forall i :: i in p.matched ==> i < |s.filters|
    ensures d.terminal <==> Absorbed(p, d).matched == Indices(|s.filters|)
  {
    DecisionAgrees(v, s, e, p, d);
    var m := p.matched + d.indices;
    assert m <= Indices(|s.filters|);
    if |m| == |s.filters| { FullSubset(m, Indices(|s.filters|)); }
  }

  // ---------------------------------------------------------------- re-binding

  /** `poll` refuses a decision whose value for a bound key has another canonical text. */
  predicate Rebinds(c: Bindings, d: Decision) {
    exists k :: k in c && k in d.correlations && c[k] != d.correlations[k]
  }

  // ---------------------------------------------------------------- the matcher

  /** The queued predicates, and after them `rest`. */
  function Later(v: Services, e: Event, predicates: seq<(string, string)>, rest: Fallible<bool>): Fallible<bool>
    requires forall j :: 0 <= j < |predicates| ==> predicates[j].0 in e
  {
    if predicates == [] then rest
    else
      match v.condition(predicates[0].1, e[predicates[0].0])
      case Err(f) => Err(f)
      case Ok(false) => Ok(false)
      case Ok(true) => Later(v, e, predicates[1..], rest)
  }

  lemma {:induction false} LaterGrows(v: Services, e: Event, predicates: seq<(string, string)>, p: (string, string),
                                      rest: Fallible<bool>)
    requires p.0 in e && forall j :: 0 <= j < |predicates| ==> predicates[j].0 in e
    ensures Later(v, e, predicates + [p], rest) == Later(v, e, predicates, Later(v, e, [p], rest))
    decreases |predicates|
  {
    if predicates == [] {
      assert predicates + [p] == [p];
    } else {
      assert (predicates + [p])[1..] == predicates[1..] + [p];
      LaterGrows(v, e, predicates[1..], p, rest);
    }
  }

  /** Static restrictions, queueing the expression predicates for later; `None` rejects the event. */
  method CheckRestrictions(v: Services, e: Event, properties: seq<(string, Json)>)
    returns (r: Fallible<Option<seq<(string, string)>>>)
    ensures
      match AllOk((n, x) => StaticOk(v, e, (n, x)), properties)
      case Err(f) => r == Err(f)
      case Ok(passed) => r.Ok? && r.value.Some? == passed
    ensures r.Ok? && r.value.Some? ==>
              && (forall j :: 0 <= j < |r.value.value| ==> r.value.value[j].0 in e)
              && AllOk((n, x) => PredicateOk(v, e, (n, x)), properties) == Later(v, e, r.value.value, Ok(true))
  {
    ghost var fixed, guarded := (n, x) => StaticOk(v, e, (n, x)), (n, x) => PredicateOk(v, e, (n, x));
    var predicates: seq<(string, string)> := [];
    var i := 0;
    while i < |properties|
      invariant 0 <= i <= |properties|
      invariant AllOk(fixed, properties) == AllOk(fixed, properties[i..])
      invariant forall j :: 0 <= j < |predicates| ==> predicates[j].0 in e
      invariant AllOk(guarded, properties) == Later(v, e, predicates, AllOk(guarded, properties[i..]))
    {
      var (name, expected) := properties[i];
      assert properties[i..][0] == properties[i] && properties[i..][1..] == properties[i + 1..];
      if name !in e { return Ok(None); }
      if expected.Str? {
        if v.isExpression(expected.s) {
          LaterGrows(v, e, predicates, (name, expected.s), AllOk(guarded, properties[i + 1..]));
          predicates := predicates + [(name, expected.s)];
        } else {
          if !e[name].Str? { return Ok(None); }
          var passed := v.test(expected.s, e[name].s);
          if passed.Err? { return Err(passed.error); }
          if !passed.value { return Ok(None); }
        }
      } else if !JsonEqual(e[name], expected) {
        return Ok(None);
      }
      i := i + 1;
    }
    assert properties[i..] == [];
    return Ok(Some(predicates));
  }

  /** The values that the correlation rules extract. */
  method ExtractBindings(v: Services, e: Event, rules: seq<(string, Rule)>, saved: Bindings)
    returns (r: Fallible<Option<Bindings>>)
    ensures r == Extract(v, e, rules, saved, map[])
  {
    var result: Bindings := map[];
    var i := 0;
    while i < |rules|
      invariant 0 <= i <= |rules|
      invariant Extract(v, e, rules, saved, map[]) == Extract(v, e, rules[i..], saved, result)
    {
      var (name, rule) := rules[i];
      assert rules[i..][1..] == rules[i + 1..];
      var actual := v.evaluate(rule.from, e);
      if actual.Err? { return Err(actual.error); }
      if name in saved && !JsonEqual(actual.value, saved[name]) { return Ok(None); }
      if rule.expected.Some? && !JsonEqual(actual.value, rule.expected.value) { return Ok(None); }
      result := result[name := actual.value];
      i := i + 1;
    }
    return Ok(Some(result));
  }

  /** Static restrictions first, then predicates, then correlation rules. */
  method MatchEvent(v: Services, e: Event, f: Filter, saved: Bindings) returns (r: Fallible<Option<Bindings>>)
    ensures r == MatchFilter(v, e, f, saved)
  {
    if !v.admits(f, e) { return Ok(None); }
    var checked := CheckRestrictions(v, e, f.properties);
    if checked.Err? { return Err(checked.error); }
    if checked.value.None? { return Ok(None); }
    var predicates := checked.value.value;
    ghost var all := Later(v, e, predicates, Ok(true));
    var i := 0;
    while i < |predicates|
      invariant 0 <= i <= |predicates|
      invariant all == Later(v, e, predicates[i..], Ok(true))
    {
      assert predicates[i..][1..] == predicates[i + 1..];
      var passed := v.condition(predicates[i].1, e[predicates[i].0]);
      if passed.Err? { return Err(passed.error); }
      if !passed.value { return Ok(None); }
      i := i + 1;
    }
    assert predicates[i..] == [];
    r := ExtractBindings(v, e, f.correlate, saved);
  }

  method DecideEvent(v: Services, s: Strategy, e: Event, p: Progress) returns (r: Fallible<Option<Decision>>)
    ensures r == Decide(v, s, e, p)
    decreases s
  {
    if s.until.Other? {
      var inner := InnerOf(p);
      var terminator := DecideEvent(v, s.until.strategy, e, inner);
      if terminator.Err? { return Err(terminator.error); }
      if terminator.value.Some? {
        var d := terminator.value.value;
        var update := Progress(inner.correlations + d.correlations, inner.matched + d.indices, d.inner);
        return Ok(Some(Decision({}, map[], d.terminal, true, Some(update))));
      }
    }
    var matches: set<nat>, bindings: Bindings := {}, map[];
    var i := 0;
    while i < |s.filters|
      invariant 0 <= i <= |s.filters|
      invariant Collect(v, e, s, p, 0, Found({}, map[])) == Collect(v, e, s, p, i, Found(matches, bindings))
    {
      if !(s.mode == All && i in p.matched) {
        var extracted := MatchEvent(v, e, s.filters[i], p.correlations + bindings);
        if extracted.Err? { return Err(extracted.error); }
        if extracted.value.Some? {
          matches, bindings := matches + {i}, bindings + extracted.value.value;
        }
      }
      i := i + 1;
    }
    if matches == {} && !(s.mode == Any && s.filters == []) { return Ok(None); }
    var terminal := s.mode != All || |p.matched + matches| == |s.filters|;
    if !s.until.Never? {
      terminal := false;
      if s.until.When? {
        var ended := v.condition(s.until.expression, v.project(e));
        if ended.Err? { return Err(ended.error); }
        terminal := ended.value;
      }
      if terminal { return Ok(Some(Decision({}, map[], true, true, p.inner))); }
    }
    return Ok(Some(Decision(matches, bindings, terminal, false, p.inner)));
  }
}
