/** The memoised depth check of reusable functions (definitions.py `visit`). */
module FunctionDepth {
  import opened Prelude

  type Name = string

  /** Each function with the functions it calls. */
  type Calls = map<Name, set<Name>>

  const LIMIT: nat := 32

  predicate Closed(deps: Calls) {
    forall n, d :: n in deps && d in deps[n] ==> d in deps
  }

  // ---------------------------------------------------------------- chains

  /** Each function calls the next. */
  ghost predicate Chain(deps: Calls, p: seq<Name>) {
    && p != [] && (forall i :: 0 <= i < |p| ==> p[i] in deps)
    && forall i :: 0 <= i < |p| - 1 ==> p[i + 1] in deps[p[i]]
  }

  ghost predicate Bounded(deps: Calls, limit: nat) {
    forall p :: Chain(deps, p) ==> |p| <= limit
  }

  ghost predicate Cyclic(deps: Calls) {
    exists p :: |p| >= 2 && Chain(deps, p) && p[0] == p[|p| - 1]
  }

  /** The length of the longest chain from `n`. */
  ghost predicate IsHeight(deps: Calls, n: Name, h: nat) {
    && (exists p :: Chain(deps, p) && p[0] == n && |p| == h)
    && forall p :: Chain(deps, p) && p[0] == n ==> |p| <= h
  }

  lemma ChainJoins(deps: Calls, p: seq<Name>, q: seq<Name>)
    requires Chain(deps, p) && Chain(deps, q) && q[0] in deps[p[|p| - 1]]
    ensures Chain(deps, p + q)
  {
    var r := p + q;
    forall i | 0 <= i < |r| - 1 ensures r[i + 1] in deps[r[i]] {
      if i < |p| - 1 { assert r[i] == p[i] && r[i + 1] == p[i + 1]; }
      else if i == |p| - 1 { assert r[i] == p[i] && r[i + 1] == q[0]; }
      else { assert r[i] == q[i - |p|] && r[i + 1] == q[i - |p| + 1]; }
    }
  }

  lemma ChainSuffix(deps: Calls, p: seq<Name>, i: nat)
    requires Chain(deps, p) && i < |p|
    ensures Chain(deps, p[i..]) && Chain(deps, p[..i + 1])
  {
    forall j | 0 <= j < |p[i..]| - 1 ensures p[i..][j + 1] in deps[p[i..][j]] {
      assert p[i..][j] == p[i + j] && p[i..][j + 1] == p[i + j + 1];
    }
  }

  /** Going round a cycle gives chains of every length. */
  lemma {:induction false} Pump(deps: Calls, p: seq<Name>, n: nat) returns (q: seq<Name>)
    requires |p| >= 2 && Chain(deps, p) && p[0] == p[|p| - 1]
    ensures Chain(deps, q) && |q| >= n && q[0] == p[0]
    decreases n
  {
    if n <= |p| {
      q := p;
    } else {
      var r := Pump(deps, p, n - 1);
      var front := p[..|p| - 1];
      ChainSuffix(deps, p, |p| - 2);
      assert front == p[..|p| - 2 + 1];
      ChainJoins(deps, front, r);
      q := front + r;
    }
  }

  lemma BoundedIsAcyclic(deps: Calls, limit: nat)
    requires Bounded(deps, limit)
    ensures !Cyclic(deps)
  {
    if Cyclic(deps) {
      var p :| |p| >= 2 && Chain(deps, p) && p[0] == p[|p| - 1];
      var q := Pump(deps, p, limit + 1);
    }
  }

  lemma RepeatIsCycle(deps: Calls, stack: seq<Name>, name: Name)
    requires Chain(deps, stack + [name]) && name in stack
    ensures Cyclic(deps)
  {
    var chain := stack + [name];
    var i :| 0 <= i < |stack| && stack[i] == name;
    ChainSuffix(deps, chain, i);
    assert chain[i..][0] == name && chain[i..][|chain[i..]| - 1] == name;
  }

  lemma ChainGrows(deps: Calls, chain: seq<Name>, d: Name)
    requires Closed(deps) && Chain(deps, chain) && d in deps[chain[|chain| - 1]]
    ensures Chain(deps, chain + [d]) && d in deps
  {
    assert Chain(deps, [d]);
    ChainJoins(deps, chain, [d]);
  }

  /** One more than the highest callee. */
  lemma HeightStep(deps: Calls, n: Name, best: nat)
    requires n in deps && Closed(deps)
    requires forall d :: d in deps[n] ==> exists h: nat :: h <= best && IsHeight(deps, d, h)
    requires best > 0 ==> exists d :: d in deps[n] && IsHeight(deps, d, best)
    ensures IsHeight(deps, n, best + 1)
  {
    assert Chain(deps, [n]);
    if best > 0 {
      var d :| d in deps[n] && IsHeight(deps, d, best);
      var p :| Chain(deps, p) && p[0] == d && |p| == best;
      ChainJoins(deps, [n], p);
      assert ([n] + p)[0] == n && |[n] + p| == best + 1;
    } else {
      assert [n][0] == n && |[n]| == best + 1;
    }
    forall p | Chain(deps, p) && p[0] == n ensures |p| <= best + 1 {
      if |p| > 1 {
        assert p[1] in deps[p[0]];
        ChainSuffix(deps, p, 1);
        assert p[1..][0] == p[1];
        var h: nat :| h <= best && IsHeight(deps, p[1], h);
      }
    }
  }

  // ---------------------------------------------------------------- the visitor

  datatype Fault = Recursive | TooDeep

  type Outcome = Result<nat, Fault>

  ghost predicate Witnessed(deps: Calls, f: Fault) {
    match f
    case Recursive => Cyclic(deps)
    case TooDeep => !Bounded(deps, LIMIT)
  }

  /** Heights, once memoised, stay. */
  ghost predicate Keeps(before: map<Name, nat>, after: map<Name, nat>) {
    forall n :: n in before ==> n in after && after[n] == before[n]
  }

  class DepthChecker {
    const deps: Calls
    var heights: map<Name, nat>

    /** Every memoised height is the true one. */
    ghost predicate Valid()
      reads this
    {
      Closed(deps) && forall n :: n in heights ==> n in deps && heights[n] <= LIMIT && IsHeight(deps, n, heights[n])
    }

    constructor (deps: Calls)
      requires Closed(deps)
      ensures this.deps == deps && heights == map[] && Valid()
    {
      this.deps, heights := deps, map[];
    }

    method Visit(name: Name, stack: seq<Name>) returns (r: Outcome)
      requires Valid() && name in deps && Chain(deps, stack + [name]) && |stack| <= LIMIT
      modifies this
      ensures Valid() && Keeps(old(heights), heights)
      ensures r.Ok? ==> name in heights && heights[name] == r.value
      ensures r.Err? ==> Witnessed(deps, r.error)
      decreases LIMIT - |stack|, 0
    {
      if name in stack {
        RepeatIsCycle(deps, stack, name);
        return Err(Recursive);
      }
      if |stack| >= LIMIT { return Err(TooDeep); }
      if name in heights { return Ok(heights[name]); }
      r := Callees(name, stack + [name]);
      if r.Err? { return; }
      HeightStep(deps, name, r.value);
      if r.value + 1 > LIMIT {
        ghost var p :| Chain(deps, p) && p[0] == name && |p| == r.value + 1;
        return Err(TooDeep);
      }
      heights := heights[name := r.value + 1];
      return Ok(r.value + 1);
    }

    /** The greatest height among the callees of the last function of `chain`, all of them visited. */
    method Callees(name: Name, chain: seq<Name>) returns (r: Outcome)
      requires Valid() && name in deps && Chain(deps, chain) && chain[|chain| - 1] == name && |chain| <= LIMIT
      modifies this
      ensures Valid() && Keeps(old(heights), heights)
      ensures r.Ok? ==> forall d :: d in deps[name] ==> d in heights && heights[d] <= r.value
      ensures r.Ok? && r.value > 0 ==> exists d :: d in deps[name] && d in heights && heights[d] == r.value
      ensures r.Err? ==> Witnessed(deps, r.error)
      decreases LIMIT - |chain|, 1
    {
      var rest, best: nat := deps[name], 0;
      ghost var highest := name;
      while rest != {}
        invariant Valid() && rest <= deps[name] && Keeps(old(heights), heights)
        invariant forall d :: d in deps[name] && d !in rest ==> d in heights && heights[d] <= best
        invariant best > 0 ==> highest in deps[name] && highest in heights && heights[highest] == best
        decreases |rest|
      {
        var d :| d in rest;
        ChainGrows(deps, chain, d);
        var h := Visit(d, chain);
        if h.Err? { return Err(h.error); }
        if h.value > best {
          best := h.value;
          highest := d;
        }
        rest := rest - {d};
      }
      return Ok(best);
    }

    /** Accepts exactly when no chain is longer than 32 functions, in whatever order names are taken. */
    method Check() returns (ok: bool)
      requires Valid()
      modifies this
      ensures ok <==> Bounded(deps, LIMIT)
      ensures ok <==> !Cyclic(deps) && Bounded(deps, LIMIT)
      ensures ok ==> heights.Keys == deps.Keys && forall n :: n in deps ==> IsHeight(deps, n, heights[n])
    {
      var rest := deps.Keys;
      while rest != {}
        invariant Valid() && rest <= deps.Keys && deps.Keys - rest <= heights.Keys
        decreases |rest|
      {
        var name :| name in rest;
        assert [] + [name] == [name];
        var h := Visit(name, []);
        if h.Err? {
          if Bounded(deps, LIMIT) { BoundedIsAcyclic(deps, LIMIT); }
          return false;
        }
        rest := rest - {name};
      }
      forall p | Chain(deps, p) ensures |p| <= LIMIT { assert p[0] in heights; }
      BoundedIsAcyclic(deps, LIMIT);
      return true;
    }
  }
}
