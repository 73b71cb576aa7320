/** The dispatcher's round over due waits: a page beyond the cursor, cut short when the workers are all taken
    (child_wait_dispatcher.py `tick`). */
module WaitDispatch {
  import opened Prelude
  import opened Paging

  /** One round: what was due, the page read beyond the cursor, and how many of its keys were reached. */
  datatype Round = Round(due: set<nat>, page: seq<nat>, cut: nat)

  predicate RoundOk(cursor: Option<nat>, r: Round, limit: nat) {
    IsPage(Above(r.due, cursor), limit, r.page) && r.cut <= |r.page|
  }

  /** An empty page starts over; otherwise the cursor stands at the last key reached. */
  function NextCursor(cursor: Option<nat>, page: seq<nat>, cut: nat): Option<nat>
    requires cut <= |page|
  {
    if page == [] then None else if cut == 0 then cursor else Some(page[cut - 1])
  }

  class WaitDispatcher {
    var cursor: Option<nat>
    const limit: nat

    constructor (limit: nat)
      ensures cursor == None && this.limit == limit
    {
      cursor, this.limit := None, limit;
    }

    /** `busy` keys take no worker: their parents are already at work, or their rows cannot be read. */
    method Tick(due: set<nat>, workers: nat, maximum: nat, busy: set<nat>) returns (r: Round)
      modifies this
      ensures r.due == due && RoundOk(old(cursor), r, limit) && cursor == NextCursor(old(cursor), r.page, r.cut)
      ensures workers < maximum && r.page != [] ==> r.cut > 0
      ensures r.cut < |r.page| ==> workers + Idle(r.page[..r.cut], busy) >= maximum
      ensures workers <= maximum ==> workers + Idle(r.page[..r.cut], busy) <= maximum
    {
      var page := SelectPage(Above(due, cursor), limit);
      if page == [] { cursor := None; }
      var i := ReachKeys(page, workers, maximum, busy);
      r := Round(due, page, i);
    }

    /** The keys reached before the workers run out. */
    method ReachKeys(page: seq<nat>, workers: nat, maximum: nat, busy: set<nat>) returns (i: nat)
      modifies this
      ensures i <= |page| && cursor == if i == 0 then old(cursor) else Some(page[i - 1])
      ensures i < |page| ==> workers + Idle(page[..i], busy) >= maximum
      ensures workers <= maximum ==> workers + Idle(page[..i], busy) <= maximum
    {
      i := 0;
      var taken := 0;
      while i < |page| && workers + taken < maximum
        invariant 0 <= i <= |page| && taken == Idle(page[..i], busy)
        invariant cursor == if i == 0 then old(cursor) else Some(page[i - 1])
        invariant workers <= maximum ==> workers + taken <= maximum
      {
        assert page[..i + 1][..i] == page[..i] && page[..i + 1][i] == page[i];
        cursor := Some(page[i]);
        if page[i] !in busy { taken := taken + 1; }
        i := i + 1;
      }
    }
  }

  /** How many of these keys take a worker. */
  function Idle(keys: seq<nat>, busy: set<nat>): nat {
    if keys == [] then 0 else Idle(keys[..|keys| - 1], busy) + if keys[|keys| - 1] in busy then 0 else 1
  }

  // ---------------------------------------------------------------- every key that stays due is reached

  ghost predicate Rounds(cursor: Option<nat>, rs: seq<Round>, limit: nat)
    decreases |rs|
  {
    rs == [] || (RoundOk(cursor, rs[0], limit) && Rounds(NextCursor(cursor, rs[0].page, rs[0].cut), rs[1..], limit))
  }

  /** A round in which some worker was free. */
  predicate Effective(r: Round) { r.page == [] || r.cut > 0 }

  function EffectiveRounds(rs: seq<Round>): nat {
    if rs == [] then 0 else (if Effective(rs[0]) then 1 else 0) + EffectiveRounds(rs[1..])
  }

  /** How many effective rounds a key below `bound` can still have to wait. */
  function Distance(cursor: Option<nat>, key: nat, bound: nat): int {
    if cursor.None? then key + 1
    else if cursor.value < key then key - cursor.value
    else bound - cursor.value + key + 1
  }

  predicate Reached(r: Round, key: nat) { r.cut <= |r.page| && key in r.page[..r.cut] }

  lemma RoundNears(cursor: Option<nat>, r: Round, limit: nat, key: nat, bound: nat)
    requires limit >= 1 && RoundOk(cursor, r, limit) && key in r.due && Effective(r) && !Reached(r, key)
    requires key < bound && (forall k :: k in r.due ==> k < bound) && (cursor.Some? ==> cursor.value < bound)
    ensures Distance(NextCursor(cursor, r.page, r.cut), key, bound) < Distance(cursor, key, bound)
    ensures NextCursor(cursor, r.page, r.cut).Some? ==> NextCursor(cursor, r.page, r.cut).value < bound
  {
    if r.page == [] {
      assert key in Above(r.due, cursor) <==> Beyond(cursor, key);
    } else {
      var last := r.page[r.cut - 1];
      assert last in Above(r.due, cursor);
      if Beyond(cursor, key) {
        assert key in Above(r.due, cursor);
        if key in r.page {
          var j :| 0 <= j < |r.page| && r.page[j] == key;
          assert forall k :: 0 <= k < r.cut ==> r.page[..r.cut][k] == r.page[k];
          assert j >= r.cut;
        }
      }
    }
  }

  /** A key that stays due is reached before that many effective rounds have passed, whatever else becomes due, however
      the pages are cut, and however often no worker is free in between. */
  lemma {:induction false} StaysDueIsReached(cursor: Option<nat>, rs: seq<Round>, limit: nat, key: nat, bound: nat)
    returns (i: nat)
    requires limit >= 1 && Rounds(cursor, rs, limit) && key < bound && (cursor.Some? ==> cursor.value < bound)
    requires forall j :: 0 <= j < |rs| ==> key in rs[j].due && forall k :: k in rs[j].due ==> k < bound
    requires EffectiveRounds(rs) >= Distance(cursor, key, bound)
    ensures i < |rs| && Reached(rs[i], key)
    decreases |rs|
  {
    if rs != [] && Reached(rs[0], key) {
      i := 0;
    } else {
      var next := NextCursor(cursor, rs[0].page, rs[0].cut);
      if Effective(rs[0]) { RoundNears(cursor, rs[0], limit, key, bound); }
      var j := StaysDueIsReached(next, rs[1..], limit, key, bound);
      i := j + 1;
    }
  }
}
