/** Keyset pagination: `WHERE key > cursor ORDER BY key LIMIT n` over a set of keys. */
module Paging {
  import opened Prelude

  predicate Beyond(after: Option<nat>, k: nat) { after.None? || after.value < k }

  function Above(keys: set<nat>, after: Option<nat>): set<nat> {
    set k | k in keys && Beyond(after, k)
  }

  /** The first `limit` of `keys`, in order. */
  predicate IsPage(keys: set<nat>, limit: nat, page: seq<nat>) {
    && |page| <= limit
    && (forall i, j :: 0 <= i < j < |page| ==> page[i] < page[j])
    && (forall i :: 0 <= i < |page| ==> page[i] in keys)
    && (forall k :: k in keys && k !in page ==> |page| == limit && forall i :: 0 <= i < |page| ==> page[i] < k)
  }

  method Least(keys: set<nat>) returns (least: nat)
    requires keys != {}
    ensures least in keys && forall k :: k in keys ==> least <= k
  {
    least :| least in keys;
    var rest := keys - {least};
    while rest != {}
      invariant least in keys && rest <= keys
      invariant forall k :: k in keys && k !in rest ==> least <= k
      decreases |rest|
    {
      var k :| k in rest;
      if k < least { least := k; }
      rest := rest - {k};
    }
  }

  /** The ordered, limited query. */
  method SelectPage(keys: set<nat>, limit: nat) returns (page: seq<nat>)
    ensures IsPage(keys, limit, page)
  {
    page := [];
    var rest := keys;
    while rest != {} && |page| < limit
      invariant |page| <= limit
      invariant forall k :: k in keys <==> k in rest || k in page
      invariant forall i, j :: 0 <= i < j < |page| ==> page[i] < page[j]
      invariant forall i, k :: 0 <= i < |page| && k in rest ==> page[i] < k
      decreases |rest|
    {
      var least := Least(rest);
      page := page + [least];
      rest := rest - {least};
    }
  }

  lemma {:induction false} Subset<T>(a: set<T>, b: set<T>)
    requires a <= b
    ensures |a| <= |b|
    decreases |a|
  {
    if a != {} {
      var x :| x in a;
      Subset(a - {x}, b - {x});
    }
  }

  predicate Ascending(page: seq<nat>) {
    forall i, j :: 0 <= i < j < |page| ==> page[i] < page[j]
  }

  /** `all` lists in order the keys up to the cursor. */
  ghost predicate ReadTo(keys: set<nat>, cursor: Option<nat>, all: seq<nat>) {
    && Ascending(all)
    && cursor == (if all == [] then None else Some(all[|all| - 1]))
    && forall k :: k in keys && !Beyond(cursor, k) <==> k in all
  }

  lemma PageShrinks(keys: set<nat>, cursor: Option<nat>, limit: nat, page: seq<nat>)
    requires IsPage(Above(keys, cursor), limit, page) && page != []
    ensures |Above(keys, Some(page[|page| - 1]))| < |Above(keys, cursor)|
  {
    var last := page[|page| - 1];
    assert last in Above(keys, cursor);
    Subset(Above(keys, Some(last)), Above(keys, cursor) - {last});
  }

  lemma PageCovers(keys: set<nat>, cursor: Option<nat>, all: seq<nat>, limit: nat, page: seq<nat>, k: nat)
    requires ReadTo(keys, cursor, all) && IsPage(Above(keys, cursor), limit, page) && page != []
    ensures k in keys && !Beyond(Some(page[|page| - 1]), k) <==> k in all || k in page
  {
    var last := page[|page| - 1];
    assert last in Above(keys, cursor);
    assert forall i :: 0 <= i < |page| ==> page[i] in Above(keys, cursor) && page[i] <= last;
    assert k in keys && Beyond(cursor, k) ==> k in Above(keys, cursor);
    assert k in keys && !Beyond(cursor, k) <==> k in all;
  }

  lemma NextPage(keys: set<nat>, cursor: Option<nat>, all: seq<nat>, limit: nat, page: seq<nat>)
    requires ReadTo(keys, cursor, all) && IsPage(Above(keys, cursor), limit, page) && page != []
    ensures ReadTo(keys, Some(page[|page| - 1]), all + page)
    ensures |Above(keys, Some(page[|page| - 1]))| < |Above(keys, cursor)|
  {
    PageShrinks(keys, cursor, limit, page);
    forall k ensures k in keys && !Beyond(Some(page[|page| - 1]), k) <==> k in all + page {
      PageCovers(keys, cursor, all, limit, page, k);
    }
    assert forall i :: 0 <= i < |page| ==> page[i] in Above(keys, cursor);
    assert all != [] ==> all[|all| - 1] in all;
  }

  /** Reading page after page from the start visits every key once, in order. */
  method ReadAll(keys: set<nat>, limit: nat) returns (all: seq<nat>)
    requires limit >= 1
    ensures Ascending(all) && forall k :: k in keys <==> k in all
  {
    all := [];
    var cursor: Option<nat> := None;
    var page := SelectPage(Above(keys, cursor), limit);
    while page != []
      invariant IsPage(Above(keys, cursor), limit, page) && ReadTo(keys, cursor, all)
      decreases |Above(keys, cursor)|
    {
      NextPage(keys, cursor, all, limit, page);
      cursor := Some(page[|page| - 1]);
      all := all + page;
      page := SelectPage(Above(keys, cursor), limit);
    }
    forall k | k in keys ensures k in all {
      assert k in Above(keys, cursor) <==> Beyond(cursor, k);
    }
  }
}
