/** One namespace of quota-bounded memory (bounded_memory.py).

    Times are integers in seconds. The encoded size of a text and its lower-case form are functions of the text. */
module BoundedMemory {
  import opened Prelude

  datatype Entry = Entry(id: int, text: string, metadata: string, created: int, expires: Option<int>)

  datatype Bounds = Bounds(
    maxText: nat,
    maxMetadata: nat,
    maxResults: nat,
    maxTerms: nat,
    maxEntries: nat,
    maxBytes: nat,
    maxScan: nat,
    retention: Option<int>,
    sweep: nat,
    width: string -> nat,
    lower: string -> string)

  /** What the service's constructor demands of a profile. */
  predicate ValidBounds(b: Bounds) {
    && b.maxText >= 1 && b.maxMetadata >= 1 && b.maxResults >= 1 && b.maxEntries >= 1 && b.maxBytes >= 1 && b.sweep >= 1
    && b.maxEntries <= b.maxScan <= 10_000
    && (b.retention.Some? ==> 0 < b.retention.value <= 31_536_000)
  }

  datatype Quota = Quota(entries: int, bytes: int, next: int)

  /** The quota row, absent until the first write, and the entries in id order. */
  datatype Namespace = Namespace(quota: Option<Quota>, rows: seq<Entry>)

  const TOP: int := 0x7fff_ffff_ffff_ffff

  // ---------------------------------------------------------------- rows

  function Size(b: Bounds, e: Entry): nat { b.width(e.text) + b.width(e.metadata) }

  function Total(b: Bounds, rows: seq<Entry>): nat { if rows == [] then 0 else Size(b, rows[0]) + Total(b, rows[1..]) }

  predicate Ascending(rows: seq<Entry>) { forall i, j :: 0 <= i < j < |rows| ==> rows[i].id < rows[j].id }

  function Expiry(b: Bounds, created: int): Option<int> {
    if b.retention.Some? then Some(created + b.retention.value) else None
  }

  predicate EntryOk(b: Bounds, next: int, e: Entry) {
    0 < e.id < next && e.created > 0 && e.expires == Expiry(b, e.created) && b.width(e.text) <= b.maxText
    && b.width(e.metadata) <= b.maxMetadata
  }

  /** `DELETE ... WHERE memory_id = id`. */
  function Drop(rows: seq<Entry>, id: int): seq<Entry> {
    if rows == [] then [] else if rows[0].id == id then rows[1..] else [rows[0]] + Drop(rows[1..], id)
  }

  lemma {:induction false} DropTotal(b: Bounds, rows: seq<Entry>, e: Entry)
    requires Ascending(rows) && e in rows
    ensures |Drop(rows, e.id)| == |rows| - 1 && Total(b, Drop(rows, e.id)) == Total(b, rows) - Size(b, e)
    decreases |rows|
  {
    if rows[0].id == e.id {
      var i :| 0 <= i < |rows| && rows[i] == e;
    } else {
      DropTotal(b, rows[1..], e);
    }
  }

  lemma {:induction false} DropContents(rows: seq<Entry>, id: int, x: Entry)
    requires Ascending(rows)
    ensures x in Drop(rows, id) <==> x in rows && x.id != id
    decreases |rows|
  {
    if rows != [] {
      DropContents(rows[1..], id, x);
      assert x in rows <==> x == rows[0] || x in rows[1..];
      if x in rows[1..] { var j :| 0 <= j < |rows| - 1 && rows[1..][j] == x; }
    }
  }

  lemma {:induction false} DropAscends(rows: seq<Entry>, id: int)
    requires Ascending(rows)
    ensures Ascending(Drop(rows, id))
    decreases |rows|
  {
    if rows != [] {
      DropAscends(rows[1..], id);
      var rest := Drop(rows[1..], id);
      forall j | 0 <= j < |rest| ensures rows[0].id < rest[j].id { DropContents(rows[1..], id, rest[j]); }
    }
  }

  lemma DropMembers(rows: seq<Entry>, id: int)
    requires Ascending(rows)
    ensures forall x :: x in Drop(rows, id) <==> x in rows && x.id != id
    ensures Ascending(Drop(rows, id))
  {
    forall x ensures x in Drop(rows, id) <==> x in rows && x.id != id { DropContents(rows, id, x); }
    DropAscends(rows, id);
  }

  lemma {:induction false} TotalGrows(b: Bounds, rows: seq<Entry>, e: Entry)
    ensures Total(b, rows + [e]) == Total(b, rows) + Size(b, e)
    decreases |rows|
  {
    if rows == [] {
      assert rows + [e] == [e] && [e][1..] == [];
    } else {
      assert (rows + [e])[1..] == rows[1..] + [e];
      TotalGrows(b, rows[1..], e);
    }
  }

  // ---------------------------------------------------------------- the checks

  /** What `_quota` returns; a reader invents no row. */
  function QuotaOf(b: Bounds, ns: Namespace): Option<Quota> {
    match ns.quota
    case None => Some(Quota(0, 0, 1))
    case Some(q) =>
      if 0 <= q.entries <= b.maxEntries && 0 <= q.bytes <= b.maxBytes && 1 <= q.next < TOP then Some(q) else None
  }

  /** `_rows` accepts the table under this quota. */
  predicate RowsOk(b: Bounds, q: Quota, rows: seq<Entry>) {
    && |rows| == q.entries && |rows| <= b.maxScan
    && Total(b, rows) == q.bytes && Total(b, rows) <= b.maxBytes
    && forall i :: 0 <= i < |rows| ==> EntryOk(b, q.next, rows[i])
  }

  predicate Accepts(b: Bounds, ns: Namespace) {
    QuotaOf(b, ns).Some? && RowsOk(b, QuotaOf(b, ns).value, ns.rows)
  }

  // ---------------------------------------------------------------- calls

  datatype Op =
    | Add(text: string, metadata: string, now: int, current: bool)
    | Delete(id: int, current: bool)
    | PruneDue(now: int, current: bool)

  datatype Reply = Refused | Added(id: int) | Deleted(found: bool) | Pruned(count: nat)

  function Due(rows: seq<Entry>, now: int): seq<Entry> {
    if rows == [] then []
    else (if rows[0].expires.Some? && rows[0].expires.value <= now then [rows[0]] else []) + Due(rows[1..], now)
  }

  /** The expired entries that one sweep removes: the first few by id. */
  function Swept(b: Bounds, rows: seq<Entry>, now: int): seq<Entry> {
    if b.retention.None? then []
    else if |Due(rows, now)| <= b.sweep then Due(rows, now)
    else Due(rows, now)[..b.sweep]
  }

  function DropAll(rows: seq<Entry>, gone: seq<Entry>): seq<Entry>
    decreases |gone|
  {
    if gone == [] then rows else DropAll(Drop(rows, gone[0].id), gone[1..])
  }

  /** Entries and counters after removing these rows. */
  function Removed(b: Bounds, ns: Namespace, gone: seq<Entry>): Namespace {
    Namespace(if ns.quota.Some?
              then Some(ns.quota.value.(entries := ns.quota.value.entries - |gone|,
                                        bytes := ns.quota.value.bytes - Total(b, gone)))
              else None,
              DropAll(ns.rows, gone))
  }

  function Created(ns: Namespace): Namespace { if ns.quota.Some? then ns else ns.(quota := Some(Quota(0, 0, 1))) }

  function ApplyAdd(b: Bounds, ns: Namespace, text: string, metadata: string, now: int,
                    current: bool): (Namespace, Reply) {
    var made := Created(ns);
    if b.width(text) > b.maxText || b.width(metadata) > b.maxMetadata || !Accepts(b, made) then (ns, Refused)
    else
      var swept := Removed(b, made, Swept(b, made.rows, now));
      match QuotaOf(b, swept)
      case None => (ns, Refused)
      case Some(q) =>
        var e := Entry(q.next, text, metadata, now, Expiry(b, now));
        if q.entries >= b.maxEntries || q.bytes + Size(b, e) > b.maxBytes || !current then (ns, Refused)
        else (Namespace(Some(Quota(q.entries + 1, q.bytes + Size(b, e), q.next + 1)), swept.rows + [e]), Added(q.next))
  }

  function Find(rows: seq<Entry>, id: int): Option<Entry> {
    if rows == [] then None else if rows[0].id == id then Some(rows[0]) else Find(rows[1..], id)
  }

  function ApplyDelete(b: Bounds, ns: Namespace, id: int, current: bool): (Namespace, Reply) {
    var made := Created(ns);
    if !(0 < id <= TOP) || !Accepts(b, made) || !current then (ns, Refused)
    else
      match Find(made.rows, id)
      case None => (made, Deleted(false))
      case Some(e) => (Removed(b, made, [e]), Deleted(true))
  }

  function Apply(b: Bounds, ns: Namespace, op: Op): (Namespace, Reply) {
    match op
    case Add(text, metadata, now, current) => ApplyAdd(b, ns, text, metadata, now, current)
    case Delete(id, current) => ApplyDelete(b, ns, id, current)
    case PruneDue(now, current) =>
      if b.retention.None? || !Accepts(b, ns) || !current then (ns, Refused)
      else (Removed(b, ns, Swept(b, ns.rows, now)), Pruned(|Swept(b, ns.rows, now)|))
  }

  predicate Enabled(op: Op) { op.Add? ==> op.now > 0 }

  // ---------------------------------------------------------------- the invariant

  /** The counters mirror the table and respect the limits; ids lie below the next one. */
  predicate Mirrors(b: Bounds, ns: Namespace) {
    && Ascending(ns.rows)
    && match ns.quota
       case None => ns.rows == []
       case Some(q) => q.entries <= b.maxEntries && 1 <= q.next <= TOP && RowsOk(b, q, ns.rows)
  }

  lemma {:induction false} DueMembers(rows: seq<Entry>, now: int)
    requires Ascending(rows)
    ensures forall x :: x in Due(rows, now) <==> x in rows && x.expires.Some? && x.expires.value <= now
    ensures Ascending(Due(rows, now))
    decreases |rows|
  {
    if rows != [] {
      assert rows == [rows[0]] + rows[1..];
      DueMembers(rows[1..], now);
      var rest := Due(rows[1..], now);
      forall j | 0 <= j < |rest| ensures rows[0].id < rest[j].id { assert rest[j] in rows[1..]; }
    }
  }

  /** Some of the rows, in order. */
  ghost predicate Among(rows: seq<Entry>, gone: seq<Entry>) {
    Ascending(rows) && Ascending(gone) && forall i :: 0 <= i < |gone| ==> gone[i] in rows
  }

  lemma AmongRest(rows: seq<Entry>, gone: seq<Entry>)
    requires Among(rows, gone) && gone != []
    ensures Among(Drop(rows, gone[0].id), gone[1..])
  {
    DropMembers(rows, gone[0].id);
  }

  lemma {:induction false} DropAllTotals(b: Bounds, rows: seq<Entry>, gone: seq<Entry>)
    requires Among(rows, gone)
    ensures |DropAll(rows, gone)| == |rows| - |gone| && Total(b, DropAll(rows, gone)) == Total(b, rows) - Total(b, gone)
    decreases |gone|
  {
    if gone != [] {
      DropTotal(b, rows, gone[0]);
      AmongRest(rows, gone);
      DropAllTotals(b, Drop(rows, gone[0].id), gone[1..]);
    }
  }

  lemma {:induction false} DropAllMembers(rows: seq<Entry>, gone: seq<Entry>, x: Entry)
    requires Among(rows, gone)
    ensures x in DropAll(rows, gone) <==> x in rows && x !in gone
    ensures Ascending(DropAll(rows, gone))
    decreases |gone|
  {
    if gone != [] {
      AmongRest(rows, gone);
      DropMembers(rows, gone[0].id);
      DropAllMembers(Drop(rows, gone[0].id), gone[1..], x);
      assert x in gone <==> x == gone[0] || x in gone[1..];
      if x in rows && x.id == gone[0].id { SameId(rows, x, gone[0]); }
    }
  }

  lemma SameId(rows: seq<Entry>, x: Entry, y: Entry)
    requires Ascending(rows) && x in rows && y in rows && x.id == y.id
    ensures x == y
  {
    var i :| 0 <= i < |rows| && rows[i] == x;
    var j :| 0 <= j < |rows| && rows[j] == y;
  }

  lemma SweptAmong(b: Bounds, rows: seq<Entry>, now: int)
    requires Ascending(rows)
    ensures Among(rows, Swept(b, rows, now))
  {
    DueMembers(rows, now);
    var due := Due(rows, now);
    assert forall i :: 0 <= i < |due| ==> due[i] in rows;
  }

  lemma RemovedMirrors(b: Bounds, ns: Namespace, gone: seq<Entry>)
    requires Mirrors(b, ns) && Among(ns.rows, gone)
    ensures Mirrors(b, Removed(b, ns, gone))
    ensures (Removed(b, ns, gone).quota.Some? <==> ns.quota.Some?) && Total(b, gone) <= Total(b, ns.rows)
            && |gone| <= |ns.rows|
  {
    DropAllTotals(b, ns.rows, gone);
    var left := DropAll(ns.rows, gone);
    forall i | 0 <= i < |left| ensures left[i] in ns.rows { DropAllMembers(ns.rows, gone, left[i]); }
    if left != [] { DropAllMembers(ns.rows, gone, left[0]); }
  }

  lemma {:induction false} FindMember(rows: seq<Entry>, id: int)
    ensures Find(rows, id).Some? ==> Find(rows, id).value in rows && Find(rows, id).value.id == id
    ensures Find(rows, id).None? ==> forall i :: 0 <= i < |rows| ==> rows[i].id != id
    decreases |rows|
  {
    if rows != [] { FindMember(rows[1..], id); assert rows == [rows[0]] + rows[1..]; }
  }

  /** The new entry after a sweep. */
  lemma AddedMirrors(b: Bounds, ns: Namespace, e: Entry)
    requires Mirrors(b, ns) && ns.quota.Some? && ns.quota.value.next < TOP && EntryOk(b, ns.quota.value.next + 1, e)
    requires e.id == ns.quota.value.next && ns.quota.value.entries < b.maxEntries
             && ns.quota.value.bytes + Size(b, e) <= b.maxBytes
    requires b.maxEntries <= b.maxScan
    ensures
      var q := ns.quota.value;
      Mirrors(b, Namespace(Some(Quota(q.entries + 1, q.bytes + Size(b, e), q.next + 1)), ns.rows + [e]))
  {
    TotalGrows(b, ns.rows, e);
  }

  lemma ApplyMirrors(b: Bounds, ns: Namespace, op: Op)
    requires ValidBounds(b) && Mirrors(b, ns) && Enabled(op)
    ensures Mirrors(b, Apply(b, ns, op).0)
  {
    var made := Created(ns);
    match op {
      case Add(text, metadata, now, current) =>
        var gone := Swept(b, made.rows, now);
        SweptAmong(b, made.rows, now);
        RemovedMirrors(b, made, gone);
        var swept := Removed(b, made, gone);
        if Apply(b, ns, op).1.Added? {
          AddedMirrors(b, swept, Entry(swept.quota.value.next, text, metadata, now, Expiry(b, now)));
        }
      case Delete(id, current) =>
        FindMember(made.rows, id);
        if Find(made.rows, id).Some? {
          assert Among(made.rows, [Find(made.rows, id).value]);
          RemovedMirrors(b, made, [Find(made.rows, id).value]);
        }
      case PruneDue(now, _) =>
        SweptAmong(b, ns.rows, now);
        RemovedMirrors(b, ns, Swept(b, ns.rows, now));
    }
  }

  // ---------------------------------------------------------------- whole runs

  function Run(b: Bounds, ns: Namespace, ops: seq<Op>): Namespace
    decreases |ops|
  {
    if ops == [] then ns else Run(b, Apply(b, ns, ops[0]).0, ops[1..])
  }

  predicate Allowed(ops: seq<Op>) { forall i :: 0 <= i < |ops| ==> Enabled(ops[i]) }

  const EMPTY := Namespace(None, [])

  lemma {:induction false} RunMirrors(b: Bounds, ns: Namespace, ops: seq<Op>)
    requires ValidBounds(b) && Mirrors(b, ns) && Allowed(ops)
    ensures Mirrors(b, Run(b, ns, ops))
    decreases |ops|
  {
    if ops != [] {
      ApplyMirrors(b, ns, ops[0]);
      RunMirrors(b, Apply(b, ns, ops[0]).0, ops[1..]);
    }
  }

  function NextId(ns: Namespace): int { if ns.quota.Some? then ns.quota.value.next else 1 }

  /** In every reachable namespace the counters are the table's, and the service accepts it exactly until ids run
      out. */
  lemma CountersMirror(b: Bounds, ops: seq<Op>)
    requires ValidBounds(b) && Allowed(ops)
    ensures
      var ns := Run(b, EMPTY, ops);
      && (ns.quota.Some? ==> ns.quota.value.entries == |ns.rows| && ns.quota.value.bytes == Total(b, ns.rows))
      && |ns.rows| <= b.maxEntries && Total(b, ns.rows) <= b.maxBytes
      && (Accepts(b, ns) <==> NextId(ns) < TOP)
  {
    RunMirrors(b, EMPTY, ops);
  }

  /** Ids only go up, so none is used twice. */
  lemma {:induction false} IdsNeverReused(b: Bounds, ns: Namespace, op: Op, ops: seq<Op>, again: Op)
    requires ValidBounds(b) && Mirrors(b, ns) && Enabled(op) && Allowed(ops) && Enabled(again)
    requires Apply(b, ns, op).1.Added? && Apply(b, Run(b, Apply(b, ns, op).0, ops), again).1.Added?
    ensures Apply(b, ns, op).1.id < Apply(b, Run(b, Apply(b, ns, op).0, ops), again).1.id
  {
    NextAscends(b, Apply(b, ns, op).0, ops);
  }

  lemma {:induction false} NextAscends(b: Bounds, ns: Namespace, ops: seq<Op>)
    ensures NextId(ns) <= NextId(Run(b, ns, ops))
    decreases |ops|
  {
    if ops != [] { NextAscends(b, Apply(b, ns, ops[0]).0, ops[1..]); }
  }

  /** Once the last id below 2^63 - 1 is used, every call is refused for good. */
  lemma IdsRunOut(b: Bounds, ns: Namespace, op: Op)
    requires Mirrors(b, ns) && NextId(ns) == TOP
    ensures Apply(b, ns, op) == (ns, Refused)
  {
  }

  lemma {:induction false} RunJoins(b: Bounds, ns: Namespace, p: seq<Op>, q: seq<Op>)
    ensures Run(b, ns, p + q) == Run(b, Run(b, ns, p), q)
    decreases |p|
  {
    if p == [] {
      assert p + q == q;
    } else {
      assert (p + q)[1..] == p[1..] + q;
      RunJoins(b, Apply(b, ns, p[0]).0, p[1..], q);
    }
  }

  /** A text and metadata that an empty namespace has room for. */
  predicate Fits(b: Bounds, text: string, metadata: string) {
    b.width(text) <= b.maxText && b.width(metadata) <= b.maxMetadata && b.width(text) + b.width(metadata) <= b.maxBytes
  }

  lemma OneAdded(b: Bounds, ns: Namespace, text: string, metadata: string)
    requires ValidBounds(b) && Mirrors(b, ns) && ns.rows == [] && NextId(ns) < TOP && Fits(b, text, metadata)
    ensures
      var (u, reply) := Apply(b, ns, Add(text, metadata, 1, true));
      u.rows == [Entry(NextId(ns), text, metadata, 1, Expiry(b, 1))] && reply == Added(NextId(ns))
      && NextId(u) == NextId(ns) + 1
  {
    assert Due([], 1) == [] && DropAll([], []) == [];
  }

  lemma OneDeleted(b: Bounds, ns: Namespace, e: Entry)
    requires Mirrors(b, ns) && ns.rows == [e] && NextId(ns) < TOP
    ensures
      var u := Apply(b, ns, Delete(e.id, true)).0;
      u.rows == [] && NextId(u) == NextId(ns)
  {
    assert Find([e], e.id) == Some(e) && Drop([e], e.id) == [];
    assert DropAll([e], [e]) == DropAll(Drop([e], e.id), [e][1..]);
  }

  /** Adding such an entry and deleting it again uses up one id. */
  lemma OneIdUsed(b: Bounds, ns: Namespace, text: string, metadata: string)
    requires ValidBounds(b) && Mirrors(b, ns) && ns.rows == [] && NextId(ns) + 1 < TOP && Fits(b, text, metadata)
    ensures
      var u := Run(b, ns, [Add(text, metadata, 1, true), Delete(NextId(ns), true)]);
      u.rows == [] && NextId(u) == NextId(ns) + 1
  {
    var add, delete := Add(text, metadata, 1, true), Delete(NextId(ns), true);
    OneAdded(b, ns, text, metadata);
    ApplyMirrors(b, ns, add);
    var m := Apply(b, ns, add).0;
    OneDeleted(b, m, m.rows[0]);
    RunTwo(b, ns, add, delete);
  }

  lemma RunTwo(b: Bounds, ns: Namespace, first: Op, second: Op)
    ensures Run(b, ns, [first, second]) == Apply(b, Apply(b, ns, first).0, second).0
  {
    assert [first, second][1..] == [second] && [second][1..] == [];
    var m := Apply(b, ns, first).0;
    assert Run(b, ns, [first, second]) == Run(b, m, [second]);
    assert Run(b, m, [second]) == Run(b, Apply(b, m, second).0, []);
  }

  /** So there are runs that reach any next id. */
  lemma {:induction false} AnyIdReached(b: Bounds, text: string, metadata: string, n: int) returns (ops: seq<Op>)
    requires ValidBounds(b) && Fits(b, text, metadata) && 1 <= n < TOP
    ensures Allowed(ops) && Run(b, EMPTY, ops).rows == [] && NextId(Run(b, EMPTY, ops)) == n
    decreases n
  {
    if n == 1 {
      ops := [];
    } else {
      var before := AnyIdReached(b, text, metadata, n - 1);
      var ns := Run(b, EMPTY, before);
      RunMirrors(b, EMPTY, before);
      OneIdUsed(b, ns, text, metadata);
      var two := [Add(text, metadata, 1, true), Delete(NextId(ns), true)];
      RunJoins(b, EMPTY, before, two);
      ops := before + two;
    }
  }

  /** The refusal of `IdsRunOut` is reached by a run of adds and deletes alone: acceptance is not kept for ever. */
  lemma ExhaustionReached(b: Bounds, text: string, metadata: string) returns (ops: seq<Op>)
    requires ValidBounds(b) && Fits(b, text, metadata)
    ensures Allowed(ops) && NextId(Run(b, EMPTY, ops)) == TOP && !Accepts(b, Run(b, EMPTY, ops))
  {
    var before := AnyIdReached(b, text, metadata, TOP - 1);
    var ns := Run(b, EMPTY, before);
    RunMirrors(b, EMPTY, before);
    OneAdded(b, ns, text, metadata);
    var last := Add(text, metadata, 1, true);
    RunJoins(b, EMPTY, before, [last]);
    assert Run(b, ns, [last]) == Run(b, Apply(b, ns, last).0, [last][1..]);
    ops := before + [last];
  }

  /** An add is admitted exactly when its entry fits beside what the sweep leaves. */
  lemma AddExact(b: Bounds, ns: Namespace, text: string, metadata: string, now: int)
    requires ValidBounds(b) && Mirrors(b, ns) && NextId(ns) < TOP
    requires b.width(text) <= b.maxText && b.width(metadata) <= b.maxMetadata
    ensures
      var gone := Swept(b, ns.rows, now);
      Apply(b, ns, Add(text, metadata, now, true)).1 ==
      if |ns.rows| - |gone| < b.maxEntries
         && Total(b, ns.rows) - Total(b, gone) + b.width(text) + b.width(metadata) <= b.maxBytes
      then Added(NextId(ns)) else Refused
  {
    var made := Created(ns);
    SweptAmong(b, made.rows, now);
    RemovedMirrors(b, made, Swept(b, made.rows, now));
    DropAllTotals(b, made.rows, Swept(b, made.rows, now));
  }

  /** The first `n` of an ordered list are those with the lowest ids. */
  lemma LowestFirst(due: seq<Entry>, n: nat, x: Entry, y: Entry)
    requires Ascending(due) && n < |due| && x in due && x !in due[..n] && y in due[..n]
    ensures y.id < x.id
  {
    assert forall k :: 0 <= k < n ==> due[..n][k] == due[k];
    var i :| 0 <= i < |due| && due[i] == x;
    var j :| 0 <= j < n && due[..n][j] == y;
  }

  /** A sweep removes expired entries only, the lowest ids first, and leaves one behind only at its limit. */
  lemma SweepRemovesExpired(b: Bounds, rows: seq<Entry>, now: int, x: Entry, y: Entry)
    requires Ascending(rows) && b.retention.Some? && x in rows
    ensures
      var gone := Swept(b, rows, now);
      && (x in DropAll(rows, gone) <==> x !in gone)
      && (x in gone ==> x.expires.Some? && x.expires.value <= now)
      && (x !in gone && x.expires.Some? && x.expires.value <= now ==> |gone| == b.sweep && (y in gone ==> y.id < x.id))
  {
    var due, gone := Due(rows, now), Swept(b, rows, now);
    DueMembers(rows, now);
    SweptAmong(b, rows, now);
    DropAllMembers(rows, gone, x);
    assert forall z :: z in gone ==> z in due;
    if x in due && x !in gone && y in gone { LowestFirst(due, b.sweep, x, y); }
  }

  // ---------------------------------------------------------------- search

  predicate OccursAt(term: string, text: string, i: nat) { i + |term| <= |text| && text[i..i + |term|] == term }

  predicate Within(term: string, text: string) { exists i: nat :: i <= |text| && OccursAt(term, text, i) }

  function Score(b: Bounds, terms: set<string>, e: Entry): nat {
    |set t | t in terms && Within(t, b.lower(e.text))|
  }

  predicate LiveAt(e: Entry, now: int) { e.expires.None? || e.expires.value > now }

  predicate Relevant(b: Bounds, terms: set<string>, e: Entry) {
    terms == {} || exists t :: t in terms && Within(t, b.lower(e.text))
  }

  /** Higher score first, then older, then lower id. */
  predicate Precedes(b: Bounds, terms: set<string>, x: Entry, y: Entry) {
    var s, t := Score(b, terms, x), Score(b, terms, y);
    s > t || (s == t && (x.created < y.created || (x.created == y.created && x.id < y.id)))
  }

  predicate Ranked(b: Bounds, terms: set<string>, rows: seq<Entry>) {
    forall i, j :: 0 <= i < j < |rows| ==> Precedes(b, terms, rows[i], rows[j])
  }

  /** Candidates: live entries that match. */
  predicate Candidate(b: Bounds, terms: set<string>, rows: seq<Entry>, now: int, e: Entry) {
    e in rows && LiveAt(e, now) && Relevant(b, terms, e)
  }

  /** The best `limit` candidates, in rank order. */
  ghost predicate IsTop(b: Bounds, terms: set<string>, rows: seq<Entry>, now: int, limit: nat, found: seq<Entry>) {
    && Ranked(b, terms, found) && |found| <= limit
    && (forall i :: 0 <= i < |found| ==> Candidate(b, terms, rows, now, found[i]))
    && forall e :: Candidate(b, terms, rows, now, e) && e !in found ==>
         |found| == limit && forall i :: 0 <= i < |found| ==> Precedes(b, terms, found[i], e)
  }

  /** Where an entry goes in a ranked list. */
  function Place(b: Bounds, terms: set<string>, rows: seq<Entry>, e: Entry): seq<Entry>
    decreases |rows|
  {
    if rows == [] || Precedes(b, terms, e, rows[0]) then [e] + rows else [rows[0]] + Place(b, terms, rows[1..], e)
  }

  /** Two entries with different ids are ordered one way or the other. */
  lemma {:induction false} PlaceRanks(b: Bounds, terms: set<string>, rows: seq<Entry>, e: Entry)
    requires Ranked(b, terms, rows) && forall i :: 0 <= i < |rows| ==> rows[i].id != e.id
    ensures Ranked(b, terms, Place(b, terms, rows, e))
    ensures forall x :: x in Place(b, terms, rows, e) <==> x in rows || x == e
    decreases |rows|
  {
    if rows != [] && !Precedes(b, terms, e, rows[0]) {
      PlaceRanks(b, terms, rows[1..], e);
      var rest := Place(b, terms, rows[1..], e);
      assert rows == [rows[0]] + rows[1..];
      forall j | 0 <= j < |rest| ensures Precedes(b, terms, rows[0], rest[j]) {
        assert rest[j] in rows[1..] || rest[j] == e;
      }
    } else if rows != [] {
      forall j | 0 <= j < |rows| ensures Precedes(b, terms, e, rows[j]) {
        if j > 0 { assert Precedes(b, terms, rows[0], rows[j]); }
      }
    }
  }

  // ---------------------------------------------------------------- the service

  class BoundedMemoryService {
    const b: Bounds
    var quota: Option<Quota>
    var rows: seq<Entry>

    function Stored(): Namespace reads this { Namespace(quota, rows) }

    constructor (b: Bounds)
      requires ValidBounds(b)
      ensures this.b == b && Stored() == EMPTY
    {
      this.b, quota, rows := b, None, [];
    }

    /** Deletes the entries one by one, keeping the counters in step. */
    method Remove(gone: seq<Entry>)
      requires quota.Some?
      modifies this
      ensures Stored() == Removed(b, old(Stored()), gone)
    {
      var i := 0;
      ghost var q := quota.value;
      while i < |gone|
        invariant 0 <= i <= |gone| && quota.Some?
        invariant DropAll(old(rows), gone) == DropAll(rows, gone[i..])
        invariant quota.value.next == q.next && quota.value.entries == q.entries - i
        invariant quota.value.bytes - Total(b, gone[i..]) == q.bytes - Total(b, gone)
      {
        var e := gone[i];
        assert gone[i..][1..] == gone[i + 1..];
        rows := Drop(rows, e.id);
        quota := Some(quota.value.(entries := quota.value.entries - 1, bytes := quota.value.bytes - Size(b, e)));
        i := i + 1;
      }
    }

    method AddEntry(text: string, metadata: string, now: int, current: bool) returns (r: Reply)
      modifies this
      ensures (Stored(), r) == Apply(b, old(Stored()), Add(text, metadata, now, current))
    {
      if b.width(text) > b.maxText || b.width(metadata) > b.maxMetadata { return Refused; }
      var oldQuota, oldRows := quota, rows;
      if quota.None? { quota := Some(Quota(0, 0, 1)); }
      if !Accepts(b, Stored()) {
        quota := oldQuota;
        return Refused;
      }
      Remove(Swept(b, rows, now));
      var q := QuotaOf(b, Stored());
      if q.None? {
        quota, rows := oldQuota, oldRows;
        return Refused;
      }
      var e := Entry(q.value.next, text, metadata, now, Expiry(b, now));
      if q.value.entries >= b.maxEntries || q.value.bytes + Size(b, e) > b.maxBytes || !current {
        quota, rows := oldQuota, oldRows;
        return Refused;
      }
      rows := rows + [e];
      quota := Some(Quota(q.value.entries + 1, q.value.bytes + Size(b, e), q.value.next + 1));
      return Added(e.id);
    }

    method DeleteEntry(id: int, current: bool) returns (r: Reply)
      modifies this
      ensures (Stored(), r) == Apply(b, old(Stored()), Delete(id, current))
    {
      if !(0 < id <= TOP) || !current { return Refused; }
      var oldQuota := quota;
      if quota.None? { quota := Some(Quota(0, 0, 1)); }
      if !Accepts(b, Stored()) {
        quota := oldQuota;
        return Refused;
      }
      var matched := Find(rows, id);
      if matched.Some? { Remove([matched.value]); }
      return Deleted(matched.Some?);
    }

    method PruneExpired(now: int, current: bool) returns (r: Reply)
      modifies this
      ensures (Stored(), r) == Apply(b, old(Stored()), PruneDue(now, current))
    {
      if b.retention.None? || !Accepts(b, Stored()) || !current { return Refused; }
      var gone := Swept(b, rows, now);
      if quota.Some? {
        Remove(gone);
      } else {
        assert rows == [] && gone == [];
      }
      return Pruned(|gone|);
    }

    /** Ranks the live entries, keeps those that match and returns the first few. */
    method Search(terms: set<string>, limit: int, now: int, current: bool) returns (r: Option<seq<Entry>>)
      requires Ascending(rows)
      ensures r.None? <==> |terms| > b.maxTerms || !(1 <= limit <= b.maxResults) || !Accepts(b, Stored()) || !current
      ensures r.Some? ==> IsTop(b, terms, rows, now, limit, r.value)
    {
      if |terms| > b.maxTerms || !(1 <= limit <= b.maxResults) || !Accepts(b, Stored()) || !current { return None; }
      var ranked: seq<Entry> := [];
      var i := 0;
      while i < |rows|
        invariant 0 <= i <= |rows| && Ranked(b, terms, ranked)
        invariant forall x :: x in ranked <==> x in rows[..i] && LiveAt(x, now)
      {
        assert rows[..i + 1] == rows[..i] + [rows[i]];
        if LiveAt(rows[i], now) {
          forall j | 0 <= j < |ranked| ensures ranked[j].id != rows[i].id { assert ranked[j] in rows[..i]; }
          PlaceRanks(b, terms, ranked, rows[i]);
          ranked := Place(b, terms, ranked, rows[i]);
        }
        i := i + 1;
      }
      assert rows[..i] == rows;
      var found: seq<Entry> := [];
      i := 0;
      while i < |ranked|
        invariant 0 <= i <= |ranked| && Ranked(b, terms, found)
        invariant forall x :: x in found <==> x in ranked[..i] && Relevant(b, terms, x)
        invariant forall j, k :: 0 <= j < |found| && i <= k < |ranked| ==> Precedes(b, terms, found[j], ranked[k])
      {
        assert ranked[..i + 1] == ranked[..i] + [ranked[i]];
        if Relevant(b, terms, ranked[i]) { found := found + [ranked[i]]; }
        i := i + 1;
      }
      assert ranked[..i] == ranked;
      FirstFew(b, terms, rows, now, limit, found);
      return Some(if |found| <= limit then found else found[..limit]);
    }
  }

  lemma FirstFew(b: Bounds, terms: set<string>, rows: seq<Entry>, now: int, limit: nat, found: seq<Entry>)
    requires Ranked(b, terms, found) && forall x :: x in found <==> Candidate(b, terms, rows, now, x)
    ensures IsTop(b, terms, rows, now, limit, if |found| <= limit then found else found[..limit])
  {
    if |found| > limit {
      var top := found[..limit];
      assert forall k :: 0 <= k < limit ==> top[k] == found[k];
      forall e | Candidate(b, terms, rows, now, e) && e !in top
        ensures forall i :: 0 <= i < |top| ==> Precedes(b, terms, top[i], e)
      {
        var k :| 0 <= k < |found| && found[k] == e;
      }
      forall i | 0 <= i < |top| ensures Candidate(b, terms, rows, now, top[i]) { assert found[i] in found; }
    }
  }
}
