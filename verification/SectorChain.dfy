/** The framing of a rollback journal: segments that each start on a sector boundary, with zero padding
    between them. Generic in the segments, of which only a codec is known. */
module SectorChain {
  import opened Prelude

  /** Bytes by their values. Words are read only from values between 0 and 255. */
  type Bytes = seq<int>

  function Zeros(n: nat): Bytes { seq(n, _ => 0) }

  predicate AllZero(b: Bytes) {
    forall i :: 0 <= i < |b| ==> b[i] == 0
  }

  lemma ZerosAre(b: Bytes)
    requires AllZero(b)
    ensures b == Zeros(|b|)
  {
  }

  lemma Join3(b: Bytes, i: nat, j: nat)
    requires i <= j <= |b|
    ensures b[..i] + b[i..j] + b[j..] == b
  {
  }

  /** The next sector boundary: the least multiple of the sector size that is not below `n`. */
  function AlignUp(n: int, sector: nat): (m: nat)
    requires 0 < sector && 0 < n + sector
    ensures n <= m < n + sector
    decreases if n > 0 then n else 0
  {
    if n <= 0 then 0 else sector + AlignUp(n - sector, sector)
  }

  lemma DivideStep(n: nat, d: nat)
    requires d > 0
    ensures (n + d) / d == n / d + 1
  {
    var q, r := n / d, n % d;
    assert n + d == (q + 1) * d + r;
    QuotientUnique(n + d, d, q + 1, r);
  }

  lemma QuotientUnique(n: nat, d: nat, q: nat, r: nat)
    requires d > 0 && n == q * d + r && r < d
    ensures n / d == q
  {
    var k := n / d;
    assert n == k * d + n % d;
    assert (q - k) * d == q * d - k * d;
    assert (k - q) * d == k * d - q * d;
    if q - k >= 1 { Dominates(q - k, d); }
    if k - q >= 1 { Dominates(k - q, d); }
  }

  lemma Dominates(k: nat, d: nat)
    requires k >= 1
    ensures k * d >= d
  {
  }

  /** The boundary as the parser computes it. */
  lemma {:induction false} AlignUpRounds(n: nat, sector: nat)
    requires sector > 0
    ensures (n + sector - 1) / sector * sector == AlignUp(n, sector)
  {
    if n == 0 {
      QuotientUnique(sector - 1, sector, 0, sector - 1);
    } else if n <= sector {
      QuotientUnique(n + sector - 1, sector, 1, n - 1);
      assert AlignUp(n - sector, sector) == 0;
    } else {
      AlignUpRounds(n - sector, sector);
      DivideStep(n - 1, sector);
      var k := (n - 1) / sector;
      assert (k + 1) * sector == k * sector + sector;
    }
  }

  method AlignTo(n: nat, sector: nat) returns (m: nat)
    requires sector > 0
    ensures m == AlignUp(n, sector)
  {
    AlignUpRounds(n, sector);
    m := (n + sector - 1) / sector * sector;
  }

  /** How one segment is written and read, and how far a segment at a given file offset is from the next. */
  datatype Codec<!S> = Codec(valid: S -> bool, encode: S -> Bytes, stride: (nat, S) -> nat, parse: Bytes -> Option<S>)

  /** The next segment starts past this one. */
  predicate Advances<S>(c: Codec<S>, offset: nat, s: S) {
    c.valid(s) ==> c.stride(offset, s) >= |c.encode(s)| > 0
  }

  /** What is read from `b` is valid, and is what `b` starts with. */
  predicate ReadsPrefix<S>(c: Codec<S>, b: Bytes) {
    c.parse(b).Some? ==> c.valid(c.parse(b).value) && c.encode(c.parse(b).value) <= b
  }

  /** A valid segment is read from any bytes that start with its encoding. */
  predicate ReadsBack<S(==)>(c: Codec<S>, s: S, after: Bytes) {
    c.valid(s) ==> c.parse(c.encode(s) + after) == Some(s)
  }

  ghost predicate Lawful<S(!new)>(c: Codec<S>) {
    && (forall offset, s :: Advances(c, offset, s))
    && (forall b :: ReadsPrefix(c, b))
    && (forall s, after :: ReadsBack(c, s, after))
  }

  /** One or more segments. Every segment but the last is padded up to the next one, and the last one is
      followed by `tail` of those padding bytes. */
  datatype Journal<S> = Last(segment: S, tail: nat) | Then(segment: S, more: Journal<S>)

  /** The padding after a segment at file offset `offset`, up to the next one. */
  function Gap<S>(c: Codec<S>, offset: nat, s: S): nat {
    var n := c.stride(offset, s) - |c.encode(s)|;
    if n >= 0 then n else 0
  }

  predicate Valid<S>(c: Codec<S>, offset: nat, j: Journal<S>)
    decreases j
  {
    && c.valid(j.segment)
    && match j
       case Last(s, tail) => tail <= Gap(c, offset, s)
       case Then(s, more) => Valid(c, offset + c.stride(offset, s), more)
  }

  /** The bytes of a journal whose first header lies at file offset `offset`. */
  function Encode<S>(c: Codec<S>, offset: nat, j: Journal<S>): (b: Bytes)
    ensures c.encode(j.segment) <= b
    decreases j
  {
    match j
    case Last(s, tail) => c.encode(s) + Zeros(tail)
    case Then(s, more) => c.encode(s) + (Zeros(Gap(c, offset, s)) + Encode(c, offset + c.stride(offset, s), more))
  }

  /** The journal read from the bytes `rest` found at file offset `offset`, if they are such a chain. */
  function Decode<S>(c: Codec<S>, offset: nat, rest: Bytes): Option<Journal<S>>
    decreases |rest|
  {
    match c.parse(rest)
    case None => None
    case Some(s) =>
      var end, next := |c.encode(s)|, c.stride(offset, s);
      if !(0 < end <= next && end <= |rest|) then None
      else if next >= |rest| then
        if AllZero(rest[end..]) then Some(Last(s, |rest| - end)) else None
      else if !AllZero(rest[end..next]) then None
      else
        match Decode(c, offset + next, rest[next..])
        case None => None
        case Some(more) => Some(Then(s, more))
  }

  lemma EncodeStep<S>(c: Codec<S>, offset: nat, s: S, rest: Bytes, more: Journal<S>)
    requires c.encode(s) <= rest
    requires
      var end, next := |c.encode(s)|, c.stride(offset, s);
      end <= next <= |rest| && AllZero(rest[end..next]) && Encode(c, offset + next, more) == rest[next..]
    ensures Encode(c, offset, Then(s, more)) == rest
  {
    var end, next := |c.encode(s)|, c.stride(offset, s);
    ZerosAre(rest[end..next]);
    assert rest[..end] == c.encode(s);
    Join3(rest, end, next);
  }

  lemma EncodeLast<S>(c: Codec<S>, offset: nat, s: S, rest: Bytes)
    requires c.encode(s) <= rest && AllZero(rest[|c.encode(s)|..])
    ensures Encode(c, offset, Last(s, |rest| - |c.encode(s)|)) == rest
  {
    ZerosAre(rest[|c.encode(s)|..]);
  }

  /** Whatever is read is a valid journal, and the bytes are exactly its encoding. */
  lemma {:induction false} DecodeSound<S(!new)>(c: Codec<S>, offset: nat, rest: Bytes)
    requires Lawful(c) && Decode(c, offset, rest).Some?
    ensures Valid(c, offset, Decode(c, offset, rest).value)
    ensures Encode(c, offset, Decode(c, offset, rest).value) == rest
    decreases |rest|
  {
    assert ReadsPrefix(c, rest);
    var s := c.parse(rest).value;
    var next := c.stride(offset, s);
    if next >= |rest| {
      EncodeLast(c, offset, s, rest);
    } else {
      var more := Decode(c, offset + next, rest[next..]);
      assert Decode(c, offset, rest) == Some(Then(s, more.value));
      DecodeSound(c, offset + next, rest[next..]);
      EncodeStep(c, offset, s, rest, more.value);
    }
  }

  /** Reading one segment off the front of a longer chain. */
  lemma DecodeStep<S>(c: Codec<S>, offset: nat, s: S, bytes: Bytes, rest: Bytes, more: Journal<S>)
    requires rest != [] && c.stride(offset, s) >= |c.encode(s)| > 0
    requires bytes == c.encode(s) + (Zeros(Gap(c, offset, s)) + rest) && c.parse(bytes) == Some(s)
    requires Decode(c, offset + c.stride(offset, s), rest) == Some(more)
    ensures Decode(c, offset, bytes) == Some(Then(s, more))
  {
    var end, next := |c.encode(s)|, c.stride(offset, s);
    assert bytes[end..next] == Zeros(next - end);
    assert bytes[next..] == rest;
  }

  lemma DecodeLast<S>(c: Codec<S>, offset: nat, s: S, tail: nat)
    requires c.stride(offset, s) >= |c.encode(s)| > 0 && tail <= Gap(c, offset, s)
    requires c.parse(c.encode(s) + Zeros(tail)) == Some(s)
    ensures Decode(c, offset, c.encode(s) + Zeros(tail)) == Some(Last(s, tail))
  {
    var bytes := c.encode(s) + Zeros(tail);
    assert bytes[|c.encode(s)|..] == Zeros(tail);
  }

  /** Every valid journal is read back from its encoding. */
  lemma {:induction false} DecodeComplete<S(!new)>(c: Codec<S>, offset: nat, j: Journal<S>)
    requires Lawful(c) && Valid(c, offset, j)
    ensures Decode(c, offset, Encode(c, offset, j)) == Some(j)
    decreases j
  {
    match j {
      case Last(s, tail) =>
        assert Advances(c, offset, s) && ReadsBack(c, s, Zeros(tail));
        DecodeLast(c, offset, s, tail);
      case Then(s, more) =>
        var next := offset + c.stride(offset, s);
        DecodeComplete(c, next, more);
        assert Advances(c, offset, s) && Advances(c, next, more.segment);
        assert ReadsBack(c, s, Zeros(Gap(c, offset, s)) + Encode(c, next, more));
        DecodeStep(c, offset, s, Encode(c, offset, j), Encode(c, next, more), more);
    }
  }

  /** One turn of reading the chain. */
  lemma DecodeTurn<S>(c: Codec<S>, offset: nat, rest: Bytes, s: S)
    requires c.parse(rest) == Some(s) && c.valid(s) && Advances(c, offset, s) && |c.encode(s)| <= |rest|
    ensures
      var end, next := |c.encode(s)|, c.stride(offset, s);
      Decode(c, offset, rest).Some? <==>
        if next >= |rest| then AllZero(rest[end..])
        else AllZero(rest[end..next]) && Decode(c, offset + next, rest[next..]).Some?
  {
  }

  method IsZero(b: Bytes) returns (ok: bool)
    ensures ok <==> AllZero(b)
  {
    for i := 0 to |b|
      invariant forall j :: 0 <= j < i ==> b[j] == 0
    {
      if b[i] != 0 { return false; }
    }
    ok := true;
  }

  /** The padding check that ends a turn: the chain at `offset` stands or falls with the chain at `next`. */
  method CheckGap<S>(ghost c: Codec<S>, raw: Bytes, offset: nat, ghost s: S, end: nat, next: nat) returns (ok: bool)
    requires offset < |raw| && c.parse(raw[offset..]) == Some(s) && c.valid(s) && Advances(c, offset, s)
    requires end == offset + |c.encode(s)| <= |raw| && next == offset + c.stride(offset, s)
    ensures !ok ==> Decode(c, offset, raw[offset..]).None?
    ensures ok && next >= |raw| ==> Decode(c, offset, raw[offset..]).Some?
    ensures ok && next < |raw| ==> (Decode(c, offset, raw[offset..]).Some? <==> Decode(c, next, raw[next..]).Some?)
  {
    ghost var rest := raw[offset..];
    DecodeTurn(c, offset, rest, s);
    var stop := if next < |raw| then next else |raw|;
    ok := IsZero(raw[end..stop]);
    if next < |raw| {
      assert raw[end..stop] == rest[end - offset..next - offset];
      assert raw[next..] == rest[next - offset..];
    } else {
      assert raw[end..stop] == rest[end - offset..];
    }
  }
}
