/** Server-sent event text: what `_sse_frame` writes and the client's frame loop reads back. */
module EventFrames {
  import opened Prelude
  import opened Strings

  const MAX_FRAMES: nat := 64
  const MAX_ID: nat := 256
  const MAX_VALUE_BYTES: nat := 1_048_576

  datatype Sse = Sse(id: string, data: string)

  // ---------------------------------------------------------------- writing

  function Block(e: Sse): string { "id: " + e.id + "\n" + "data: " + e.data }

  function Encode(events: seq<Sse>): string {
    if events == [] then "" else Block(events[0]) + "\n\n" + Encode(events[1..])
  }

  // ---------------------------------------------------------------- reading

  /** `s.split("\n\n")`. */
  function SplitBlocks(s: string): (parts: seq<string>)
    ensures |parts| >= 1
  {
    if s == "" then [""]
    else if |s| >= 2 && s[0] == '\n' && s[1] == '\n' then [""] + SplitBlocks(s[2..])
    else
      var rest := SplitBlocks(s[1..]);
      [[s[0]] + rest[0]] + rest[1..]
  }

  /** The key before the first colon and the value after it, without one leading space; no colon, no field. */
  function Field(line: string): Option<(string, string)> {
    if line == "" then None
    else if line[0] == ':' then
      Some(("", if |line| >= 2 && line[1] == ' ' then line[2..] else line[1..]))
    else
      match Field(line[1..])
      case None => None
      case Some((k, v)) => Some(([line[0]] + k, v))
  }

  datatype Lines = Bad | Good(chunks: seq<string>, event: string)

  /** The fields of one block; an unknown field, a missing colon or an over-long id is an error. */
  function ReadLines(lines: seq<string>, r: Lines): Lines
    decreases |lines|
  {
    if lines == [] || r.Bad? then r
    else if lines[0] == "" || lines[0][0] == ':' then ReadLines(lines[1..], r)
    else
      match Field(lines[0])
      case None => Bad
      case Some((key, value)) =>
        if key == "data" then ReadLines(lines[1..], r.(chunks := r.chunks + [value]))
        else if key == "event" then ReadLines(lines[1..], r.(event := value))
        else if key != "id" || |value| > MAX_ID then Bad
        else ReadLines(lines[1..], r)
  }

  function Join(chunks: seq<string>): string {
    if chunks == [] then "" else if |chunks| == 1 then chunks[0] else chunks[0] + "\n" + Join(chunks[1..])
  }

  /** The payloads of the blocks, in order; blocks without data are passed over, and an over-long payload is an
      error. */
  function Payloads(blocks: seq<string>): Option<seq<string>>
    decreases |blocks|
  {
    if blocks == [] then Some([])
    else
      match ReadLines(Split(blocks[0], '\n'), Good([], "message"))
      case Bad => None
      case Good(chunks, event) =>
        if chunks != [] && (event != "message" || Width(Join(chunks)) > MAX_VALUE_BYTES) then None
        else
          match Payloads(blocks[1..])
          case None => None
          case Some(rest) => Some(if chunks == [] then rest else [Join(chunks)] + rest)
  }

  /** What `str.strip` removes. */
  predicate IsSpace(c: char) {
    var n := c as int;
    || 0x09 <= n <= 0x0d || 0x1c <= n <= 0x20 || n == 0x85 || n == 0xa0 || n == 0x1680 || 0x2000 <= n <= 0x200a
    || n == 0x2028 || n == 0x2029 || n == 0x202f || n == 0x205f || n == 0x3000
  }

  predicate Blank(s: string) { forall i :: 0 <= i < |s| ==> IsSpace(s[i]) }

  /** Carriage returns become newlines, alone or before one. */
  function Newlines(s: string): string {
    if s == "" then ""
    else if s[0] == '\r' then "\n" + Newlines(if |s| >= 2 && s[1] == '\n' then s[2..] else s[1..])
    else [s[0]] + Newlines(s[1..])
  }

  function Read(text: string): Option<seq<string>> {
    var blocks := SplitBlocks(Newlines(text));
    if |blocks| > MAX_FRAMES + 1 || !Blank(blocks[|blocks| - 1]) then None else Payloads(blocks[..|blocks| - 1])
  }

  // ---------------------------------------------------------------- round trip

  /** What the writer puts in a frame: one-line texts and a short id. */
  predicate Writable(e: Sse) { OneLine(e.id) && OneLine(e.data) && |e.id| <= MAX_ID }

  lemma {:induction false} NewlinesSame(s: string)
    requires forall i :: 0 <= i < |s| ==> s[i] != '\r'
    ensures Newlines(s) == s
  {
    if s != "" { NewlinesSame(s[1..]); }
  }

  /** No blank line inside, and no newline at the end. */
  ghost predicate Solid(s: string) {
    && (forall i :: 0 <= i < |s| - 1 ==> !(s[i] == '\n' && s[i + 1] == '\n'))
    && (s != "" ==> s[|s| - 1] != '\n')
  }

  lemma {:induction false} FirstBlock(s: string, rest: string)
    requires Solid(s)
    ensures SplitBlocks(s + "\n\n" + rest) == [s] + SplitBlocks(rest)
    decreases |s|
  {
    var t := s + "\n\n" + rest;
    if s == "" {
      assert t[2..] == rest;
    } else {
      assert t[1..] == s[1..] + "\n\n" + rest;
      assert Solid(s[1..]) by { assert forall i :: 0 <= i < |s[1..]| ==> s[1..][i] == s[i + 1]; }
      FirstBlock(s[1..], rest);
      assert !(t[0] == '\n' && t[1] == '\n');
      var parts := SplitBlocks(t[1..]);
      assert parts[0] == s[1..] && parts[1..] == SplitBlocks(rest);
      assert [t[0]] + s[1..] == s;
    }
  }

  lemma {:induction false} FieldOf(key: string, value: string)
    requires ':' !in key
    ensures Field(key + ": " + value) == Some((key, value))
    decreases |key|
  {
    var line := key + ": " + value;
    if key == "" {
      assert line[0] == ':' && line[1] == ' ' && line[2..] == value;
    } else {
      assert line[1..] == key[1..] + ": " + value;
      FieldOf(key[1..], value);
      assert [line[0]] + key[1..] == key;
    }
  }

  lemma BlockSolid(e: Sse)
    requires Writable(e)
    ensures Solid(Block(e)) && forall i :: 0 <= i < |Block(e)| ==> Block(e)[i] != '\r'
  {
    var head, tail := "id: " + e.id, "data: " + e.data;
    assert Block(e) == head + "\n" + tail;
    assert OneLine(head) && OneLine(tail) && tail[0] == 'd';
    assert forall i :: 0 <= i < |Block(e)| ==>
        Block(e)[i] == if i < |head| then head[i] else if i == |head| then '\n' else tail[i - |head| - 1];
  }

  lemma TwoLines(head: string, tail: string)
    requires OneLine(head) && OneLine(tail)
    ensures Split(head + "\n" + tail, '\n') == [head, tail]
  {
    assert head + "\n" + tail == head + ("\n" + tail) && ("\n" + tail)[1..] == tail;
    SplitJoins(head, "\n" + tail, '\n');
    assert tail + "" == tail;
    SplitJoins(tail, "", '\n');
  }

  /** One block reads back as its data. */
  lemma BlockReads(e: Sse)
    requires Writable(e)
    ensures ReadLines(Split(Block(e), '\n'), Good([], "message")) == Good([e.data], "message")
  {
    var head, tail := "id: " + e.id, "data: " + e.data;
    assert OneLine(head) && OneLine(tail) && Block(e) == head + "\n" + tail;
    TwoLines(head, tail);
    assert Field(head) == Some(("id", e.id)) by { FieldOf("id", e.id); assert "id" + ": " + e.id == head; }
    assert Field(tail) == Some(("data", e.data)) by { FieldOf("data", e.data); assert "data" + ": " + e.data == tail; }
    TwoFields(head, e.id, tail, e.data);
  }

  lemma TwoFields(head: string, id: string, tail: string, data: string)
    requires head != "" && tail != "" && head[0] != ':' && tail[0] != ':' && |id| <= MAX_ID
    requires Field(head) == Some(("id", id)) && Field(tail) == Some(("data", data))
    ensures ReadLines([head, tail], Good([], "message")) == Good([data], "message")
  {
    assert [head, tail][1..] == [tail] && [tail][1..] == [];
    assert [] + [data] == [data];
    assert ReadLines([tail], Good([], "message")) == ReadLines([], Good([data], "message"));
  }

  function Data(events: seq<Sse>): seq<string> { seq(|events|, i requires 0 <= i < |events| => events[i].data) }

  function Blocks(events: seq<Sse>): seq<string> { seq(|events|, i requires 0 <= i < |events| => Block(events[i])) }

  lemma {:induction false} EncodeSplits(events: seq<Sse>)
    requires forall i :: 0 <= i < |events| ==> Writable(events[i])
    ensures SplitBlocks(Encode(events)) == Blocks(events) + [""]
    ensures forall i :: 0 <= i < |Encode(events)| ==> Encode(events)[i] != '\r'
    decreases |events|
  {
    if events == [] {
      assert Blocks(events) == [];
    } else {
      EncodeSplits(events[1..]);
      BlockSolid(events[0]);
      FirstBlock(Block(events[0]), Encode(events[1..]));
      assert Blocks(events) == [Block(events[0])] + Blocks(events[1..]);
    }
  }

  predicate Small(events: seq<Sse>) { forall i :: 0 <= i < |events| ==> Width(events[i].data) <= MAX_VALUE_BYTES }

  lemma {:induction false} BlocksRead(events: seq<Sse>)
    requires forall i :: 0 <= i < |events| ==> Writable(events[i])
    ensures Payloads(Blocks(events)) == if Small(events) then Some(Data(events)) else None
    decreases |events|
  {
    if events == [] {
      assert Blocks(events) == [] && Data(events) == [];
    } else {
      BlocksRead(events[1..]);
      BlockReads(events[0]);
      assert Blocks(events)[0] == Block(events[0]) && Blocks(events)[1..] == Blocks(events[1..]);
      assert Data(events) == [events[0].data] + Data(events[1..]);
      assert Small(events) <==> Width(events[0].data) <= MAX_VALUE_BYTES && Small(events[1..]);
    }
  }

  /** The client reads back every payload that the server framed, and refuses more than 64 frames or a payload over
      its limit. */
  lemma FramesRoundTrip(events: seq<Sse>)
    requires forall i :: 0 <= i < |events| ==> Writable(events[i])
    ensures Read(Encode(events)) == if |events| <= MAX_FRAMES && Small(events) then Some(Data(events)) else None
  {
    EncodeSplits(events);
    NewlinesSame(Encode(events));
    BlocksRead(events);
    assert (Blocks(events) + [""])[..|events|] == Blocks(events);
  }

  // ---------------------------------------------------------------- the client's loop

  method ReadBlock(block: string) returns (r: Lines)
    ensures r == ReadLines(Split(block, '\n'), Good([], "message"))
  {
    var lines := Split(block, '\n');
    var chunks: seq<string>, event := [], "message";
    var i := 0;
    while i < |lines|
      invariant 0 <= i <= |lines|
      invariant ReadLines(lines, Good([], "message")) == ReadLines(lines[i..], Good(chunks, event))
    {
      var line := lines[i];
      assert lines[i..][0] == line && lines[i..][1..] == lines[i + 1..];
      if line != "" && line[0] != ':' {
        var field := Field(line);
        if field.None? { return Bad; }
        var (key, value) := field.value;
        if key == "data" {
          chunks := chunks + [value];
        } else if key == "event" {
          event := value;
        } else if key != "id" || |value| > MAX_ID {
          return Bad;
        }
      }
      i := i + 1;
    }
    return Good(chunks, event);
  }

  /** What reading the blocks from `i` on adds to what has been found. */
  function Onward(blocks: seq<string>, i: nat, found: seq<string>): Option<seq<string>>
    requires i <= |blocks|
  {
    match Payloads(blocks[i..])
    case None => None
    case Some(rest) => Some(found + rest)
  }

  lemma OnwardStep(blocks: seq<string>, i: nat, found: seq<string>)
    requires i < |blocks|
    ensures
      match ReadLines(Split(blocks[i], '\n'), Good([], "message"))
      case Bad => Onward(blocks, i, found) == None
      case Good(chunks, event) =>
        if chunks == [] then Onward(blocks, i, found) == Onward(blocks, i + 1, found)
        else if event != "message" || Width(Join(chunks)) > MAX_VALUE_BYTES then Onward(blocks, i, found) == None
        else Onward(blocks, i, found) == Onward(blocks, i + 1, found + [Join(chunks)])
  {
    assert blocks[i..][0] == blocks[i] && blocks[i..][1..] == blocks[i + 1..];
    var r, rest := ReadLines(Split(blocks[i], '\n'), Good([], "message")), Payloads(blocks[i + 1..]);
    if r.Good? && rest.Some? {
      assert found + ([Join(r.chunks)] + rest.value) == found + [Join(r.chunks)] + rest.value;
    }
  }

  method ReadText(text: string) returns (r: Option<seq<string>>)
    ensures r == Read(text)
  {
    var all := SplitBlocks(Newlines(text));
    if |all| > MAX_FRAMES + 1 || !Blank(all[|all| - 1]) { return None; }
    var blocks := all[..|all| - 1];
    var found: seq<string> := [];
    var i := 0;
    assert blocks[0..] == blocks && forall p: seq<string> :: [] + p == p;
    while i < |blocks|
      invariant 0 <= i <= |blocks|
      invariant Payloads(blocks) == Onward(blocks, i, found)
    {
      OnwardStep(blocks, i, found);
      var block := ReadBlock(blocks[i]);
      if block.Bad? { return None; }
      if block.chunks != [] {
        if block.event != "message" { return None; }
        var raw := Join(block.chunks);
        if Width(raw) > MAX_VALUE_BYTES { return None; }
        found := found + [raw];
      }
      i := i + 1;
    }
    assert blocks[i..] == [] && found + [] == found;
    return Some(found);
  }
}
