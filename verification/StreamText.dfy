/** Task streams as text: what goes over the wire, and what the client makes of it (a2a_streaming.py, a2a_client.py). */
module StreamText {
  import opened Prelude
  import opened Strings
  import opened JsonText
  import opened EventFrames
  import opened TaskStreams
  import opened StreamJson

  // ---------------------------------------------------------------- frames as events

  /** How frames become JSON. */
  datatype Writer = Writer(json: Frame -> Json)

  function A2A(rpc: Option<Json>): Writer { Writer(f => Payload(rpc, f)) }

  ghost predicate Lawful(w: Writer) { forall f :: ValidFrame(f) ==> Valid(w.json(f)) }

  function Event(w: Writer, f: Frame): Sse { Sse(f.event, Write(w.json(f))) }

  function Events(w: Writer, frames: seq<Frame>): seq<Sse> {
    seq(|frames|, i requires 0 <= i < |frames| => Event(w, frames[i]))
  }

  /** `frame_bytes` measures the encoded frame. */
  function Size(w: Writer, f: Frame): nat { Width(Block(Event(w, f)) + "\n\n") }

  function Wire(w: Writer, maxEvents: nat, maxBytes: nat): Limits { Limits(maxEvents, maxBytes, f => Size(w, f)) }

  lemma A2ALawful(rpc: Option<Json>)
    requires rpc.Some? ==> Valid(rpc.value)
    ensures Lawful(A2A(rpc))
  {
    forall f | ValidFrame(f) ensures Valid(A2A(rpc).json(f)) { PayloadOk(rpc, f); }
  }

  lemma EventWritable(w: Writer, f: Frame)
    requires Lawful(w) && ValidFrame(f) && OneLine(f.event) && |f.event| <= MAX_ID
    ensures Writable(Event(w, f))
  {
    WriteOneLine(w.json(f));
  }

  // ---------------------------------------------------------------- acceptance, from the text

  /** Ids are short and on one line. */
  predicate Printable(j: Job, x: Look) {
    && OneLine(j.id) && |j.id| <= 200 && Valid(x.detail)
    && (x.source.Some? ==> OneLine(x.source.value) && |x.source.value| <= 200)
  }

  predicate AllPrintable(j: Job, first: Look, seen: seq<Option<Look>>) {
    Printable(j, first) && forall i :: 0 <= i < |seen| && seen[i].Some? ==> Printable(j, seen[i].value)
  }

  lemma EventIdShort(j: Job, x: Look)
    requires Printable(j, x)
    ensures OneLine(EventId(j, x)) && |EventId(j, x)| <= 235
    ensures OneLine(EventId(j, x) + ":artifact") && OneLine(j.id + ":snapshot")
  {
    assert OneLine(StateName(x.state)) && |StateName(x.state)| <= 25;
  }

  lemma LookWritable(w: Writer, j: Job, x: Look)
    requires Printable(j, x) && Lawful(w)
    ensures Writable(Event(w, TaskOf(j, x))) && Writable(Event(w, StatusOf(j, x)))
    ensures Writable(Event(w, ArtifactOf(j, x)))
  {
    EventIdShort(j, x);
    EventWritable(w, TaskOf(j, x));
    EventWritable(w, StatusOf(j, x));
    EventWritable(w, ArtifactOf(j, x));
  }

  /** A parser that understands what the server writes. */
  ghost predicate ReadsBack(w: Writer, parse: string -> Option<Frame>) {
    forall f :: ValidFrame(f) ==> parse(Write(w.json(f))) == Some(Bare(f))
  }

  function Parsed(parse: string -> Option<Frame>, payloads: seq<string>): Option<seq<Frame>>
    decreases |payloads|
  {
    if payloads == [] then Some([])
    else
      match (parse(payloads[0]), Parsed(parse, payloads[1..]))
      case (Some(f), Some(rest)) => Some([f] + rest)
      case _ => None
  }

  /** What the client accepts, from the response text. */
  predicate Accepts(parse: string -> Option<Frame>, text: string) {
    match Read(text)
    case None => false
    case Some(payloads) =>
      match Parsed(parse, payloads)
      case None => false
      case Some(frames) => WellFormed(frames)
  }

  function ParsedOnward(parse: string -> Option<Frame>, payloads: seq<string>, i: nat, found: seq<Frame>)
    : Option<seq<Frame>>
    requires i <= |payloads|
  {
    match Parsed(parse, payloads[i..])
    case None => None
    case Some(rest) => Some(found + rest)
  }

  lemma ParsedStep(parse: string -> Option<Frame>, payloads: seq<string>, i: nat, found: seq<Frame>)
    requires i < |payloads|
    ensures
      match parse(payloads[i])
      case None => ParsedOnward(parse, payloads, i, found) == None
      case Some(f) => ParsedOnward(parse, payloads, i, found) == ParsedOnward(parse, payloads, i + 1, found + [f])
  {
    assert payloads[i..][0] == payloads[i] && payloads[i..][1..] == payloads[i + 1..];
    var f, rest := parse(payloads[i]), Parsed(parse, payloads[i + 1..]);
    if f.Some? && rest.Some? { assert found + ([f.value] + rest.value) == found + [f.value] + rest.value; }
  }

  method Receive(parse: string -> Option<Frame>, text: string) returns (accepted: bool)
    ensures accepted <==> Accepts(parse, text)
  {
    var payloads := ReadText(text);
    if payloads.None? { return false; }
    var frames: seq<Frame> := [];
    var i := 0;
    assert payloads.value[0..] == payloads.value && forall fs: seq<Frame> :: [] + fs == fs;
    while i < |payloads.value|
      invariant 0 <= i <= |payloads.value|
      invariant Parsed(parse, payloads.value) == ParsedOnward(parse, payloads.value, i, frames)
    {
      ParsedStep(parse, payloads.value, i, frames);
      var f := parse(payloads.value[i]);
      if f.None? { return false; }
      frames := frames + [f.value];
      i := i + 1;
    }
    assert payloads.value[i..] == [] && frames + [] == frames;
    accepted := ReadStream(frames);
  }

  function Bares(frames: seq<Frame>): seq<Frame> { seq(|frames|, i requires 0 <= i < |frames| => Bare(frames[i])) }

  lemma DataTail(w: Writer, frames: seq<Frame>)
    requires frames != []
    ensures
      var data := Data(Events(w, frames));
      data != [] && data[0] == Write(w.json(frames[0])) && data[1..] == Data(Events(w, frames[1..]))
  {
  }

  lemma {:induction false} ParsedBack(w: Writer, parse: string -> Option<Frame>, frames: seq<Frame>)
    requires ReadsBack(w, parse) && forall i :: 0 <= i < |frames| ==> ValidFrame(frames[i])
    ensures Parsed(parse, Data(Events(w, frames))) == Some(Bares(frames))
    decreases |frames|
  {
    if frames == [] {
      assert Data(Events(w, frames)) == [] && Bares(frames) == [];
    } else {
      ParsedBack(w, parse, frames[1..]);
      DataTail(w, frames);
      assert Bares(frames) == [Bare(frames[0])] + Bares(frames[1..]);
    }
  }

  lemma BaresWellFormed(frames: seq<Frame>)
    ensures WellFormed(Bares(frames)) <==> WellFormed(frames)
  {
    var bares := Bares(frames);
    assert forall i :: 0 <= i < |frames| ==>
        bares[i].id == frames[i].id && bares[i].context == frames[i].context && (Ends(bares[i]) <==> Ends(frames[i]));
  }

  lemma FrameWritable(w: Writer, l: Limits, j: Job, first: Look, seen: seq<Option<Look>>, f: Frame)
    requires AllPrintable(j, first, seen) && Lawful(w) && f in Serve(l, j, Some(first), seen)
    ensures ValidFrame(f) && Writable(Event(w, f))
  {
    ServeReports(l, j, first, seen, f);
    LookWritable(w, j, first);
    if f != TaskOf(j, first) {
      var x :| Some(x) in seen && Sends(j, x, f);
      LookWritable(w, j, x);
    }
  }

  lemma ServedWritable(w: Writer, l: Limits, j: Job, first: Look, seen: seq<Option<Look>>)
    requires AllPrintable(j, first, seen) && Lawful(w)
    ensures
      var frames := Serve(l, j, Some(first), seen);
      forall i :: 0 <= i < |frames| ==> ValidFrame(frames[i]) && Writable(Events(w, frames)[i])
  {
    var frames := Serve(l, j, Some(first), seen);
    forall i | 0 <= i < |frames| ensures ValidFrame(frames[i]) && Writable(Event(w, frames[i])) {
      FrameWritable(w, l, j, first, seen, frames[i]);
    }
  }

  /** A frame within the byte limit of a stream has a payload within it. */
  lemma SmallPayload(e: Sse)
    ensures Width(e.data) <= Width(Block(e) + "\n\n")
  {
    WidthJoins(Block(e), "\n\n");
    assert Block(e) == "id: " + e.id + "\n" + "data: " + e.data;
    WidthJoins("id: " + e.id + "\n" + "data: ", e.data);
  }

  lemma {:induction false} EachWithinTotal(l: Limits, frames: seq<Frame>, i: nat)
    requires i < |frames|
    ensures l.size(frames[i]) <= Total(l, frames)
    decreases i
  {
    if i > 0 { EachWithinTotal(l, frames[1..], i - 1); }
  }

  /** With a byte limit that is not above the client's, no served payload is over-long. */
  lemma ServedSmall(w: Writer, maxEvents: nat, maxBytes: nat, j: Job, first: Look, seen: seq<Option<Look>>)
    requires maxBytes <= MAX_VALUE_BYTES
    ensures Small(Events(w, Serve(Wire(w, maxEvents, maxBytes), j, Some(first), seen)))
  {
    var l := Wire(w, maxEvents, maxBytes);
    var frames := Serve(l, j, Some(first), seen);
    ServeWithin(l, j, Some(first), seen);
    forall i | 0 <= i < |frames| ensures Width(Event(w, frames[i]).data) <= MAX_VALUE_BYTES {
      EachWithinTotal(l, frames, i);
      SmallPayload(Event(w, frames[i]));
    }
  }

  lemma AcceptedBy(w: Writer, parse: string -> Option<Frame>, maxEvents: nat, maxBytes: nat, j: Job, first: Look,
                   seen: seq<Option<Look>>)
    requires Lawful(w) && ReadsBack(w, parse) && AllPrintable(j, first, seen)
    ensures
      var l := Wire(w, maxEvents, maxBytes);
      var events := Events(w, Serve(l, j, Some(first), seen));
      Accepts(parse, Encode(events)) <==> EndsWell(l, j, first, seen) && Small(events)
  {
    var l := Wire(w, maxEvents, maxBytes);
    var frames := Serve(l, j, Some(first), seen);
    ServedWritable(w, l, j, first, seen);
    FramesRoundTrip(Events(w, frames));
    ParsedBack(w, parse, frames);
    BaresWellFormed(frames);
    AcceptedExactly(l, j, first, seen);
  }

  /** From the bytes on the wire: the client accepts the response to a stream request exactly when the stream ends well
      and no payload is over its limit, which none can be if the server's byte limit is not larger. */
  lemma AcceptedFromText(rpc: Json, parse: string -> Option<Frame>, maxEvents: nat, maxBytes: nat, j: Job, first: Look,
                         seen: seq<Option<Look>>)
    requires Valid(rpc) && ReadsBack(A2A(Some(rpc)), parse) && AllPrintable(j, first, seen)
    ensures
      var w := A2A(Some(rpc));
      var l := Wire(w, maxEvents, maxBytes);
      var events := Events(w, Serve(l, j, Some(first), seen));
      && (Accepts(parse, Encode(events)) <==> EndsWell(l, j, first, seen) && Small(events))
      && (maxBytes <= MAX_VALUE_BYTES ==> Small(events))
  {
    var w := A2A(Some(rpc));
    A2ALawful(Some(rpc));
    AcceptedBy(w, parse, maxEvents, maxBytes, j, first, seen);
    if maxBytes <= MAX_VALUE_BYTES { ServedSmall(w, maxEvents, maxBytes, j, first, seen); }
  }

  /** The frame that a text can be read as. */
  ghost function Meaning(w: Writer, s: string): (r: Option<Frame>)
    ensures r.Some? ==> exists f :: ValidFrame(f) && Write(w.json(f)) == s && r.value == Bare(f)
    ensures r.None? ==> forall f :: ValidFrame(f) ==> Write(w.json(f)) != s
  {
    if f :| ValidFrame(f) && Write(w.json(f)) == s then Some(Bare(f)) else None
  }

  /** Such a parser exists: a text determines its JSON, and a payload what its frame says. */
  lemma ParserExists(rpc: Json)
    requires Valid(rpc)
    ensures exists parse :: ReadsBack(A2A(Some(rpc)), parse)
  {
    var w := A2A(Some(rpc));
    var parse := s => Meaning(w, s);
    A2ALawful(Some(rpc));
    forall f | ValidFrame(f) ensures parse(Write(w.json(f))) == Some(Bare(f)) {
      var g :| ValidFrame(g) && Write(w.json(g)) == Write(w.json(f)) && Meaning(w, Write(w.json(f))) == Some(Bare(g));
      TextsDiffer(w.json(f), w.json(g));
      PayloadsDiffer(Some(rpc), f, g);
    }
    assert ReadsBack(w, parse);
  }

  // ---------------------------------------------------------------- at the limits the runtime accepts

  /** Ids as the runtime makes them: short, and in plain characters. */
  predicate Named(rpc: Json, j: Job) {
    && Valid(rpc) && SimpleJson(rpc) && Length(rpc) <= 1000
    && Simple(j.id) && |j.id| <= 200 && Simple(j.session) && 1 <= |j.session| <= 200
  }

  predicate NamedLook(x: Look) {
    && (x.source.Some? ==> Simple(x.source.value) && |x.source.value| <= 200)
    && Valid(x.detail) && SimpleJson(x.detail)
  }

  lemma BlockWidth(e: Sse)
    requires Ascii(e.id)
    ensures Width(Block(e) + "\n\n") == |e.id| + 13 + Width(e.data)
  {
    var head := "id: " + e.id + "\n" + "data: ";
    assert Block(e) + "\n\n" == head + e.data + "\n\n";
    WidthJoins(head + e.data, "\n\n");
    WidthJoins(head, e.data);
    WidthAscii(head);
    WidthAscii("\n\n");
  }

  lemma SizeOf(rpc: Json, f: Frame)
    requires Valid(rpc) && SimpleJson(rpc) && ValidFrame(f) && SimpleFrame(f)
    ensures Size(A2A(Some(rpc)), f) == |f.event| + 46 + Length(rpc) + Length(FrameJson(f))
  {
    PayloadOk(Some(rpc), f);
    WriteLength(Payload(Some(rpc), f));
    BlockWidth(Event(A2A(Some(rpc)), f));
  }

  lemma EventNamed(j: Job, x: Look)
    requires Simple(j.id) && NamedLook(x)
    ensures Simple(EventId(j, x)) && Simple(EventId(j, x) + ":artifact") && Simple(j.id + ":snapshot")
    ensures x.source.None? ==> |EventId(j, x)| == |j.id| + 10 + |StateName(x.state)|
  {
    NameOk(x.state);
    assert Simple(":snapshot:") && Simple(":artifact") && Simple(":snapshot");
  }

  lemma FramesNamed(j: Job, x: Look)
    requires Simple(j.id) && Simple(j.session) && NamedLook(x)
    ensures SimpleFrame(TaskOf(j, x)) && SimpleFrame(StatusOf(j, x)) && SimpleFrame(ArtifactOf(j, x))
  {
    EventNamed(j, x);
  }

  lemma StatusSize(rpc: Json, j: Job, x: Look)
    requires Named(rpc, j) && NamedLook(x)
    ensures Size(A2A(Some(rpc)), StatusOf(j, x))
            == |EventId(j, x)| + Length(rpc) + |j.id| + |j.session| + |StateName(x.state)| + 113
  {
    FramesNamed(j, x);
    SizeOf(rpc, StatusOf(j, x));
    StatusFrameOk(StatusOf(j, x));
  }

  lemma ArtifactSize(rpc: Json, j: Job, x: Look)
    requires Named(rpc, j) && NamedLook(x)
    ensures Size(A2A(Some(rpc)), ArtifactOf(j, x))
            <= |EventId(j, x)| + Length(rpc) + 2 * |j.id| + |j.session| + Length(x.detail) + 239
  {
    FramesNamed(j, x);
    SizeOf(rpc, ArtifactOf(j, x));
    ArtifactFrameOk(ArtifactOf(j, x));
  }

  lemma TaskSize(rpc: Json, j: Job, x: Look)
    requires Named(rpc, j) && NamedLook(x)
    ensures
      var n := Size(A2A(Some(rpc)), TaskOf(j, x));
      && (x.state == Working ==> n == Length(rpc) + 2 * |j.id| + |j.session| + 128)
      && (x.state == InputRequired ==> n == Length(rpc) + 4 * |j.id| + 2 * |j.session| + 299)
  {
    FramesNamed(j, x);
    SizeOf(rpc, TaskOf(j, x));
    TaskFrameOk(TaskOf(j, x));
  }

  lemma TaskBounded(rpc: Json, j: Job, x: Look)
    requires Named(rpc, j) && NamedLook(x) && !Terminal(x.state)
    ensures Size(A2A(Some(rpc)), TaskOf(j, x)) <= 2500
  {
    TaskSize(rpc, j, x);
  }

  lemma EventBounded(j: Job, x: Look)
    requires |j.id| <= 200 && NamedLook(x)
    ensures |EventId(j, x)| + |StateName(x.state)| <= 260
  {
    NameOk(x.state);
  }

  lemma StatusBounded(rpc: Json, j: Job, x: Look)
    requires Named(rpc, j) && NamedLook(x)
    ensures Size(A2A(Some(rpc)), StatusOf(j, x)) <= 2500
  {
    StatusSize(rpc, j, x);
    EventBounded(j, x);
  }

  lemma ArtifactBounded(rpc: Json, j: Job, x: Look)
    requires Named(rpc, j) && NamedLook(x)
    ensures Size(A2A(Some(rpc)), ArtifactOf(j, x)) <= Length(x.detail) + 2500
  {
    ArtifactSize(rpc, j, x);
    EventBounded(j, x);
  }

  /** From 2500 bytes on, no snapshot of a task that goes on is skipped. */
  lemma SnapshotFits(rpc: Json, maxEvents: nat, maxBytes: nat, j: Job, x: Look)
    requires Named(rpc, j) && NamedLook(x) && !Terminal(x.state) && maxEvents >= 1 && maxBytes >= 2500
    ensures Fits(Wire(A2A(Some(rpc)), maxEvents, maxBytes), NOTHING, TaskOf(j, x))
  {
    TaskBounded(rpc, j, x);
  }

  /** Below that one can be: a request for input under limits that its snapshot exceeds and a later failure fits. The
      stream is that update alone, which the client refuses. With 36-character ids the frames have 515 and 265 bytes,
      and those of the request id. */
  lemma SkippedExample(rpc: Json, maxEvents: nat, maxBytes: nat, j: Job, error: Json)
    requires Named(rpc, j) && |j.id| == 36 && |j.session| == 36 && Valid(error) && SimpleJson(error)
    requires 1 <= maxEvents <= 1000 && Length(rpc) + 265 <= maxBytes < Length(rpc) + 515
    ensures
      var l := Wire(A2A(Some(rpc)), maxEvents, maxBytes);
      var x, y := Look(None, InputRequired, Null), Look(None, Failed, error);
      && ValidLimits(l)
      && Serve(l, j, Some(x), [Some(y)]) == [StatusOf(j, y)]
      && !WellFormed(Serve(l, j, Some(x), [Some(y)]))
  {
    SkippedSizes(rpc, j, error);
    SkippedUnder(A2A(Some(rpc)), maxEvents, maxBytes, j, Look(None, InputRequired, Null), Look(None, Failed, error));
  }

  lemma SkippedSizes(rpc: Json, j: Job, error: Json)
    requires Named(rpc, j) && |j.id| == 36 && |j.session| == 36 && Valid(error) && SimpleJson(error)
    ensures Size(A2A(Some(rpc)), TaskOf(j, Look(None, InputRequired, Null))) == Length(rpc) + 515
    ensures Size(A2A(Some(rpc)), StatusOf(j, Look(None, Failed, error))) == Length(rpc) + 265
  {
    TaskSize(rpc, j, Look(None, InputRequired, Null));
    FailureSize(rpc, j, Look(None, Failed, error));
  }

  lemma FailureSize(rpc: Json, j: Job, x: Look)
    requires Named(rpc, j) && NamedLook(x) && x.source.None? && x.state == Failed
    ensures Size(A2A(Some(rpc)), StatusOf(j, x)) == Length(rpc) + 2 * |j.id| + |j.session| + 157
  {
    StatusSize(rpc, j, x);
    EventNamed(j, x);
    assert |StateName(Failed)| == 17;
  }

  lemma SkippedUnder(w: Writer, maxEvents: nat, maxBytes: nat, j: Job, x: Look, y: Look)
    requires x.state == InputRequired && y.state == Failed && maxEvents >= 1
    requires Size(w, StatusOf(j, y)) <= maxBytes < Size(w, TaskOf(j, x))
    ensures
      var l := Wire(w, maxEvents, maxBytes);
      Serve(l, j, Some(x), [Some(y)]) == [StatusOf(j, y)] && !WellFormed(Serve(l, j, Some(x), [Some(y)]))
  {
    SkippedServed(Wire(w, maxEvents, maxBytes), j, x, y);
  }

  /** At the limits of the running server: a task that asks for input, goes on and completes is served in five frames,
      and the client refuses them. */
  lemma ResumedExample(rpc: Json, j: Job, first: Look, asks: Look, resumed: Look, done: Look)
    requires Named(rpc, j) && NamedLook(first) && NamedLook(asks) && NamedLook(resumed) && NamedLook(done)
    requires first.state == Working && asks.state == InputRequired && resumed.state == Working
             && done.state == Completed
    requires Length(done.detail) <= 1_000_000
    ensures
      var l := Wire(A2A(Some(rpc)), 100, 1_048_576);
      var frames := [TaskOf(j, first), StatusOf(j, asks), StatusOf(j, resumed), ArtifactOf(j, done), StatusOf(j, done)];
      && ValidLimits(l)
      && Serve(l, j, Some(first), [Some(asks), Some(resumed), Some(done)]) == frames
      && !WellFormed(frames)
  {
    TaskBounded(rpc, j, first);
    StatusBounded(rpc, j, asks);
    StatusBounded(rpc, j, resumed);
    ArtifactBounded(rpc, j, done);
    StatusBounded(rpc, j, done);
    ResumedUnder(A2A(Some(rpc)), j, first, asks, resumed, done);
  }

  lemma ResumedUnder(w: Writer, j: Job, first: Look, asks: Look, resumed: Look, done: Look)
    requires first.state == Working && asks.state == InputRequired && resumed.state == Working
             && done.state == Completed
    requires Size(w, TaskOf(j, first)) <= 2500 && Size(w, StatusOf(j, asks)) <= 2500
    requires Size(w, StatusOf(j, resumed)) <= 2500 && Size(w, StatusOf(j, done)) <= 2500
    requires Size(w, ArtifactOf(j, done)) <= 1_002_500
    ensures
      var frames := [TaskOf(j, first), StatusOf(j, asks), StatusOf(j, resumed), ArtifactOf(j, done), StatusOf(j, done)];
      && Serve(Wire(w, 100, 1_048_576), j, Some(first), [Some(asks), Some(resumed), Some(done)]) == frames
      && !WellFormed(frames)
  {
    ResumedServed(Wire(w, 100, 1_048_576), j, first, asks, resumed, done);
  }
}
