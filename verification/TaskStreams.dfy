/** A2A task streams: what the server sends and what the client accepts (a2a_streaming.py, a2a_client.py). */
module TaskStreams {
  import opened Prelude
  import EventFrames
  import opened JsonText

  datatype State = Working | InputRequired | Completed | Failed | Canceled

  /** A streamed response and the event id it goes out under. `detail` is the output of a completed task or the error
      code of a failed one. */
  datatype Frame =
    | Task(event: string, id: string, context: string, state: State, detail: Json)
    | Artifact(event: string, id: string, context: string, detail: Json)
    | Status(event: string, id: string, context: string, state: State)

  /** The server's last states. */
  predicate Terminal(s: State) { s == Completed || s == Failed || s == Canceled }

  /** The states that end a stream for the client: a request for input as well. */
  predicate Final(s: State) { Terminal(s) || s == InputRequired }

  predicate Ends(f: Frame) { !f.Artifact? && Final(f.state) }

  function StateName(s: State): string {
    match s
    case Working => "TASK_STATE_WORKING"
    case InputRequired => "TASK_STATE_INPUT_REQUIRED"
    case Completed => "TASK_STATE_COMPLETED"
    case Failed => "TASK_STATE_FAILED"
    case Canceled => "TASK_STATE_CANCELED"
  }

  // ---------------------------------------------------------------- the server

  /** Limits on one stream; `size` is the encoded length of a frame. */
  datatype Limits = Limits(maxEvents: nat, maxBytes: nat, size: Frame -> nat)

  /** The limits that the runtime accepts. */
  predicate ValidLimits(l: Limits) { 1 <= l.maxEvents <= 1000 && 256 <= l.maxBytes <= 16_777_216 }

  datatype Job = Job(id: string, session: string)

  /** One look at the invocation: the lifecycle event that prompted it, if there was one, and what it found. */
  datatype Look = Look(source: Option<string>, state: State, detail: Json)

  datatype Sent = Sent(frames: seq<Frame>, bytes: nat)

  const NOTHING := Sent([], 0)

  predicate Fits(l: Limits, s: Sent, f: Frame) { |s.frames| < l.maxEvents && s.bytes + l.size(f) <= l.maxBytes }

  function Push(l: Limits, s: Sent, f: Frame): Sent { Sent(s.frames + [f], s.bytes + l.size(f)) }

  /** The context of an update: the session, or the invocation id where there is none. */
  function Context(j: Job): string { if j.session == "" then j.id else j.session }

  function EventId(j: Job, x: Look): string {
    if x.source.Some? then x.source.value else j.id + ":snapshot:" + StateName(x.state)
  }

  function TaskOf(j: Job, x: Look): Frame { Task(j.id + ":snapshot", j.id, j.session, x.state, x.detail) }

  function ArtifactOf(j: Job, x: Look): Frame { Artifact(EventId(j, x) + ":artifact", j.id, Context(j), x.detail) }

  function StatusOf(j: Job, x: Look): Frame { Status(EventId(j, x), j.id, Context(j), x.state) }

  /** The updates for what is seen after `last`; `None` is a task that has gone. */
  function Updates(l: Limits, j: Job, last: State, seen: seq<Option<Look>>, s: Sent): Sent
    decreases |seen|
  {
    if seen == [] || seen[0].None? then s
    else if seen[0].value.state == last then Updates(l, j, last, seen[1..], s)
    else
      var x := seen[0].value;
      if x.state == Completed && !Fits(l, s, ArtifactOf(j, x)) then s
      else
        var t := if x.state == Completed then Push(l, s, ArtifactOf(j, x)) else s;
        if !Fits(l, t, StatusOf(j, x)) then t
        else if Terminal(x.state) then Push(l, t, StatusOf(j, x))
        else Updates(l, j, x.state, seen[1..], Push(l, t, StatusOf(j, x)))
  }

  function Snapshot(l: Limits, j: Job, x: Look): Sent {
    if Fits(l, NOTHING, TaskOf(j, x)) then Push(l, NOTHING, TaskOf(j, x)) else NOTHING
  }

  /** The whole stream: the current task, then its changes until a last state or a limit. */
  function Serve(l: Limits, j: Job, first: Option<Look>, seen: seq<Option<Look>>): seq<Frame> {
    match first
    case None => []
    case Some(x) =>
      var s := Snapshot(l, j, x);
      if Terminal(x.state) then s.frames else Updates(l, j, x.state, seen, s).frames
  }

  method StreamTask(l: Limits, j: Job, first: Option<Look>, seen: seq<Option<Look>>) returns (frames: seq<Frame>)
    ensures frames == Serve(l, j, first, seen)
  {
    if first.None? { return []; }
    var sent: seq<Frame>, bytes: nat := [], 0;
    var last := first.value.state;
    var task := TaskOf(j, first.value);
    if |sent| < l.maxEvents && bytes + l.size(task) <= l.maxBytes {
      sent, bytes := sent + [task], bytes + l.size(task);
    }
    if Terminal(last) { return sent; }
    var i := 0;
    while i < |seen|
      invariant 0 <= i <= |seen|
      invariant Serve(l, j, first, seen) == Updates(l, j, last, seen[i..], Sent(sent, bytes)).frames
    {
      assert seen[i..][1..] == seen[i + 1..];
      if seen[i].None? { return sent; }
      var x := seen[i].value;
      if x.state != last {
        if x.state == Completed {
          var artifact := ArtifactOf(j, x);
          if !(|sent| < l.maxEvents && bytes + l.size(artifact) <= l.maxBytes) { return sent; }
          sent, bytes := sent + [artifact], bytes + l.size(artifact);
        }
        var status := StatusOf(j, x);
        if !(|sent| < l.maxEvents && bytes + l.size(status) <= l.maxBytes) { return sent; }
        sent, bytes := sent + [status], bytes + l.size(status);
        last := x.state;
        if Terminal(last) { return sent; }
      }
      i := i + 1;
    }
    return sent;
  }

  // ---------------------------------------------------------------- the client

  /** A stream the client accepts: it starts with a Task frame, keeps one identity, and ends with its first final
      state. */
  predicate WellFormed(frames: seq<Frame>) {
    && 1 <= |frames| <= EventFrames.MAX_FRAMES && frames[0].Task?
    && (forall i :: 0 <= i < |frames| ==> frames[i].id == frames[0].id && frames[i].context == frames[0].context)
    && (forall i :: 0 <= i < |frames| ==> (Ends(frames[i]) <==> i == |frames| - 1))
  }

  method ReadStream(frames: seq<Frame>) returns (accepted: bool)
    ensures accepted <==> WellFormed(frames)
  {
    if |frames| > EventFrames.MAX_FRAMES { return false; }
    var identity: Option<(string, string)> := None;
    var finished := false;
    var i := 0;
    while i < |frames|
      invariant 0 <= i <= |frames| <= EventFrames.MAX_FRAMES
      invariant identity == if i == 0 then None else Some((frames[0].id, frames[0].context))
      invariant i > 0 ==> frames[0].Task?
      invariant forall j :: 0 <= j < i ==> frames[j].id == frames[0].id && frames[j].context == frames[0].context
      invariant forall j :: 0 <= j < i - 1 ==> !Ends(frames[j])
      invariant finished <==> i > 0 && Ends(frames[i - 1])
    {
      var f := frames[i];
      if finished {
        assert Ends(frames[i - 1]);
        return false;
      }
      if identity.Some? && identity.value != (f.id, f.context) { return false; }
      if identity.None? && !f.Task? { return false; }
      identity := Some((f.id, f.context));
      if !f.Artifact? { finished := Final(f.state); }
      i := i + 1;
    }
    return frames != [] && finished;
  }

  // ---------------------------------------------------------------- what is sent

  function Total(l: Limits, frames: seq<Frame>): nat {
    if frames == [] then 0 else l.size(frames[0]) + Total(l, frames[1..])
  }

  lemma {:induction false} TotalGrows(l: Limits, frames: seq<Frame>, f: Frame)
    ensures Total(l, frames + [f]) == Total(l, frames) + l.size(f)
    decreases |frames|
  {
    if frames == [] {
      assert frames + [f] == [f];
    } else {
      assert (frames + [f])[1..] == frames[1..] + [f];
      TotalGrows(l, frames[1..], f);
    }
  }

  /** The counters are those of the frames, and within the limits. */
  predicate Within(l: Limits, s: Sent) {
    |s.frames| <= l.maxEvents && s.bytes == Total(l, s.frames) <= l.maxBytes
  }

  lemma PushWithin(l: Limits, s: Sent, f: Frame)
    requires Within(l, s) && Fits(l, s, f)
    ensures Within(l, Push(l, s, f))
  {
    TotalGrows(l, s.frames, f);
  }

  lemma {:induction false} UpdatesWithin(l: Limits, j: Job, last: State, seen: seq<Option<Look>>, s: Sent)
    requires Within(l, s)
    ensures Within(l, Updates(l, j, last, seen, s))
    decreases |seen|
  {
    if seen != [] && seen[0].Some? {
      var x := seen[0].value;
      if x.state == last {
        UpdatesWithin(l, j, last, seen[1..], s);
      } else if x.state != Completed || Fits(l, s, ArtifactOf(j, x)) {
        var t := if x.state == Completed then Push(l, s, ArtifactOf(j, x)) else s;
        if x.state == Completed { PushWithin(l, s, ArtifactOf(j, x)); }
        if Fits(l, t, StatusOf(j, x)) {
          PushWithin(l, t, StatusOf(j, x));
          if !Terminal(x.state) { UpdatesWithin(l, j, x.state, seen[1..], Push(l, t, StatusOf(j, x))); }
        }
      }
    }
  }

  /** The limits bound the number of events and the bytes of every stream. */
  lemma ServeWithin(l: Limits, j: Job, first: Option<Look>, seen: seq<Option<Look>>)
    ensures |Serve(l, j, first, seen)| <= l.maxEvents && Total(l, Serve(l, j, first, seen)) <= l.maxBytes
  {
    if first.Some? {
      assert Within(l, NOTHING);
      if Fits(l, NOTHING, TaskOf(j, first.value)) { PushWithin(l, NOTHING, TaskOf(j, first.value)); }
      UpdatesWithin(l, j, first.value.state, seen, Snapshot(l, j, first.value));
    }
  }

  /** An update for this look: its state, or its output once it is complete. */
  predicate Sends(j: Job, x: Look, f: Frame) {
    f == StatusOf(j, x) || (x.state == Completed && f == ArtifactOf(j, x))
  }

  ghost predicate Reports(j: Job, seen: seq<Option<Look>>, f: Frame) {
    exists x :: Some(x) in seen && Sends(j, x, f)
  }

  lemma {:induction false} UpdatesReport(l: Limits, j: Job, last: State, seen: seq<Option<Look>>, s: Sent, f: Frame)
    requires f in Updates(l, j, last, seen, s).frames
    ensures f in s.frames || Reports(j, seen, f)
    decreases |seen|
  {
    if seen != [] && seen[0].Some? {
      var x := seen[0].value;
      assert Some(x) in seen && forall y :: y in seen[1..] ==> y in seen;
      if x.state == last {
        UpdatesReport(l, j, last, seen[1..], s, f);
      } else if x.state != Completed || Fits(l, s, ArtifactOf(j, x)) {
        var t := if x.state == Completed then Push(l, s, ArtifactOf(j, x)) else s;
        assert x.state == Completed ==> Sends(j, x, ArtifactOf(j, x));
        assert Sends(j, x, StatusOf(j, x));
        if Fits(l, t, StatusOf(j, x)) && !Terminal(x.state) {
          UpdatesReport(l, j, x.state, seen[1..], Push(l, t, StatusOf(j, x)), f);
        }
      }
    }
  }

  lemma ServeReports(l: Limits, j: Job, first: Look, seen: seq<Option<Look>>, f: Frame)
    requires f in Serve(l, j, Some(first), seen)
    ensures f == TaskOf(j, first) || Reports(j, seen, f)
  {
    if !Terminal(first.state) { UpdatesReport(l, j, first.state, seen, Snapshot(l, j, first), f); }
  }

  // ---------------------------------------------------------------- together

  /** Frames after the first `n` are updates under one identity, and a last state comes only at the end. */
  ghost predicate Follows(j: Job, frames: seq<Frame>, n: nat) {
    && n <= |frames|
    && (forall i :: n <= i < |frames| ==> !frames[i].Task? && frames[i].id == j.id && frames[i].context == Context(j))
    && (forall i :: 0 <= i < |frames| - 1 ==> frames[i].Artifact? || !Terminal(frames[i].state))
  }

  lemma PushFollows(j: Job, frames: seq<Frame>, f: Frame, n: nat)
    requires Follows(j, frames, n) && !f.Task? && f.id == j.id && f.context == Context(j)
    requires frames != [] ==> frames[|frames| - 1].Artifact? || !Terminal(frames[|frames| - 1].state)
    ensures Follows(j, frames + [f], n)
  {
  }

  lemma {:induction false} UpdatesFollow(l: Limits, j: Job, last: State, seen: seq<Option<Look>>, s: Sent, n: nat)
    requires Follows(j, s.frames, n)
    requires s.frames != [] ==> s.frames[|s.frames| - 1].Artifact? || !Terminal(s.frames[|s.frames| - 1].state)
    ensures
      var u := Updates(l, j, last, seen, s).frames;
      Follows(j, u, n) && s.frames <= u
    decreases |seen|
  {
    if seen != [] && seen[0].Some? {
      var x := seen[0].value;
      if x.state == last {
        UpdatesFollow(l, j, last, seen[1..], s, n);
      } else if x.state != Completed || Fits(l, s, ArtifactOf(j, x)) {
        var t := if x.state == Completed then Push(l, s, ArtifactOf(j, x)) else s;
        PushFollows(j, s.frames, ArtifactOf(j, x), n);
        PushFollows(j, t.frames, StatusOf(j, x), n);
        if Fits(l, t, StatusOf(j, x)) && !Terminal(x.state) {
          UpdatesFollow(l, j, x.state, seen[1..], Push(l, t, StatusOf(j, x)), n);
        }
      }
    }
  }

  /** The snapshot, if the limits let it through, and then updates only. */
  lemma ServeShape(l: Limits, j: Job, first: Look, seen: seq<Option<Look>>)
    ensures
      var s := Snapshot(l, j, first).frames;
      var frames := Serve(l, j, Some(first), seen);
      s <= frames && |s| <= 1 && Follows(j, frames, |s|)
  {
    var s := Snapshot(l, j, first);
    if !Terminal(first.state) { UpdatesFollow(l, j, first.state, seen, s, |s.frames|); }
  }

  /** Some frame before the last asks for input. */
  predicate AsksEarly(frames: seq<Frame>) {
    exists i :: 0 <= i < |frames| - 1 && !frames[i].Artifact? && frames[i].state == InputRequired
  }

  /** A served stream of at most 64 frames is accepted exactly when its snapshot went out, it has a session if
      anything follows, and the first state that is final for the client is on the last frame. */
  lemma ServedIsAccepted(l: Limits, j: Job, first: Look, seen: seq<Option<Look>>)
    requires |Serve(l, j, Some(first), seen)| <= EventFrames.MAX_FRAMES
    ensures
      var frames := Serve(l, j, Some(first), seen);
      WellFormed(frames) <==>
      && Fits(l, NOTHING, TaskOf(j, first))
      && (|frames| == 1 || Context(j) == j.session)
      && frames != [] && Ends(frames[|frames| - 1]) && !AsksEarly(frames)
  {
    var frames := Serve(l, j, Some(first), seen);
    ServeShape(l, j, first, seen);
    var s := Snapshot(l, j, first).frames;
    if Fits(l, NOTHING, TaskOf(j, first)) {
      assert s == [TaskOf(j, first)] && frames[0] == s[0];
      assert |frames| > 1 ==> frames[1].context == Context(j);
      forall i | 0 <= i < |frames| - 1
        ensures Ends(frames[i]) <==> !frames[i].Artifact? && frames[i].state == InputRequired
      {
      }
    } else {
      assert frames != [] ==> !frames[0].Task?;
    }
  }

  /** A run that goes from working to a last state, uncut, is accepted; a completed one carries its output first. */
  lemma {:induction false} UncutRun(l: Limits, j: Job, first: Look, seen: seq<Option<Look>>, n: nat)
    requires j.session != "" && first.state == Working
    requires n < |seen| && seen[n].Some? && Terminal(seen[n].value.state)
    requires forall i :: 0 <= i < n ==> seen[i].Some? && seen[i].value.state == Working
    requires l.maxEvents >= 3
    requires
      var x := seen[n].value;
      l.size(TaskOf(j, first)) + l.size(ArtifactOf(j, x)) + l.size(StatusOf(j, x)) <= l.maxBytes
    ensures
      var frames, x := Serve(l, j, Some(first), seen), seen[n].value;
      && frames == [TaskOf(j, first)] + (if x.state == Completed then [ArtifactOf(j, x)] else []) + [StatusOf(j, x)]
      && WellFormed(frames)
  {
    WaitsForChange(l, j, seen, n, Snapshot(l, j, first));
  }

  lemma {:induction false} WaitsForChange(l: Limits, j: Job, seen: seq<Option<Look>>, n: nat, s: Sent)
    requires n < |seen| && forall i :: 0 <= i < n ==> seen[i].Some? && seen[i].value.state == Working
    ensures Updates(l, j, Working, seen, s) == Updates(l, j, Working, seen[n..], s)
    decreases n
  {
    if n > 0 {
      WaitsForChange(l, j, seen[1..], n - 1, s);
      assert seen[1..][n - 1..] == seen[n..];
    } else {
      assert seen[0..] == seen;
    }
  }

  // ---------------------------------------------------------------- acceptance, from the inputs alone

  /** The next look that finds a state other than `last`, before the invocation is gone, and what is seen after it. */
  function Change(last: State, seen: seq<Option<Look>>): Option<(Look, seq<Option<Look>>)>
    decreases |seen|
  {
    if seen == [] || seen[0].None? then None
    else if seen[0].value.state == last then Change(last, seen[1..])
    else Some((seen[0].value, seen[1..]))
  }

  /** A change of state leads to another frame: the output of a completed invocation, or the new state. */
  predicate SendsMore(l: Limits, j: Job, last: State, seen: seq<Option<Look>>, s: Sent) {
    match Change(last, seen)
    case None => false
    case Some((x, _)) => Fits(l, s, if x.state == Completed then ArtifactOf(j, x) else StatusOf(j, x))
  }

  /** The stream after a change, if its frames fit. */
  function Changed(l: Limits, j: Job, x: Look, s: Sent): Option<Sent> {
    if x.state == Completed && !Fits(l, s, ArtifactOf(j, x)) then None
    else
      var t := if x.state == Completed then Push(l, s, ArtifactOf(j, x)) else s;
      if Fits(l, t, StatusOf(j, x)) then Some(Push(l, t, StatusOf(j, x))) else None
  }

  lemma {:induction false} UpdatesChange(l: Limits, j: Job, last: State, seen: seq<Option<Look>>, s: Sent)
    ensures
      match Change(last, seen)
      case None => Updates(l, j, last, seen, s) == s
      case Some((x, rest)) =>
        match Changed(l, j, x, s)
        case None => true
        case Some(t) =>
          Updates(l, j, last, seen, s) == if Terminal(x.state) then t else Updates(l, j, x.state, rest, t)
    decreases |seen|
  {
    if seen != [] && seen[0].Some? && seen[0].value.state == last { UpdatesChange(l, j, last, seen[1..], s); }
  }

  /** A change whose frames do not all fit leaves no final state behind. */
  lemma {:induction false} UpdatesCut(l: Limits, j: Job, last: State, seen: seq<Option<Look>>, s: Sent)
    requires Change(last, seen).Some? && Changed(l, j, Change(last, seen).value.0, s).None?
    ensures
      var u := Updates(l, j, last, seen, s).frames;
      u == s.frames || u == s.frames + [ArtifactOf(j, Change(last, seen).value.0)]
    decreases |seen|
  {
    if seen != [] && seen[0].Some? && seen[0].value.state == last { UpdatesCut(l, j, last, seen[1..], s); }
  }

  lemma {:induction false} UpdatesGrow(l: Limits, j: Job, last: State, seen: seq<Option<Look>>, s: Sent)
    ensures
      var u := Updates(l, j, last, seen, s).frames;
      s.frames <= u && (SendsMore(l, j, last, seen, s) <==> |s.frames| < |u|)
    decreases |seen|
  {
    if seen != [] && seen[0].Some? {
      var x := seen[0].value;
      if x.state == last {
        UpdatesGrow(l, j, last, seen[1..], s);
      } else if Changed(l, j, x, s).Some? && !Terminal(x.state) {
        UpdatesGrow(l, j, x.state, seen[1..], Changed(l, j, x, s).value);
      }
    }
  }

  /** The snapshot went out, and the first state that is final for the client is the last thing sent. */
  predicate EndsWell(l: Limits, j: Job, first: Look, seen: seq<Option<Look>>) {
    var s := Snapshot(l, j, first);
    && Fits(l, NOTHING, TaskOf(j, first))
    && match first.state
       case InputRequired => !SendsMore(l, j, InputRequired, seen, s)
       case Working =>
         (match Change(Working, seen)
          case None => false
          case Some((x, rest)) =>
            (match Changed(l, j, x, s)
             case None => false
             case Some(t) =>
               Context(j) == j.session && (x.state == InputRequired ==> !SendsMore(l, j, InputRequired, rest, t))))
       case _ => true
  }

  /** Frames that go on after a final one are refused. */
  lemma GoesOn(frames: seq<Frame>, i: nat)
    requires i < |frames| - 1 && Ends(frames[i])
    ensures !WellFormed(frames)
  {
  }

  lemma FirstInput(l: Limits, j: Job, first: Look, seen: seq<Option<Look>>)
    requires first.state == InputRequired
    ensures WellFormed(Serve(l, j, Some(first), seen)) <==> EndsWell(l, j, first, seen)
  {
    var s := Snapshot(l, j, first);
    var frames := Serve(l, j, Some(first), seen);
    ServeShape(l, j, first, seen);
    UpdatesGrow(l, j, InputRequired, seen, s);
    if s.frames != [] && |s.frames| < |frames| {
      assert frames[0] == s.frames[0];
      GoesOn(frames, 0);
    }
  }

  /** After a change from working to a final state the stream must stop. */
  lemma WorkingChanges(l: Limits, j: Job, first: Look, seen: seq<Option<Look>>, t: Sent)
    requires first.state == Working && Fits(l, NOTHING, TaskOf(j, first)) && Change(Working, seen).Some?
    requires Changed(l, j, Change(Working, seen).value.0, Snapshot(l, j, first)) == Some(t)
    ensures WellFormed(Serve(l, j, Some(first), seen)) <==> EndsWell(l, j, first, seen)
  {
    var (x, rest) := Change(Working, seen).value;
    var s := Snapshot(l, j, first);
    ChangeDiffers(Working, seen);
    UpdatesChange(l, j, Working, seen, s);
    var frames := Serve(l, j, Some(first), seen);
    if !Terminal(x.state) { UpdatesGrow(l, j, x.state, rest, t); }
    assert t.frames <= frames && frames[0] == TaskOf(j, first);
    var n := |t.frames| - 1;
    assert frames[n] == t.frames[n] == StatusOf(j, x);
    if n < |frames| - 1 { GoesOn(frames, n); }
  }

  lemma {:induction false} ChangeDiffers(last: State, seen: seq<Option<Look>>)
    ensures Change(last, seen).Some? ==> Change(last, seen).value.0.state != last
    decreases |seen|
  {
    if seen != [] && seen[0].Some? && seen[0].value.state == last { ChangeDiffers(last, seen[1..]); }
  }

  lemma WorkingStays(l: Limits, j: Job, first: Look, seen: seq<Option<Look>>)
    requires first.state == Working
    requires Change(Working, seen).None? || Changed(l, j, Change(Working, seen).value.0, Snapshot(l, j, first)).None?
    ensures !WellFormed(Serve(l, j, Some(first), seen))
  {
    var s := Snapshot(l, j, first);
    UpdatesChange(l, j, Working, seen, s);
    if Change(Working, seen).Some? { UpdatesCut(l, j, Working, seen, s); }
    var frames := Serve(l, j, Some(first), seen);
    assert frames != [] ==> !Ends(frames[|frames| - 1]);
  }

  /** For all limits, sessions, first states and later ones: the client accepts what is served exactly when the snapshot
      fits, and the first final state, sent in full under the snapshot's context, is followed by nothing. */
  lemma AcceptedExactly(l: Limits, j: Job, first: Look, seen: seq<Option<Look>>)
    ensures WellFormed(Serve(l, j, Some(first), seen)) <==> EndsWell(l, j, first, seen)
  {
    if !Fits(l, NOTHING, TaskOf(j, first)) {
      ServeShape(l, j, first, seen);
    } else {
      match first.state {
        case InputRequired => FirstInput(l, j, first, seen);
        case Working =>
          var c := Change(Working, seen);
          if c.Some? && Changed(l, j, c.value.0, Snapshot(l, j, first)).Some? {
            WorkingChanges(l, j, first, seen, Changed(l, j, c.value.0, Snapshot(l, j, first)).value);
          } else {
            WorkingStays(l, j, first, seen);
          }
        case Completed =>
        case Failed =>
        case Canceled =>
      }
    }
  }

  /** The two ends disagree about a request for input: if the server sends anything after one, the client refuses. */
  lemma ResumedIsRefused(l: Limits, j: Job, first: Look, seen: seq<Option<Look>>)
    ensures first.state == InputRequired && SendsMore(l, j, InputRequired, seen, Snapshot(l, j, first)) ==>
              !WellFormed(Serve(l, j, Some(first), seen))
    ensures
      var c := Change(Working, seen);
      first.state == Working && c.Some? && c.value.0.state == InputRequired ==>
        var t := Changed(l, j, c.value.0, Snapshot(l, j, first));
        t.Some? && SendsMore(l, j, InputRequired, c.value.1, t.value) ==> !WellFormed(Serve(l, j, Some(first), seen))
  {
    AcceptedExactly(l, j, first, seen);
  }

  /** A snapshot that exceeds the limits is skipped, and whatever is streamed then is refused. */
  lemma SkippedIsRefused(l: Limits, j: Job, first: Look, seen: seq<Option<Look>>)
    requires !Fits(l, NOTHING, TaskOf(j, first))
    ensures !WellFormed(Serve(l, j, Some(first), seen))
    ensures !Terminal(first.state) && SendsMore(l, j, first.state, seen, NOTHING) ==>
            Serve(l, j, Some(first), seen) != []
  {
    AcceptedExactly(l, j, first, seen);
    UpdatesGrow(l, j, first.state, seen, NOTHING);
  }

  /** The one update after a skipped snapshot. */
  lemma SkippedServed(l: Limits, j: Job, x: Look, y: Look)
    requires x.state == InputRequired && y.state == Failed
    requires !Fits(l, NOTHING, TaskOf(j, x)) && Fits(l, NOTHING, StatusOf(j, y))
    ensures Serve(l, j, Some(x), [Some(y)]) == [StatusOf(j, y)] && !WellFormed(Serve(l, j, Some(x), [Some(y)]))
  {
    SkippedIsRefused(l, j, x, [Some(y)]);
  }

  /** The stream of a task that asks for input, goes on and completes, under any limits that have room for it. */
  lemma ResumedServed(l: Limits, j: Job, first: Look, asks: Look, resumed: Look, done: Look)
    requires first.state == Working && asks.state == InputRequired && resumed.state == Working
             && done.state == Completed
    requires l.maxEvents >= 5
    requires l.size(TaskOf(j, first)) + l.size(StatusOf(j, asks)) + l.size(StatusOf(j, resumed))
             + l.size(ArtifactOf(j, done)) + l.size(StatusOf(j, done)) <= l.maxBytes
    ensures
      var frames := [TaskOf(j, first), StatusOf(j, asks), StatusOf(j, resumed), ArtifactOf(j, done), StatusOf(j, done)];
      Serve(l, j, Some(first), [Some(asks), Some(resumed), Some(done)]) == frames && !WellFormed(frames)
  {
    var seen := [Some(asks), Some(resumed), Some(done)];
    assert seen[1..] == [Some(resumed), Some(done)] && seen[1..][1..] == [Some(done)];
    var s1 := Push(l, NOTHING, TaskOf(j, first));
    var s2 := Push(l, s1, StatusOf(j, asks));
    var s3 := Push(l, s2, StatusOf(j, resumed));
    assert Updates(l, j, Working, seen, s1) == Updates(l, j, InputRequired, seen[1..], s2);
    assert Updates(l, j, InputRequired, seen[1..], s2) == Updates(l, j, Working, seen[1..][1..], s3);
    GoesOn(Serve(l, j, Some(first), seen), 1);
  }
}
