/** The JSON of a streamed response (a2a_streaming.py, a2a_tasks.py) and its length. */
module StreamJson {
  import opened Prelude
  import opened Strings
  import opened JsonText
  import opened TaskStreams

  // ---------------------------------------------------------------- as the server builds it

  function One(key: string, value: Json): Fields { Entry(key, value, NoFields) }

  function Single(v: Json): Json { Arr(Item(v, NoItems)) }

  /** `_output_part`. */
  function Part(output: Json): Json {
    if output.Str? then TextPart(output.s)
    else Obj(Entry("data", output, One("mediaType", Str("application/json"))))
  }

  function TextPart(text: string): Json { Obj(Entry("text", Str(text), One("mediaType", Str("text/plain")))) }

  function OutputOf(id: string, output: Json): Json {
    Obj(Entry("artifactId", Str(id + ":output"),
              Entry("name", Str("workflow-output"), One("parts", Single(Part(output))))))
  }

  /** `_status_message`. */
  function Message(id: string, context: string, suffix: string, text: string): Json {
    Obj(Entry("messageId", Str(id + ":" + suffix), Entry("contextId", Str(context), Entry("taskId", Str(id),
        Entry("role", Str("ROLE_AGENT"), One("parts", Single(TextPart(text))))))))
  }

  function Code(error: Json): string {
    if error.Str? && error.s != "" then error.s else "workflow_execution_error"
  }

  function StatusFields(id: string, context: string, state: State, detail: Json): Fields {
    match state
    case Failed => One("message", Message(id, context, "error", "workflow failed: " + Code(detail)))
    case InputRequired => One("message", Message(id, context, "input-required", "additional input is required"))
    case _ => NoFields
  }

  /** `project_a2a_task`. */
  function TaskJson(id: string, context: string, state: State, detail: Json): Json {
    Obj(Entry("id", Str(id), Entry("contextId", Str(context),
        Entry("status", Obj(Entry("state", Str(StateName(state)), StatusFields(id, context, state, detail))),
          if state == Completed then One("artifacts", Single(OutputOf(id, detail))) else NoFields))))
  }

  function ArtifactJson(id: string, context: string, output: Json): Json {
    Obj(Entry("taskId", Str(id), Entry("contextId", Str(context),
        Entry("artifact", OutputOf(id, output), One("lastChunk", Bool(true))))))
  }

  function StatusJson(id: string, context: string, state: State): Json {
    Obj(Entry("taskId", Str(id), Entry("contextId", Str(context),
        One("status", Obj(One("state", Str(StateName(state))))))))
  }

  function FrameJson(f: Frame): Json {
    match f
    case Task(_, id, context, state, detail) => Obj(One("task", TaskJson(id, context, state, detail)))
    case Artifact(_, id, context, detail) => Obj(One("artifactUpdate", ArtifactJson(id, context, detail)))
    case Status(_, id, context, state) => Obj(One("statusUpdate", StatusJson(id, context, state)))
  }

  function Wrapped(rpc: Json, v: Json): Json {
    Obj(Entry("jsonrpc", Str("2.0"), Entry("id", rpc, One("result", v))))
  }

  /** The payload, alone or as the result of a JSON-RPC request. */
  function Payload(rpc: Option<Json>, f: Frame): Json {
    if rpc.None? then FrameJson(f) else Wrapped(rpc.value, FrameJson(f))
  }

  // ---------------------------------------------------------------- a payload determines what its frame says

  /** What the payload says: not the event id, and only the details that the state calls for. */
  function Bare(f: Frame): Frame {
    match f
    case Task(_, id, context, state, detail) =>
      Task("", id, context, state,
           if state == Completed then detail else if state == Failed then Str(Code(detail)) else Null)
    case Artifact(_, id, context, detail) => Artifact("", id, context, detail)
    case Status(_, id, context, state) => Status("", id, context, state)
  }

  lemma NamesDiffer(a: State, b: State)
    ensures StateName(a) == StateName(b) <==> a == b
  {
    assert |StateName(Working)| == 18 && |StateName(InputRequired)| == 25 && |StateName(Completed)| == 20;
    assert |StateName(Failed)| == 17 && |StateName(Canceled)| == 19;
  }

  lemma PartsDiffer(a: Json, b: Json)
    ensures Part(a) == Part(b) <==> a == b
  {
    assert |"text"| == 4 && "text"[0] == 't' && "data"[0] == 'd';
  }

  lemma TasksDiffer(id: string, context: string, a: State, d: Json, b: State, e: Json)
    requires TaskJson(id, context, a, d) == TaskJson(id, context, b, e)
    ensures a == b && (a == Completed ==> d == e) && (a == Failed ==> Code(d) == Code(e))
  {
    NamesDiffer(a, b);
    if a == Completed { PartsDiffer(d, e); }
    if a == Failed {
      var x, y := "workflow failed: " + Code(d), "workflow failed: " + Code(e);
      assert Message(id, context, "error", x) == Message(id, context, "error", y);
      assert x == y;
      Cancel("workflow failed: ", Code(d), Code(e));
    }
  }

  /** Two frames with one payload say the same. */
  lemma PayloadsDiffer(rpc: Option<Json>, f: Frame, g: Frame)
    requires Payload(rpc, f) == Payload(rpc, g)
    ensures Bare(f) == Bare(g)
  {
    assert FrameJson(f) == FrameJson(g);
    assert "task"[0] == 't' && "artifactUpdate"[0] == 'a' && "statusUpdate"[0] == 's';
    match f {
      case Task(_, id, context, state, detail) => TasksDiffer(id, context, state, detail, g.state, g.detail);
      case Artifact(_, _, _, detail) => PartsDiffer(detail, g.detail);
      case Status(_, _, _, state) => NamesDiffer(state, g.state);
    }
  }

  // ---------------------------------------------------------------- validity, simplicity and length

  lemma EntryOk(key: string, value: Json, rest: Fields)
    ensures ValidFields(Entry(key, value, rest)) <==> Valid(value) && ValidFields(rest)
    ensures SimpleFields(Entry(key, value, rest)) <==> Simple(key) && SimpleJson(value) && SimpleFields(rest)
    ensures FieldsLength(Entry(key, value, rest)) == |key| + 4 + Length(value) + FieldsLength(rest)
  {
  }

  lemma OneOk(key: string, value: Json)
    ensures ValidFields(One(key, value)) <==> Valid(value)
    ensures SimpleFields(One(key, value)) <==> Simple(key) && SimpleJson(value)
    ensures FieldsLength(One(key, value)) == |key| + 4 + Length(value)
  {
  }

  lemma SingleOk(v: Json)
    ensures Valid(Single(v)) <==> Valid(v)
    ensures SimpleJson(Single(v)) <==> SimpleJson(v)
    ensures Length(Single(v)) == 2 + Length(v)
  {
    assert ItemsLength(Item(v, NoItems)) == Length(v) + 1 + ItemsLength(NoItems);
    assert ValidItems(Item(v, NoItems)) <==> Valid(v) && ValidItems(NoItems);
    assert SimpleItems(Item(v, NoItems)) <==> SimpleJson(v) && SimpleItems(NoItems);
  }

  lemma TextPartOk(text: string)
    ensures Valid(TextPart(text)) && (Simple(text) ==> SimpleJson(TextPart(text)))
    ensures Length(TextPart(text)) == |text| + 36
  {
    OneOk("mediaType", Str("text/plain"));
    EntryOk("text", Str(text), One("mediaType", Str("text/plain")));
  }

  lemma PartOk(output: Json)
    ensures Valid(output) ==> Valid(Part(output))
    ensures SimpleJson(output) ==> SimpleJson(Part(output))
    ensures Length(Part(output)) <= Length(output) + 42
  {
    if output.Str? {
      TextPartOk(output.s);
    } else {
      OneOk("mediaType", Str("application/json"));
      EntryOk("data", output, One("mediaType", Str("application/json")));
    }
  }

  lemma OutputOk(id: string, output: Json)
    ensures Valid(output) ==> Valid(OutputOf(id, output))
    ensures Simple(id) && SimpleJson(output) ==> SimpleJson(OutputOf(id, output))
    ensures Length(OutputOf(id, output)) <= |id| + Length(output) + 108
  {
    PartOk(output);
    SingleOk(Part(output));
    var parts := One("parts", Single(Part(output)));
    OneOk("parts", Single(Part(output)));
    EntryOk("name", Str("workflow-output"), parts);
    EntryOk("artifactId", Str(id + ":output"), Entry("name", Str("workflow-output"), parts));
    assert Simple(":output");
  }

  lemma MessageOk(id: string, context: string, suffix: string, text: string)
    ensures Valid(Message(id, context, suffix, text))
    ensures Simple(id) && Simple(context) && Simple(suffix) && Simple(text) ==>
              SimpleJson(Message(id, context, suffix, text))
    ensures Length(Message(id, context, suffix, text)) == 2 * |id| + |context| + |suffix| + |text| + 111
  {
    TextPartOk(text);
    SingleOk(TextPart(text));
    var parts := One("parts", Single(TextPart(text)));
    OneOk("parts", Single(TextPart(text)));
    var role := Entry("role", Str("ROLE_AGENT"), parts);
    EntryOk("role", Str("ROLE_AGENT"), parts);
    var task := Entry("taskId", Str(id), role);
    EntryOk("taskId", Str(id), role);
    EntryOk("contextId", Str(context), task);
    EntryOk("messageId", Str(id + ":" + suffix), Entry("contextId", Str(context), task));
  }

  predicate ValidFrame(f: Frame) { f.Status? || Valid(f.detail) }

  predicate SimpleFrame(f: Frame) {
    Simple(f.event) && Simple(f.id) && Simple(f.context) && (!f.Status? ==> SimpleJson(f.detail))
  }

  lemma NameOk(state: State)
    ensures Simple(StateName(state)) && |StateName(state)| <= 25
  {
  }

  lemma MessageFieldOk(id: string, context: string, suffix: string, text: string)
    ensures
      var fields := One("message", Message(id, context, suffix, text));
      && ValidFields(fields)
      && (Simple(id) && Simple(context) && Simple(suffix) && Simple(text) ==> SimpleFields(fields))
      && FieldsLength(fields) == 2 * |id| + |context| + |suffix| + |text| + 122
  {
    MessageOk(id, context, suffix, text);
    OneOk("message", Message(id, context, suffix, text));
  }

  lemma AskSimple()
    ensures Simple("input-required") && Simple("additional input is required")
  {
  }

  lemma AskOk(id: string, context: string, detail: Json)
    ensures
      var fields := StatusFields(id, context, InputRequired, detail);
      && ValidFields(fields) && (Simple(id) && Simple(context) ==> SimpleFields(fields))
      && FieldsLength(fields) == 2 * |id| + |context| + 164
  {
    AskSimple();
    MessageFieldOk(id, context, "input-required", "additional input is required");
  }

  lemma StatusFieldsOk(id: string, context: string, state: State, detail: Json)
    ensures
      var fields := StatusFields(id, context, state, detail);
      && ValidFields(fields) && (Simple(id) && Simple(context) && SimpleJson(detail) ==> SimpleFields(fields))
      && (state == InputRequired ==> FieldsLength(fields) == 2 * |id| + |context| + 164)
      && (state == Working ==> FieldsLength(fields) == 0)
  {
    match state {
      case InputRequired => AskOk(id, context, detail);
      case Failed => FailureOk(id, context, detail);
      case _ =>
    }
  }

  lemma FailureOk(id: string, context: string, detail: Json)
    ensures ValidFields(StatusFields(id, context, Failed, detail))
    ensures Simple(id) && Simple(context) && SimpleJson(detail) ==>
              SimpleFields(StatusFields(id, context, Failed, detail))
  {
    ReasonSimple(detail);
    MessageFieldOk(id, context, "error", "workflow failed: " + Code(detail));
  }

  lemma ReasonSimple(detail: Json)
    ensures SimpleJson(detail) ==> Simple("workflow failed: " + Code(detail))
  {
    assert Simple("workflow failed: ") && Simple("workflow_execution_error");
  }

  lemma TaskOk(id: string, context: string, state: State, detail: Json)
    requires Valid(detail)
    ensures Valid(TaskJson(id, context, state, detail))
    ensures Simple(id) && Simple(context) && SimpleJson(detail) ==> SimpleJson(TaskJson(id, context, state, detail))
    ensures state == Working ==> Length(TaskJson(id, context, state, detail)) == |id| + |context| + 64
    ensures state == InputRequired ==> Length(TaskJson(id, context, state, detail)) == 3 * |id| + 2 * |context| + 235
  {
    var fields := StatusFields(id, context, state, detail);
    StatusFieldsOk(id, context, state, detail);
    NameOk(state);
    EntryOk("state", Str(StateName(state)), fields);
    OutputOk(id, detail);
    SingleOk(OutputOf(id, detail));
    OneOk("artifacts", Single(OutputOf(id, detail)));
    TaskFieldsOk(id, context, Obj(Entry("state", Str(StateName(state)), fields)),
                 if state == Completed then One("artifacts", Single(OutputOf(id, detail))) else NoFields);
  }

  lemma TaskFieldsOk(id: string, context: string, status: Json, rest: Fields)
    requires Valid(status) && ValidFields(rest)
    ensures
      var v := Obj(Entry("id", Str(id), Entry("contextId", Str(context), Entry("status", status, rest))));
      && Valid(v)
      && (Simple(id) && Simple(context) && SimpleJson(status) && SimpleFields(rest) ==> SimpleJson(v))
      && Length(v) == |id| + |context| + Length(status) + FieldsLength(rest) + 34
  {
    EntryOk("status", status, rest);
    EntryOk("contextId", Str(context), Entry("status", status, rest));
    EntryOk("id", Str(id), Entry("contextId", Str(context), Entry("status", status, rest)));
  }

  lemma StatusOk(id: string, context: string, state: State)
    ensures Valid(StatusJson(id, context, state))
    ensures Simple(id) && Simple(context) ==> SimpleJson(StatusJson(id, context, state))
    ensures Length(StatusJson(id, context, state)) == |id| + |context| + |StateName(state)| + 50
  {
    NameOk(state);
    OneOk("state", Str(StateName(state)));
    var status := One("status", Obj(One("state", Str(StateName(state)))));
    OneOk("status", Obj(One("state", Str(StateName(state)))));
    EntryOk("contextId", Str(context), status);
    EntryOk("taskId", Str(id), Entry("contextId", Str(context), status));
  }

  lemma ArtifactOk(id: string, context: string, output: Json)
    requires Valid(output)
    ensures Valid(ArtifactJson(id, context, output))
    ensures Simple(id) && Simple(context) && SimpleJson(output) ==> SimpleJson(ArtifactJson(id, context, output))
    ensures Length(ArtifactJson(id, context, output)) <= 2 * |id| + |context| + Length(output) + 165
  {
    OutputOk(id, output);
    OneOk("lastChunk", Bool(true));
    var rest := Entry("artifact", OutputOf(id, output), One("lastChunk", Bool(true)));
    EntryOk("artifact", OutputOf(id, output), One("lastChunk", Bool(true)));
    EntryOk("contextId", Str(context), rest);
    EntryOk("taskId", Str(id), Entry("contextId", Str(context), rest));
  }

  lemma TaskFrameOk(f: Frame)
    requires f.Task? && ValidFrame(f)
    ensures Valid(FrameJson(f)) && (SimpleFrame(f) ==> SimpleJson(FrameJson(f)))
    ensures f.state == Working ==> Length(FrameJson(f)) == |f.id| + |f.context| + 73
    ensures f.state == InputRequired ==> Length(FrameJson(f)) == 3 * |f.id| + 2 * |f.context| + 244
  {
    TaskOk(f.id, f.context, f.state, f.detail);
    OneOk("task", TaskJson(f.id, f.context, f.state, f.detail));
  }

  lemma ArtifactFrameOk(f: Frame)
    requires f.Artifact? && ValidFrame(f)
    ensures Valid(FrameJson(f)) && (SimpleFrame(f) ==> SimpleJson(FrameJson(f)))
    ensures Length(FrameJson(f)) <= 2 * |f.id| + |f.context| + Length(f.detail) + 184
  {
    ArtifactOk(f.id, f.context, f.detail);
    OneOk("artifactUpdate", ArtifactJson(f.id, f.context, f.detail));
  }

  lemma StatusFrameOk(f: Frame)
    requires f.Status?
    ensures Valid(FrameJson(f)) && (SimpleFrame(f) ==> SimpleJson(FrameJson(f)))
    ensures Length(FrameJson(f)) == |f.id| + |f.context| + |StateName(f.state)| + 67
  {
    StatusOk(f.id, f.context, f.state);
    OneOk("statusUpdate", StatusJson(f.id, f.context, f.state));
  }

  lemma FrameOk(f: Frame)
    requires ValidFrame(f)
    ensures Valid(FrameJson(f)) && (SimpleFrame(f) ==> SimpleJson(FrameJson(f)))
  {
    if f.Task? { TaskFrameOk(f); } else if f.Artifact? { ArtifactFrameOk(f); } else { StatusFrameOk(f); }
  }

  lemma WrapOk(rpc: Json, v: Json)
    requires Valid(rpc) && Valid(v)
    ensures Valid(Wrapped(rpc, v))
    ensures SimpleJson(rpc) && SimpleJson(v) ==> SimpleJson(Wrapped(rpc, v))
    ensures Length(Wrapped(rpc, v)) == Length(v) + Length(rpc) + 33
  {
    OneOk("result", v);
    EntryOk("id", rpc, One("result", v));
    EntryOk("jsonrpc", Str("2.0"), Entry("id", rpc, One("result", v)));
  }

  lemma PayloadOk(rpc: Option<Json>, f: Frame)
    requires ValidFrame(f) && (rpc.Some? ==> Valid(rpc.value))
    ensures Valid(Payload(rpc, f))
    ensures SimpleFrame(f) && (rpc.Some? ==> SimpleJson(rpc.value)) ==> SimpleJson(Payload(rpc, f))
    ensures Length(Payload(rpc, f)) == Length(FrameJson(f)) + if rpc.Some? then Length(rpc.value) + 33 else 0
  {
    FrameOk(f);
    if rpc.Some? { WrapOk(rpc.value, FrameJson(f)); }
  }
}
