/** The effect journal: first-owner intents and write-once outcomes (effects.py, _effect_storage.py).

    Row keys are the identities themselves: the source keys rows by a SHA-256 digest of the identity's
    canonical JSON, taken to be injective. Verification callbacks behind `get`, execution leases and
    authorization participants are inputs of each call. */
module Effects {
  import opened Prelude

  type InvocationId = string
  type Digest = string
  type Json = string

  datatype EffectIdentity = EffectIdentity(
    invocation: InvocationId,
    fingerprint: Digest,
    taskReference: string,
    occurrence: seq<(string, int)>,
    operation: string)

  datatype Status = Pending | Completed | Faulted

  datatype EffectError = EffectError(code: string, message: string, details: Json)

  datatype ChildDependency = ChildDependency(
    invocation: InvocationId,
    recordDigest: Digest,
    provenance: Option<(Digest, Digest)>)

  datatype EffectReceipt = EffectReceipt(
    requestDigest: Digest,
    owner: string,
    status: Status,
    output: Option<Json>,
    error: Option<EffectError>,
    errorStatusCode: Option<int>,
    operationId: Option<string>,
    child: Option<ChildDependency>,
    external: Option<Digest>)

  /** The receipt an intent proposes: everything but the request and its owner is still open. */
  function Intent(digest: Digest, owner: string, operationId: Option<string>): EffectReceipt {
    EffectReceipt(digest, owner, Pending, None, None, None, operationId, None, None)
  }

  predicate IsDigest(text: string) {
    |text| == 64 && forall i :: 0 <= i < |text| ==> 'a' <= text[i] <= 'f' || '0' <= text[i] <= '9'
  }

  /** What the receipt constructor accepts. */
  predicate ValidReceipt(r: EffectReceipt) {
    && IsDigest(r.requestDigest)
    && r.owner != ""
    && (r.status == Faulted <==> r.error.Some?)
    && (r.status != Completed ==> r.output.None?)
    && (r.errorStatusCode.Some? ==> r.error.Some? && 100 <= r.errorStatusCode.value <= 599)
    && (r.child.Some? ==> r.status != Pending)
    && (r.external.Some? ==> r.status != Pending && r.child.None?)
  }

  datatype IndexRow = IndexRow(invocation: InvocationId, fingerprint: Digest, payload: EffectIdentity)

  datatype EffectRow = EffectRow(owner: string, status: Status, payload: EffectReceipt)

  datatype Tables = Tables(index: map<EffectIdentity, IndexRow>, effects: map<EffectIdentity, EffectRow>)

  datatype JournalError =
    | Unreadable      // a stored receipt failed its verification
    | NotStored       // the write was rolled back
    | NotOwned        // completion by another owner, or of an unknown intent
    | RequestDiffers
    | NotPolicy
    | NoAuthority     // no current execution lease
    | NotRecorded

  type Verifier = (EffectIdentity, EffectReceipt) -> bool

  function IndexOf(id: EffectIdentity): IndexRow {
    IndexRow(id.invocation, id.fingerprint, id)
  }

  function RowOf(receipt: EffectReceipt): EffectRow {
    EffectRow(receipt.owner, receipt.status, receipt)
  }

  /** `get`: absent, or a stored receipt that passes its constructor, its columns and its verifier. */
  function Get(t: Tables, id: EffectIdentity, verified: Verifier): Result<Option<EffectReceipt>, JournalError> {
    if id !in t.effects then Ok(None)
    else
      var row := t.effects[id];
      if ValidReceipt(row.payload) && row == RowOf(row.payload) && verified(id, row.payload)
      then Ok(Some(row.payload)) else Err(Unreadable)
  }

  /** INSERT ... ON CONFLICT DO NOTHING. */
  function InsertAbsent<K, V>(m: map<K, V>, k: K, v: V): map<K, V> {
    if k in m then m else m[k := v]
  }

  /** Conditional outcome write: WHERE identity = ? AND owner = ? AND status = 'pending'. */
  function WriteOutcome(t: Tables, id: EffectIdentity, owner: string, proposed: EffectReceipt): Tables {
    if id in t.effects && t.effects[id].owner == owner && t.effects[id].status == Pending
    then t.(effects := t.effects[id := EffectRow(owner, proposed.status, proposed)])
    else t
  }

  /** `_insert_receipt`: both rows are inserted unless present, then the outcome is read back. */
  function InsertReceipt(t: Tables, id: EffectIdentity, receipt: EffectReceipt): Result<Tables, JournalError> {
    if id in t.index && t.index[id] != IndexOf(id) then Err(NotStored)
    else
      var t' := Tables(InsertAbsent(t.index, id, IndexOf(id)), InsertAbsent(t.effects, id, RowOf(receipt)));
      if t'.effects[id] == RowOf(receipt) then Ok(t') else Err(NotStored)
  }

  datatype Reply = Reply(
    output: Option<Json>,
    error: Option<EffectError>,
    errorStatusCode: Option<int>)

  function Outcome(recorded: EffectReceipt, reply: Reply, operationId: Option<string>,
                   child: Option<ChildDependency>): EffectReceipt {
    recorded.(status := if reply.error.Some? then Faulted else Completed,
              output := reply.output,
              error := reply.error,
              errorStatusCode := reply.errorStatusCode,
              operationId := if operationId.Some? then operationId else recorded.operationId,
              child := child)
  }

  /** One call on the journal together with everything outside the journal it depends on. */
  datatype Op =
    | Begin(id: EffectIdentity, digest: Digest, owner: string, operationId: Option<string>, authority: bool,
            participant: bool)
    | RecordValue(id: EffectIdentity, digest: Digest, value: Option<Json>, authority: bool)
    | Finish(id: EffectIdentity, owner: string, reply: Reply, operationId: Option<string>,
             child: Option<ChildDependency>)
    | FinishOwned(id: EffectIdentity, owner: string, reply: Reply, operationId: Option<string>,
                  child: Option<ChildDependency>, authority: bool, participant: bool, stillOwned: bool)
    | FinishChild(id: EffectIdentity, digest: Digest, reply: Reply, captured: Option<ChildDependency>, bound: bool,
                  authority: bool, participant: bool)

  type Answer = Result<EffectReceipt, JournalError>

  /** The receipt `get` finds after a commit, or the error the call then raises. */
  function Stored(t: Tables, id: EffectIdentity, verified: Verifier, missing: JournalError): Answer {
    match Get(t, id, verified)
    case Err(e) => Err(e)
    case Ok(None) => Err(missing)
    case Ok(Some(r)) => Ok(r)
  }

  function ApplyBegin(t: Tables, op: Op, verified: Verifier): (Tables, Answer)
    requires op.Begin?
  {
    var proposed := Intent(op.digest, op.owner, op.operationId);
    var existing := Get(t, op.id, verified);
    if !ValidReceipt(proposed) then (t, Err(NotStored))
    else if !op.authority then (t, Err(NoAuthority))
    else if existing.Err? then (t, Err(NotStored))
    else
      var t' := Tables(InsertAbsent(t.index, op.id, IndexOf(op.id)), InsertAbsent(t.effects, op.id, RowOf(proposed)));
      var pending := if existing.value.Some? then existing.value.value else proposed;
      if pending.status == Pending && !op.participant then (t, Err(NotStored))
      else
        var recorded := Stored(t', op.id, verified, NotRecorded);
        (t', if recorded.Ok? && recorded.value.requestDigest != op.digest then Err(RequestDiffers) else recorded)
  }

  function ApplyRecordValue(t: Tables, op: Op, verified: Verifier): (Tables, Answer)
    requires op.RecordValue?
  {
    if !("policy:" <= op.id.operation) then (t, Err(NotPolicy))
    else
      var existing := Get(t, op.id, verified);
      var proposed := Intent(op.digest, "policy", None).(status := Completed, output := op.value);
      if !op.authority then (t, Err(NoAuthority))
      else if existing.Err? || (existing.value.None? && !ValidReceipt(proposed)) then (t, Err(NotStored))
      else
        var inserted := if existing.value.None? then InsertReceipt(t, op.id, proposed) else Ok(t);
        if inserted.Err? then (t, Err(NotStored))
        else
          var recorded := Stored(inserted.value, op.id, verified, NotRecorded);
          if recorded.Ok? && recorded.value.status == Completed && recorded.value.requestDigest == op.digest
          then (inserted.value, recorded) else (t, Err(NotStored))
  }

  function ApplyFinish(t: Tables, op: Op, verified: Verifier): (Tables, Answer)
    requires op.Finish?
  {
    var recorded := Stored(t, op.id, verified, NotOwned);
    if recorded.Err? then (t, recorded)
    else if recorded.value.owner != op.owner then (t, Err(NotOwned))
    else
      var proposed := Outcome(recorded.value, op.reply, op.operationId, op.child);
      if !ValidReceipt(proposed) then (t, Err(NotStored))
      else
        var t' := WriteOutcome(t, op.id, op.owner, proposed);
        var completed := Stored(t', op.id, verified, NotRecorded);
        // The write above is already committed: a failing read-back does not undo it.
        (t', if completed.Ok? && (completed.value.owner != op.owner || completed.value.status == Pending)
             then Err(NotRecorded) else completed)
  }

  function ApplyFinishOwned(t: Tables, op: Op, verified: Verifier): (Tables, Answer)
    requires op.FinishOwned?
  {
    if !op.authority then (t, Err(NoAuthority))
    else
      var recorded := Stored(t, op.id, verified, NotOwned);
      if recorded.Err? || recorded.value.owner != op.owner then (t, Err(NotOwned))
      else if recorded.value.status != Pending then (t, recorded)
      else
        var proposed := Outcome(recorded.value, op.reply, op.operationId,
                                if op.child.Some? then op.child else recorded.value.child);
        var t' := WriteOutcome(t, op.id, op.owner, proposed);
        var completed := Stored(t', op.id, verified, NotRecorded);
        if !ValidReceipt(proposed) || !op.participant || completed != Ok(proposed) then (t, Err(NotStored))
        else if !op.stillOwned then (t, Err(NoAuthority))
        else (t', completed)
  }

  function ApplyFinishChild(t: Tables, op: Op, verified: Verifier): (Tables, Answer)
    requires op.FinishChild?
  {
    if op.id.operation != "run:workflow" || !op.authority then (t, Err(NoAuthority))
    else
      var recorded := Stored(t, op.id, verified, RequestDiffers);
      if recorded.Err? then (t, recorded)
      else if recorded.value.requestDigest != op.digest then (t, Err(RequestDiffers))
      else if recorded.value.status != Pending then (t, recorded)
      else if op.captured.None? || !op.bound then (t, Err(NotStored))
      else
        var proposed := Outcome(recorded.value, op.reply, None, op.captured);
        if !ValidReceipt(proposed) || !op.participant then (t, Err(NotStored))
        else
          var t' := WriteOutcome(t, op.id, recorded.value.owner, proposed);
          var completed := Stored(t', op.id, verified, NotRecorded);
          (t', if completed.Ok? && completed.value.status == Pending then Err(NotRecorded) else completed)
  }

  function Apply(t: Tables, op: Op, verified: Verifier): (Tables, Answer) {
    match op
    case Begin(_, _, _, _, _, _) => ApplyBegin(t, op, verified)
    case RecordValue(_, _, _, _) => ApplyRecordValue(t, op, verified)
    case Finish(_, _, _, _, _) => ApplyFinish(t, op, verified)
    case FinishOwned(_, _, _, _, _, _, _, _) => ApplyFinishOwned(t, op, verified)
    case FinishChild(_, _, _, _, _, _, _) => ApplyFinishChild(t, op, verified)
  }

  /** A call and the verifier in force when it was made. */
  datatype Call = Call(op: Op, verified: Verifier)

  function Run(t: Tables, calls: seq<Call>): Tables
    decreases |calls|
  {
    if calls == [] then t else Run(Apply(t, calls[0].op, calls[0].verified).0, calls[1..])
  }

  // ---------------------------------------------------------------- invariants

  /** Index and receipt tables have the same keys, and every row agrees with its identity and payload. */
  ghost predicate Sound(t: Tables) {
    && t.index.Keys == t.effects.Keys
    && (forall id :: id in t.index ==> t.index[id] == IndexOf(id))
    && (forall id :: id in t.effects ==>
        t.effects[id] == RowOf(t.effects[id].payload) && ValidReceipt(t.effects[id].payload))
  }

  /** Nothing a later state does contradicts what an earlier state recorded about `id`. */
  ghost predicate Extends(t: Tables, t': Tables, id: EffectIdentity) {
    && (id in t.index ==> id in t'.index && t'.index[id] == t.index[id])
    && (id in t.effects ==>
          && id in t'.effects
          && t'.effects[id].owner == t.effects[id].owner
          && t'.effects[id].payload.requestDigest == t.effects[id].payload.requestDigest
          && (t.effects[id].status != Pending ==> t'.effects[id] == t.effects[id]))
  }

  lemma InsertSound(t: Tables, target: EffectIdentity, receipt: EffectReceipt)
    requires Sound(t) && ValidReceipt(receipt)
    ensures Sound(Tables(InsertAbsent(t.index, target, IndexOf(target)),
                         InsertAbsent(t.effects, target, RowOf(receipt))))
  {
  }

  /** Inserting both rows of an identity, unless they are there already. */
  lemma InsertKeeps(t: Tables, target: EffectIdentity, receipt: EffectReceipt, id: EffectIdentity)
    requires Sound(t) && ValidReceipt(receipt)
    ensures
      var t' := Tables(InsertAbsent(t.index, target, IndexOf(target)), InsertAbsent(t.effects, target, RowOf(receipt)));
      Sound(t') && Extends(t, t', id)
  {
    InsertSound(t, target, receipt);
  }

  /** Writing the outcome of a pending intent under its recorded owner and request. */
  lemma CompletionKeeps(t: Tables, target: EffectIdentity, proposed: EffectReceipt, id: EffectIdentity)
    requires Sound(t) && ValidReceipt(proposed) && target in t.effects
    requires proposed.owner == t.effects[target].owner
    requires proposed.requestDigest == t.effects[target].payload.requestDigest
    ensures Sound(WriteOutcome(t, target, proposed.owner, proposed))
    ensures Extends(t, WriteOutcome(t, target, proposed.owner, proposed), id)
  {
    var t' := WriteOutcome(t, target, proposed.owner, proposed);
    if t' != t { ReplaceSound(t, target, proposed); }
  }

  lemma ReplaceSound(t: Tables, target: EffectIdentity, proposed: EffectReceipt)
    requires Sound(t) && ValidReceipt(proposed) && target in t.effects
    ensures Sound(t.(effects := t.effects[target := RowOf(proposed)]))
  {
  }

  lemma FinishKeeps(t: Tables, op: Op, verified: Verifier, id: EffectIdentity)
    requires Sound(t) && op.Finish?
    ensures Sound(ApplyFinish(t, op, verified).0) && Extends(t, ApplyFinish(t, op, verified).0, id)
  {
    if ApplyFinish(t, op, verified).0 != t {
      CompletionKeeps(t, op.id, Outcome(t.effects[op.id].payload, op.reply, op.operationId, op.child), id);
    }
  }

  lemma FinishOwnedKeeps(t: Tables, op: Op, verified: Verifier, id: EffectIdentity)
    requires Sound(t) && op.FinishOwned?
    ensures Sound(ApplyFinishOwned(t, op, verified).0) && Extends(t, ApplyFinishOwned(t, op, verified).0, id)
  {
    if ApplyFinishOwned(t, op, verified).0 != t {
      var recorded := t.effects[op.id].payload;
      var child := if op.child.Some? then op.child else recorded.child;
      CompletionKeeps(t, op.id, Outcome(recorded, op.reply, op.operationId, child), id);
    }
  }

  lemma FinishChildKeeps(t: Tables, op: Op, verified: Verifier, id: EffectIdentity)
    requires Sound(t) && op.FinishChild?
    ensures Sound(ApplyFinishChild(t, op, verified).0) && Extends(t, ApplyFinishChild(t, op, verified).0, id)
  {
    if ApplyFinishChild(t, op, verified).0 != t {
      CompletionKeeps(t, op.id, Outcome(t.effects[op.id].payload, op.reply, None, op.captured), id);
    }
  }

  lemma InsertionKeeps(t: Tables, op: Op, verified: Verifier, id: EffectIdentity)
    requires Sound(t) && (op.Begin? || op.RecordValue?)
    ensures Sound(Apply(t, op, verified).0) && Extends(t, Apply(t, op, verified).0, id)
  {
    if Apply(t, op, verified).0 != t {
      if op.Begin? {
        InsertKeeps(t, op.id, Intent(op.digest, op.owner, op.operationId), id);
      } else {
        InsertKeeps(t, op.id, Intent(op.digest, "policy", None).(status := Completed, output := op.value), id);
      }
    }
  }

  lemma ApplyKeeps(t: Tables, op: Op, verified: Verifier, id: EffectIdentity)
    requires Sound(t)
    ensures Sound(Apply(t, op, verified).0)
    ensures Extends(t, Apply(t, op, verified).0, id)
  {
    match op {
      case Begin(_, _, _, _, _, _) => InsertionKeeps(t, op, verified, id);
      case RecordValue(_, _, _, _) => InsertionKeeps(t, op, verified, id);
      case Finish(_, _, _, _, _) => FinishKeeps(t, op, verified, id);
      case FinishOwned(_, _, _, _, _, _, _, _) => FinishOwnedKeeps(t, op, verified, id);
      case FinishChild(_, _, _, _, _, _, _) => FinishChildKeeps(t, op, verified, id);
    }
  }

  /** First writer wins: over any interleaving of calls, the owner, the request digest and the index row
      of an identity never change, and neither does a receipt that is no longer pending. */
  lemma {:induction false} FirstWriterWins(t: Tables, calls: seq<Call>, id: EffectIdentity)
    requires Sound(t)
    ensures Sound(Run(t, calls))
    ensures Extends(t, Run(t, calls), id)
    decreases |calls|
  {
    if calls != [] {
      ApplyKeeps(t, calls[0].op, calls[0].verified, id);
      FirstWriterWins(Apply(t, calls[0].op, calls[0].verified).0, calls[1..], id);
    }
  }

  /** Who may complete an intent: its own owner, or the reconciler of the very child request it recorded,
      acting with current parent authority. */
  predicate Entitled(op: Op, intent: EffectReceipt) {
    match op
    case Finish(_, owner, _, _, _) => owner == intent.owner
    case FinishOwned(_, owner, _, _, _, authority, _, stillOwned) => owner == intent.owner && authority && stillOwned
    case FinishChild(id, digest, _, captured, bound, authority, _) =>
      id.operation == "run:workflow" && digest == intent.requestDigest && captured.Some? && bound && authority
    case _ => false
  }

  ghost predicate SameRow(t: Tables, t': Tables, id: EffectIdentity) {
    && (id in t.effects <==> id in t'.effects)
    && (id in t.effects ==> t'.effects[id] == t.effects[id])
  }

  /** A call touches only the rows of its own identity. */
  lemma OthersUntouched(t: Tables, op: Op, verified: Verifier, id: EffectIdentity)
    ensures op.id != id ==> SameRow(t, Apply(t, op, verified).0, id)
  {
    match op {
      case Begin(_, _, _, _, _, _) =>
      case RecordValue(_, _, _, _) =>
      case Finish(_, _, _, _, _) =>
      case FinishOwned(_, _, _, _, _, _, _, _) =>
      case FinishChild(_, _, _, _, _, _, _) =>
    }
  }

  /** An intent leaves the pending state only through a call on it that is entitled to complete it. */
  lemma OnlyEntitledCompletes(t: Tables, op: Op, verified: Verifier, id: EffectIdentity)
    requires Sound(t)
    requires id in t.effects && t.effects[id].status == Pending
    ensures (op.id == id && Entitled(op, t.effects[id].payload)) || SameRow(t, Apply(t, op, verified).0, id)
  {
    OthersUntouched(t, op, verified, id);
    if op.id == id {
      match op {
        case Begin(_, _, _, _, _, _) =>
        case RecordValue(_, _, _, _) =>
        case Finish(_, _, _, _, _) =>
        case FinishOwned(_, _, _, _, _, _, _, _) =>
        case FinishChild(_, _, _, _, _, _, _) =>
      }
    }
  }

  /** A successful answer is the receipt in the tables: an intent's is of the same request, any other is an outcome. */
  predicate Answers(t: Tables, op: Op, r: Answer) {
    r.Ok? ==>
      && op.id in t.effects && t.effects[op.id].payload == r.value
      && if op.Begin? then r.value.requestDigest == op.digest else r.value.status != Pending
  }

  lemma BeginAnswers(t: Tables, op: Op, verified: Verifier)
    requires op.Begin?
    ensures Answers(ApplyBegin(t, op, verified).0, op, ApplyBegin(t, op, verified).1)
  {
  }

  lemma FinishAnswers(t: Tables, op: Op, verified: Verifier)
    requires op.Finish? || op.FinishChild?
    ensures Answers(Apply(t, op, verified).0, op, Apply(t, op, verified).1)
  {
  }

  lemma OwnedAnswers(t: Tables, op: Op, verified: Verifier)
    requires op.FinishOwned?
    ensures Answers(ApplyFinishOwned(t, op, verified).0, op, ApplyFinishOwned(t, op, verified).1)
  {
  }

  /** A successful call answers with the receipt its identity holds afterwards. */
  lemma AnswerIsStored(t: Tables, op: Op, verified: Verifier)
    ensures Answers(Apply(t, op, verified).0, op, Apply(t, op, verified).1)
  {
    match op {
      case Begin(_, _, _, _, _, _) => BeginAnswers(t, op, verified);
      case RecordValue(_, _, _, _) =>
      case Finish(_, _, _, _, _) => FinishAnswers(t, op, verified);
      case FinishOwned(_, _, _, _, _, _, _, _) => OwnedAnswers(t, op, verified);
      case FinishChild(_, _, _, _, _, _, _) => FinishAnswers(t, op, verified);
    }
  }

  /** Every caller that is told an outcome is told the same one, and every caller sees one owner,
      however many calls by whomever lie between the two answers. */
  lemma AnswersAgree(t: Tables, first: Call, between: seq<Call>, second: Call)
    requires Sound(t)
    requires first.op.id == second.op.id
    ensures
      var t1 := Apply(t, first.op, first.verified);
      var t2 := Apply(Run(t1.0, between), second.op, second.verified);
      t1.1.Ok? && t2.1.Ok? ==>
        && t1.1.value.owner == t2.1.value.owner
        && t1.1.value.requestDigest == t2.1.value.requestDigest
        && (t1.1.value.status != Pending ==> t1.1.value == t2.1.value)
  {
    var t1 := Apply(t, first.op, first.verified);
    var later := Run(t1.0, between);
    var t2 := Apply(later, second.op, second.verified);
    if t1.1.Ok? && t2.1.Ok? {
      ApplyKeeps(t, first.op, first.verified, first.op.id);
      AnswerIsStored(t, first.op, first.verified);
      FirstWriterWins(t1.0, between, first.op.id);
      ApplyKeeps(later, second.op, second.verified, first.op.id);
      AnswerIsStored(later, second.op, second.verified);
      assert Extends(later, t2.0, first.op.id);
    }
  }

  // ---------------------------------------------------------------- receipt dependencies

  datatype ReceiptDependency = ReceiptDependency(identity: EffectIdentity, receiptDigest: Digest)

  type Hash = EffectReceipt -> Digest

  /** `ReceiptDependency.capture`: an unresolved intent is refused. */
  function Capture(hash: Hash, id: EffectIdentity, receipt: EffectReceipt): Option<ReceiptDependency> {
    if receipt.status == Pending then None else Some(ReceiptDependency(id, hash(receipt)))
  }

  predicate Verify(hash: Hash, dependency: ReceiptDependency, t: Tables, verified: Verifier) {
    match Get(t, dependency.identity, verified)
    case Ok(Some(receipt)) => receipt.status != Pending && hash(receipt) == dependency.receiptDigest
    case _ => false
  }

  /** A dependency captured from any answer still verifies after any later run of calls, as long as the
      verifiers behind `get` still accept the unchanged receipt. */
  lemma CapturedStillVerifies(t: Tables, call: Call, later: seq<Call>, hash: Hash, verified: Verifier)
    requires Sound(t)
    requires Apply(t, call.op, call.verified).1.Ok?
    requires Capture(hash, call.op.id, Apply(t, call.op, call.verified).1.value).Some?
    requires verified(call.op.id, Apply(t, call.op, call.verified).1.value)
    ensures Verify(hash, Capture(hash, call.op.id, Apply(t, call.op, call.verified).1.value).value,
                   Run(Apply(t, call.op, call.verified).0, later), verified)
  {
    ApplyKeeps(t, call.op, call.verified, call.op.id);
    AnswerIsStored(t, call.op, call.verified);
    FirstWriterWins(Apply(t, call.op, call.verified).0, later, call.op.id);
  }

  // ---------------------------------------------------------------- the store

  /** The two tables as the runtime updates them, one transaction per call. */
  class EffectJournal {
    var index: map<EffectIdentity, IndexRow>
    var effects: map<EffectIdentity, EffectRow>

    ghost function State(): Tables reads this { Tables(index, effects) }

    constructor ()
      ensures State() == Tables(map[], map[]) && Sound(State())
    {
      index, effects := map[], map[];
    }

    method Read(id: EffectIdentity, verified: Verifier) returns (r: Result<Option<EffectReceipt>, JournalError>)
      ensures r == Get(State(), id, verified)
    {
      if id !in effects { return Ok(None); }
      var row := effects[id];
      if !ValidReceipt(row.payload) || row.owner != row.payload.owner || row.status != row.payload.status
         || !verified(id, row.payload) {
        return Err(Unreadable);
      }
      return Ok(Some(row.payload));
    }

    method BeginIntent(id: EffectIdentity, digest: Digest, owner: string, operationId: Option<string>,
                       authority: bool, participant: bool, verified: Verifier) returns (r: Answer)
      modifies this
      ensures (State(), r)
              == Apply(old(State()), Begin(id, digest, owner, operationId, authority, participant), verified)
    {
      var proposed := Intent(digest, owner, operationId);
      if !ValidReceipt(proposed) { return Err(NotStored); }
      if !authority { return Err(NoAuthority); }
      var existing := Read(id, verified);
      if existing.Err? { return Err(NotStored); }
      var pending := proposed;
      if existing.value.Some? { pending := existing.value.value; }
      if pending.status == Pending && !participant { return Err(NotStored); }
      if id !in index { index := index[id := IndexOf(id)]; }
      if id !in effects { effects := effects[id := EffectRow(owner, Pending, proposed)]; }
      var recorded := Read(id, verified);
      match recorded {
        case Err(e) => r := Err(e);
        case Ok(None) => r := Err(NotRecorded);
        case Ok(Some(receipt)) => r := if receipt.requestDigest != digest then Err(RequestDiffers) else Ok(receipt);
      }
    }

    method RecordDecision(id: EffectIdentity, digest: Digest, value: Option<Json>, authority: bool, verified: Verifier)
      returns (r: Answer)
      modifies this
      ensures (State(), r) == Apply(old(State()), RecordValue(id, digest, value, authority), verified)
    {
      if !("policy:" <= id.operation) { return Err(NotPolicy); }
      if !authority { return Err(NoAuthority); }
      var existing := Read(id, verified);
      if existing.Err? { return Err(NotStored); }
      var savedIndex, savedEffects := index, effects;
      if existing.value.None? {
        var proposed := Intent(digest, "policy", None).(status := Completed, output := value);
        if !ValidReceipt(proposed) || (id in index && index[id] != IndexOf(id)) { return Err(NotStored); }
        if id !in index { index := index[id := IndexOf(id)]; }
        effects := effects[id := RowOf(proposed)];
      }
      var recorded := Read(id, verified);
      match recorded {
        case Ok(Some(receipt)) =>
          if receipt.status == Completed && receipt.requestDigest == digest { return Ok(receipt); }
        case _ =>
      }
      index, effects := savedIndex, savedEffects;
      r := Err(NotStored);
    }

    method FinishIntent(id: EffectIdentity, owner: string, reply: Reply, operationId: Option<string>,
                        child: Option<ChildDependency>, verified: Verifier) returns (r: Answer)
      modifies this
      ensures (State(), r) == Apply(old(State()), Finish(id, owner, reply, operationId, child), verified)
    {
      var found := Read(id, verified);
      if found.Err? { return Err(found.error); }
      if found.value.None? || found.value.value.owner != owner { return Err(NotOwned); }
      var proposed := Outcome(found.value.value, reply, operationId, child);
      if !ValidReceipt(proposed) { return Err(NotStored); }
      if effects[id].owner == owner && effects[id].status == Pending {
        effects := effects[id := EffectRow(owner, proposed.status, proposed)];
      }
      var completed := Read(id, verified);
      match completed {
        case Err(e) => r := Err(e);
        case Ok(None) => r := Err(NotRecorded);
        case Ok(Some(receipt)) =>
          r := if receipt.owner != owner || receipt.status == Pending then Err(NotRecorded) else Ok(receipt);
      }
    }

    method FinishIntentOwned(id: EffectIdentity, owner: string, reply: Reply, operationId: Option<string>,
                             child: Option<ChildDependency>, authority: bool, participant: bool, stillOwned: bool,
                             verified: Verifier) returns (r: Answer)
      modifies this
      ensures (State(), r)
           == Apply(old(State()), FinishOwned(id, owner, reply, operationId, child, authority, participant, stillOwned),
                    verified)
    {
      if !authority { return Err(NoAuthority); }
      var found := Read(id, verified);
      if found.Err? || found.value.None? || found.value.value.owner != owner { return Err(NotOwned); }
      var recorded := found.value.value;
      if recorded.status != Pending { return Ok(recorded); }
      var proposed := Outcome(recorded, reply, operationId, if child.Some? then child else recorded.child);
      if !ValidReceipt(proposed) || !participant { return Err(NotStored); }
      var saved := effects;
      effects := effects[id := EffectRow(owner, proposed.status, proposed)];
      var completed := Read(id, verified);
      if completed != Ok(Some(proposed)) { effects := saved; return Err(NotStored); }
      if !stillOwned { effects := saved; return Err(NoAuthority); }
      r := Ok(proposed);
    }

    method FinishChildIntent(id: EffectIdentity, digest: Digest, reply: Reply, captured: Option<ChildDependency>,
                             bound: bool, authority: bool, participant: bool, verified: Verifier) returns (r: Answer)
      modifies this
      ensures (State(), r)
           == Apply(old(State()), FinishChild(id, digest, reply, captured, bound, authority, participant), verified)
    {
      if id.operation != "run:workflow" || !authority { return Err(NoAuthority); }
      var found := Read(id, verified);
      if found.Err? { return Err(found.error); }
      if found.value.None? || found.value.value.requestDigest != digest { return Err(RequestDiffers); }
      var recorded := found.value.value;
      if recorded.status != Pending { return Ok(recorded); }
      if captured.None? || !bound { return Err(NotStored); }
      var proposed := Outcome(recorded, reply, None, captured);
      if !ValidReceipt(proposed) || !participant { return Err(NotStored); }
      effects := effects[id := EffectRow(recorded.owner, proposed.status, proposed)];
      var completed := Read(id, verified);
      match completed {
        case Err(e) => r := Err(e);
        case Ok(None) => r := Err(NotRecorded);
        case Ok(Some(receipt)) => r := if receipt.status == Pending then Err(NotRecorded) else Ok(receipt);
      }
    }
  }
}
