/** The mutable run record and its checkpoint form (checkpoints/serializer.py). */
module RunStates {
  import opened Messages

  datatype RunStatus = Created | Running | Completed | Failed | Cancelled

  datatype RunError = RunError(code: string, message: string, category: string)

  datatype RunState = RunState(
    runId: string,
    turnId: string,
    turnCount: nat,
    summary: string,
    status: RunStatus,
    messages: seq<Message>,
    iteration: nat,
    modelCallCount: nat,
    toolCallCount: nat,
    finalOutput: Option<string>,
    error: Option<RunError>,
    cancellationRequested: bool)

  /** The state a checkpoint can give back: everything but the transport fields of tool calls. */
  function StripState(s: RunState): RunState { s.(messages := StripMessages(s.messages)) }

  // ----- Serializing -----

  /** A JSON value where a dictionary or a list is expected; a missing key is `None` in the fields. */
  datatype Dictionary<T> = Dictionary(fields: T) | NotADictionary

  datatype Listing<T> = Listing(items: seq<Dictionary<T>>) | NotAList

  datatype CallFields = CallFields(
    id: Option<Json>, name: Option<Json>, arguments: Option<Json>, rawArguments: Option<Json>)

  datatype MessageFields = MessageFields(
    role: Option<Json>, content: Option<Json>, reasoningContent: Option<Json>, messageId: Option<Json>,
    toolCalls: Listing<CallFields>, toolCallId: Option<Json>, toolName: Option<Json>, metadata: Option<Json>)

  datatype ErrorFields = ErrorFields(code: Option<Json>, message: Option<Json>, category: Option<Json>)

  datatype StateFields = StateFields(
    runId: Option<Json>, turnId: Option<Json>, turnCount: Option<Json>, sessionSummary: Option<Json>, status: Option<Json>,
    messages: Listing<MessageFields>, iteration: Option<Json>, modelCallCount: Option<Json>, toolCallCount: Option<Json>,
    finalOutput: Option<Json>, error: Dictionary<ErrorFields>, cancellationRequested: Option<Json>)

  type Payload = Dictionary<StateFields>

  function Str(s: string): Option<Json> { Some(JStr(s)) }

  function OptStr(o: Option<string>): Option<Json> {
    match o { case None => Some(JNull) case Some(s) => Str(s) }
  }

  function SerializeCall(c: ToolCall): Dictionary<CallFields> {
    Dictionary(CallFields(
      Str(c.id), Str(c.name), Some(if c.arguments.Dict? then JObj(c.arguments.entries) else JStr(c.arguments.text)), Str(c.wire)))
  }

  function SerializeCalls(cs: seq<ToolCall>): seq<Dictionary<CallFields>> {
    seq(|cs|, i requires 0 <= i < |cs| => SerializeCall(cs[i]))
  }

  function SerializeMessage(m: Message): Dictionary<MessageFields> {
    Dictionary(MessageFields(
      Str(m.role), Str(m.content), OptStr(m.reasoning), Str(m.messageId), Listing(SerializeCalls(m.toolCalls)),
      OptStr(m.toolCallId), OptStr(m.toolName), Some(JObj(m.metadata))))
  }

  function SerializeMessages(ms: seq<Message>): seq<Dictionary<MessageFields>> {
    seq(|ms|, i requires 0 <= i < |ms| => SerializeMessage(ms[i]))
  }

  function StatusName(s: RunStatus): string {
    match s
    case Created => "CREATED"
    case Running => "RUNNING"
    case Completed => "COMPLETED"
    case Failed => "FAILED"
    case Cancelled => "CANCELLED"
  }

  function SerializeError(e: Option<RunError>): Dictionary<ErrorFields> {
    match e
    case None => NotADictionary
    case Some(err) => Dictionary(ErrorFields(Str(err.code), Str(err.message), Str(err.category)))
  }

  function Serialize(s: RunState): Payload {
    Dictionary(StateFields(
      Str(s.runId), Str(s.turnId), Some(JNum(s.turnCount)), Str(s.summary), Str(StatusName(s.status)),
      Listing(SerializeMessages(s.messages)), Some(JNum(s.iteration)), Some(JNum(s.modelCallCount)), Some(JNum(s.toolCallCount)),
      OptStr(s.finalOutput), SerializeError(s.error), Some(JBool(s.cancellationRequested))))
  }

  // ----- Restoring; None stands for a Python exception -----

  /** `row.get(key)`, with a missing key read as null. */
  function Get(v: Option<Json>): Json { if v.Some? then v.value else JNull }

  /** `str(row.get(key) or "")`. */
  function TextOr(v: Option<Json>): Option<string> {
    if !Truthy(Get(v)) then Some("") else if Get(v).JStr? then Some(Get(v).s) else None
  }

  /** `str(row[key])`: the key must exist. */
  function TextAt(v: Option<Json>): Option<string> {
    if v.Some? && v.value.JStr? then Some(v.value.s) else None
  }

  /** A nullable text field, kept as it is. */
  function NullableText(v: Option<Json>): Option<Option<string>> {
    match Get(v) {
      case JNull => Some(None)
      case JStr(s) => Some(Some(s))
      case _ => None
    }
  }

  /** `dict(row.get(key) or {})`: falsy becomes empty, a dictionary is copied, any other text raises. */
  function DictOr(v: Option<Json>): Option<map<string, Json>> {
    if !Truthy(Get(v)) then Some(map[]) else if Get(v).JObj? then Some(Get(v).fields) else None
  }

  function CountOr(v: Option<Json>): Option<nat> {
    match Get(v) {
      case JNull => Some(0)
      case JNum(n) => if n < 0 then None else Some(n)
      case _ => None
    }
  }

  function ItemsOf<T>(l: Listing<T>): seq<Dictionary<T>> { if l.Listing? then l.items else [] }

  function RestoreCall(row: Dictionary<CallFields>): Option<ToolCall> {
    if row.NotADictionary? then None
    else match (TextAt(row.fields.id), TextAt(row.fields.name), DictOr(row.fields.arguments)) {
      case (Some(id), Some(name), Some(d)) => Some(ToolCall(id, name, Dict(d), ""))
      case _ => None
    }
  }

  function RestoreCalls(rows: seq<Dictionary<CallFields>>): Option<seq<ToolCall>> {
    if rows == [] then Some([])
    else match (RestoreCall(rows[0]), RestoreCalls(rows[1..])) {
      case (Some(c), Some(cs)) => Some([c] + cs)
      case _ => None
    }
  }

  function RestoreMessage(row: Dictionary<MessageFields>): Option<Message> {
    if row.NotADictionary? then None
    else
      var f := row.fields;
      match (TextAt(f.role), TextOr(f.content), NullableText(f.reasoningContent), TextOr(f.messageId),
             RestoreCalls(ItemsOf(f.toolCalls)), NullableText(f.toolCallId), NullableText(f.toolName), DictOr(f.metadata)) {
        case (Some(role), Some(content), Some(reasoning), Some(id), Some(cs), Some(callId), Some(toolName), Some(meta)) =>
          Some(Message(role, content, reasoning, id, cs, callId, toolName, meta))
        case _ => None
      }
  }

  function RestoreMessages(rows: seq<Dictionary<MessageFields>>): Option<seq<Message>> {
    if rows == [] then Some([])
    else match (RestoreMessage(rows[0]), RestoreMessages(rows[1..])) {
      case (Some(m), Some(ms)) => Some([m] + ms)
      case _ => None
    }
  }

  function ParseStatus(s: string): Option<RunStatus> {
    if s == "CREATED" then Some(Created)
    else if s == "RUNNING" then Some(Running)
    else if s == "COMPLETED" then Some(Completed)
    else if s == "FAILED" then Some(Failed)
    else if s == "CANCELLED" then Some(Cancelled)
    else None
  }

  /** A dictionary becomes an error record; anything else means no error. */
  function RestoreError(row: Dictionary<ErrorFields>): Option<Option<RunError>> {
    if row.NotADictionary? then Some(None)
    else match (TextAt(row.fields.code), TextAt(row.fields.message), TextAt(row.fields.category)) {
      case (Some(code), Some(message), Some(category)) => Some(Some(RunError(code, message, category)))
      case _ => None
    }
  }

  function Restore(payload: Payload): Option<RunState> {
    if payload.NotADictionary? then None
    else
      var f := payload.fields;
      match (TextAt(f.runId), TextOr(f.turnId), CountOr(f.turnCount), TextOr(f.sessionSummary), TextAt(f.status),
             RestoreMessages(ItemsOf(f.messages))) {
        case (Some(runId), Some(turnId), Some(turns), Some(summary), Some(statusName), Some(messages)) =>
          match (ParseStatus(statusName), CountOr(f.iteration), CountOr(f.modelCallCount), CountOr(f.toolCallCount),
                 NullableText(f.finalOutput), RestoreError(f.error)) {
            case (Some(status), Some(iteration), Some(models), Some(tools), Some(output), Some(error)) =>
              Some(RunState(runId, turnId, turns, summary, status, messages, iteration, models, tools, output, error,
                            Truthy(Get(f.cancellationRequested))))
            case _ => None
          }
        case _ => None
      }
  }

  // ----- Round trip -----

  predicate RestorableCall(c: ToolCall) { c.arguments.Dict? || c.arguments.text == "" }

  /** No tool call anywhere in the history carries non-empty text instead of a dictionary. */
  predicate Restorable(ms: seq<Message>) {
    forall m, c :: m in ms && c in m.toolCalls ==> RestorableCall(c)
  }

  predicate AllDictionaries(ms: seq<Message>) {
    forall m, c :: m in ms && c in m.toolCalls ==> c.arguments.Dict?
  }

  /** What comes back of one call: falsy text turns into an empty dictionary. */
  function CallBack(c: ToolCall): ToolCall {
    ToolCall(c.id, c.name, if c.arguments.Dict? then c.arguments else Dict(map[]), "")
  }

  lemma CallRoundTrip(c: ToolCall)
    ensures RestoreCall(SerializeCall(c)) == if RestorableCall(c) then Some(CallBack(c)) else None
  {
  }

  lemma {:induction false} CallsRoundTrip(cs: seq<ToolCall>)
    ensures RestoreCalls(SerializeCalls(cs)).Some? <==> forall c :: c in cs ==> RestorableCall(c)
    ensures RestoreCalls(SerializeCalls(cs)).Some? ==>
              var r := RestoreCalls(SerializeCalls(cs)).value;
              |r| == |cs| && forall i :: 0 <= i < |cs| ==> r[i] == CallBack(cs[i])
  {
    if cs != [] {
      CallRoundTrip(cs[0]);
      CallsRoundTrip(cs[1..]);
      assert SerializeCalls(cs)[1..] == SerializeCalls(cs[1..]);
      assert forall c :: c in cs <==> c == cs[0] || c in cs[1..];
    }
  }

  lemma MessageRestores(m: Message)
    ensures RestoreMessage(SerializeMessage(m)) ==
            match RestoreCalls(SerializeCalls(m.toolCalls))
            case None => None
            case Some(cs) => Some(m.(toolCalls := cs))
  {
    var f := SerializeMessage(m).fields;
    assert NullableText(f.reasoningContent) == Some(m.reasoning);
    assert NullableText(f.toolCallId) == Some(m.toolCallId) && NullableText(f.toolName) == Some(m.toolName);
    assert DictOr(f.metadata) == Some(m.metadata);
  }

  lemma MessageRoundTrip(m: Message)
    ensures RestoreMessage(SerializeMessage(m)).Some? <==> forall c :: c in m.toolCalls ==> RestorableCall(c)
    ensures RestoreMessage(SerializeMessage(m)).Some? ==>
              var r := RestoreMessage(SerializeMessage(m)).value;
              r.(toolCalls := []) == m.(toolCalls := []) && |r.toolCalls| == |m.toolCalls|
              && forall i :: 0 <= i < |m.toolCalls| ==> r.toolCalls[i] == CallBack(m.toolCalls[i])
  {
    MessageRestores(m);
    CallsRoundTrip(m.toolCalls);
  }

  /** A list of rows restores exactly when each row does, row by row. */
  lemma {:induction false} RowsRestore(js: seq<Dictionary<MessageFields>>)
    ensures RestoreMessages(js).Some? <==> forall k :: 0 <= k < |js| ==> RestoreMessage(js[k]).Some?
    ensures RestoreMessages(js).Some? ==>
              |RestoreMessages(js).value| == |js| && forall k :: 0 <= k < |js| ==> Some(RestoreMessages(js).value[k]) == RestoreMessage(js[k])
  {
    if js != [] {
      RowsRestore(js[1..]);
      assert forall k :: 1 <= k < |js| ==> js[k] == js[1..][k - 1];
    }
  }

  lemma MessagesRoundTrip(ms: seq<Message>)
    ensures RestoreMessages(SerializeMessages(ms)).Some? <==>
            forall m :: m in ms ==> RestoreMessage(SerializeMessage(m)).Some?
    ensures RestoreMessages(SerializeMessages(ms)).Some? ==>
              var r := RestoreMessages(SerializeMessages(ms)).value;
              |r| == |ms| && forall i :: 0 <= i < |ms| ==> Some(r[i]) == RestoreMessage(SerializeMessage(ms[i]))
  {
    var js := SerializeMessages(ms);
    RowsRestore(js);
    assert forall k :: 0 <= k < |ms| ==> js[k] == SerializeMessage(ms[k]);
  }

  lemma ErrorRoundTrip(e: Option<RunError>)
    ensures RestoreError(SerializeError(e)) == Some(e)
  {
  }

  lemma StatusRoundTrip(s: RunStatus)
    ensures ParseStatus(StatusName(s)) == Some(s)
  {
  }

  lemma StateRoundTrip(s: RunState)
    ensures Restore(Serialize(s)) ==
            match RestoreMessages(SerializeMessages(s.messages))
            case None => None
            case Some(rows) => Some(s.(messages := rows))
  {
    ErrorRoundTrip(s.error);
    StatusRoundTrip(s.status);
  }

  lemma HistoryRoundTrip(ms: seq<Message>)
    ensures RestoreMessages(SerializeMessages(ms)).Some? <==> Restorable(ms)
    ensures RestoreMessages(SerializeMessages(ms)) == Some(StripMessages(ms)) <==> AllDictionaries(ms)
  {
    MessagesRoundTrip(ms);
    forall m | m in ms
      ensures RestoreMessage(SerializeMessage(m)).Some? <==> forall c :: c in m.toolCalls ==> RestorableCall(c)
    {
      MessageRoundTrip(m);
    }
    if AllDictionaries(ms) {
      var r := RestoreMessages(SerializeMessages(ms)).value;
      forall i | 0 <= i < |ms|
        ensures r[i] == StripMessage(ms[i])
      {
        MessageRoundTrip(ms[i]);
        assert ms[i] in ms;
        assert r[i].toolCalls == StripCalls(ms[i].toolCalls);
      }
      assert r == StripMessages(ms);
    } else if Restorable(ms) {
      var r := RestoreMessages(SerializeMessages(ms)).value;
      var m, c :| m in ms && c in m.toolCalls && !c.arguments.Dict?;
      var i :| 0 <= i < |ms| && ms[i] == m;
      var k :| 0 <= k < |m.toolCalls| && m.toolCalls[k] == c;
      MessageRoundTrip(m);
      assert r[i].toolCalls[k] == CallBack(c);
      assert StripMessages(ms)[i].toolCalls[k] == StripCall(c);
      assert r[i] != StripMessages(ms)[i];
    }
  }

  /**
   * A checkpoint restores exactly when no call carries non-empty text arguments, and gives the
   * original state back (transport fields aside) exactly when all arguments are dictionaries.
   */
  lemma RoundTrip(s: RunState)
    ensures Restore(Serialize(s)).Some? <==> Restorable(s.messages)
    ensures Restore(Serialize(s)) == Some(StripState(s)) <==> AllDictionaries(s.messages)
  {
    StateRoundTrip(s);
    HistoryRoundTrip(s.messages);
  }

  lemma DictionariesRestore(s: RunState)
    requires AllDictionaries(s.messages)
    ensures Restore(Serialize(s)) == Some(StripState(s))
  {
    RoundTrip(s);
  }

  /** Restoring changes nothing but the message list. */
  lemma RestoredFields(s: RunState)
    ensures Restore(Serialize(s)).Some? ==> Restore(Serialize(s)).value.(messages := []) == s.(messages := [])
  {
    StateRoundTrip(s);
  }

  /** Restoring keeps which calls have results, and of the newest response all but the transport fields. */
  lemma RestoredKeeps(s: RunState)
    ensures Restore(Serialize(s)).Some? ==>
              var r := Restore(Serialize(s)).value;
              && r.(messages := []) == s.(messages := [])
              && CompletedIds(r.messages) == CompletedIds(s.messages)
              && (LastAssistant(r.messages).Some? <==> LastAssistant(s.messages).Some?)
              && (LastAssistant(s.messages).Some? ==>
                    SameShape(LastAssistant(r.messages).value, LastAssistant(s.messages).value))
  {
    StateRoundTrip(s);
    MessagesRoundTrip(s.messages);
    var back := RestoreMessages(SerializeMessages(s.messages));
    if back.Some? {
      forall i | 0 <= i < |s.messages|
        ensures SameShape(back.value[i], s.messages[i])
      {
        MessageRoundTrip(s.messages[i]);
      }
      ShapeKeeps(back.value, s.messages);
    }
  }

  /** A restored message: its calls come back as `CallBack` says. */
  predicate SameShape(r: Message, m: Message) {
    && r.(toolCalls := []) == m.(toolCalls := [])
    && |r.toolCalls| == |m.toolCalls|
    && forall k :: 0 <= k < |m.toolCalls| ==> RestorableCall(m.toolCalls[k]) && r.toolCalls[k] == CallBack(m.toolCalls[k])
  }

  lemma {:induction false} ShapeKeeps(rs: seq<Message>, ms: seq<Message>)
    requires |rs| == |ms| && forall i :: 0 <= i < |ms| ==> SameShape(rs[i], ms[i])
    ensures CompletedIds(rs) == CompletedIds(ms)
    ensures LastAssistant(rs).Some? <==> LastAssistant(ms).Some?
    ensures LastAssistant(ms).Some? ==> SameShape(LastAssistant(rs).value, LastAssistant(ms).value)
  {
    if ms != [] {
      var n := |ms| - 1;
      ShapeKeeps(rs[..n], ms[..n]);
      assert SameShape(rs[n], ms[n]);
      CompletedAppend(rs[..n], rs[n]);
      CompletedAppend(ms[..n], ms[n]);
      assert rs == rs[..n] + [rs[n]] && ms == ms[..n] + [ms[n]];
      LastAssistantAppend(rs[..n], rs[n]);
      LastAssistantAppend(ms[..n], ms[n]);
    }
  }
}
