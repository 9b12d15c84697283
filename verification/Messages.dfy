/** Conversation values shared by the whole model: JSON trees, tool calls and canonical messages. */
module Messages {

  datatype Option<+T> = None | Some(value: T)

  datatype Json =
    | JNull
    | JBool(b: bool)
    | JNum(n: int)
    | JStr(s: string)
    | JArr(items: seq<Json>)
    | JObj(fields: map<string, Json>)

  /** Python truthiness of a JSON value, as used by `x or default`. */
  predicate Truthy(j: Json) {
    match j
    case JNull => false
    case JBool(b) => b
    case JNum(n) => n != 0
    case JStr(s) => s != ""
    case JArr(items) => items != []
    case JObj(fields) => fields != map[]
  }

  /** The size of a text in UTF-8. */
  function Utf8Length(s: string): nat {
    if s == "" then 0
    else
      var c := s[0] as int;
      (if c < 0x80 then 1 else if c < 0x800 then 2 else if c < 0x1_0000 then 3 else 4) + Utf8Length(s[1..])
  }

  /** Tool arguments are a dictionary, or the raw text when the provider sent no JSON. */
  datatype Arguments = Dict(entries: map<string, Json>) | Text(text: string)

  /** `wire` stands for the raw argument text and the other fields only the transport reads. */
  datatype ToolCall = ToolCall(id: string, name: string, arguments: Arguments, wire: string)

  datatype Message = Message(
    role: string,
    content: string,
    reasoning: Option<string>,
    messageId: string,
    toolCalls: seq<ToolCall>,
    toolCallId: Option<string>,
    toolName: Option<string>,
    metadata: map<string, Json>)

  function UserMessage(content: string, id: string): Message {
    Message("user", content, None, id, [], None, None, map[])
  }

  /** Only this flag separates queued external context from an ordinary user message. */
  predicate IsExternal(m: Message) {
    "external_context" in m.metadata && Truthy(m.metadata["external_context"])
  }

  // ----- What a checkpoint keeps of a message -----

  function StripCall(c: ToolCall): ToolCall { c.(wire := "") }

  function StripCalls(cs: seq<ToolCall>): (r: seq<ToolCall>)
    ensures |r| == |cs|
    ensures forall i :: 0 <= i < |cs| ==> r[i] == StripCall(cs[i])
  {
    seq(|cs|, i requires 0 <= i < |cs| => StripCall(cs[i]))
  }

  function StripMessage(m: Message): Message { m.(toolCalls := StripCalls(m.toolCalls)) }

  function StripMessages(ms: seq<Message>): (r: seq<Message>)
    ensures |r| == |ms|
    ensures forall i :: 0 <= i < |ms| ==> r[i] == StripMessage(ms[i])
  {
    seq(|ms|, i requires 0 <= i < |ms| => StripMessage(ms[i]))
  }

  lemma StripAppend(ms: seq<Message>, ns: seq<Message>)
    ensures StripMessages(ms + ns) == StripMessages(ms) + StripMessages(ns)
  {
  }

  lemma StripTwice(ms: seq<Message>)
    ensures StripMessages(StripMessages(ms)) == StripMessages(ms)
  {
    forall i | 0 <= i < |ms|
      ensures StripMessages(StripMessages(ms))[i] == StripMessages(ms)[i]
    {
      assert StripCalls(StripCalls(ms[i].toolCalls)) == StripCalls(ms[i].toolCalls);
    }
  }

  // ----- Which calls already have a durable result -----

  /** Ids of every tool message in the history, the set a resumed pass skips. */
  function CompletedIds(ms: seq<Message>): set<Option<string>> {
    if ms == [] then {}
    else
      var last := ms[|ms| - 1];
      CompletedIds(ms[..|ms| - 1]) + (if last.role == "tool" then {last.toolCallId} else {})
  }

  lemma CompletedAppend(ms: seq<Message>, m: Message)
    ensures CompletedIds(ms + [m]) == CompletedIds(ms) + (if m.role == "tool" then {m.toolCallId} else {})
  {
    assert (ms + [m])[..|ms|] == ms;
  }

  lemma {:induction false} CompletedStrip(ms: seq<Message>)
    ensures CompletedIds(StripMessages(ms)) == CompletedIds(ms)
  {
    if ms != [] {
      assert StripMessages(ms)[..|ms| - 1] == StripMessages(ms[..|ms| - 1]);
      CompletedStrip(ms[..|ms| - 1]);
    }
  }

  /** The calls of a response that still lack a result, in response order. */
  function Pending(calls: seq<ToolCall>, completed: set<Option<string>>): (p: seq<ToolCall>)
    ensures forall c :: c in p ==> c in calls && Some(c.id) !in completed
  {
    if calls == [] then []
    else (if Some(calls[0].id) in completed then [] else [calls[0]]) + Pending(calls[1..], completed)
  }

  predicate DistinctIds(calls: seq<ToolCall>) {
    forall i, j :: 0 <= i < j < |calls| ==> calls[i].id != calls[j].id
  }

  lemma {:induction false} PendingDistinct(calls: seq<ToolCall>, completed: set<Option<string>>)
    requires DistinctIds(calls)
    ensures DistinctIds(Pending(calls, completed))
  {
    if calls != [] {
      PendingDistinct(calls[1..], completed);
      var rest := Pending(calls[1..], completed);
      forall c | c in rest
        ensures c.id != calls[0].id
      {
        var k :| 0 <= k < |calls[1..]| && calls[1..][k] == c;
        assert calls[k + 1] == c;
      }
    }
  }

  /** Finishing calls outside the list changes nothing. */
  lemma {:induction false} PendingUnaffected(calls: seq<ToolCall>, completed: set<Option<string>>, id: string)
    requires forall c :: c in calls ==> c.id != id
    ensures Pending(calls, completed + {Some(id)}) == Pending(calls, completed)
  {
    if calls != [] {
      assert calls[0] in calls;
      PendingUnaffected(calls[1..], completed, id);
    }
  }

  /** Finishing the first pending call leaves exactly the others pending, in order. */
  lemma {:induction false} PendingAdvances(calls: seq<ToolCall>, completed: set<Option<string>>)
    requires DistinctIds(calls)
    requires Pending(calls, completed) != []
    ensures Pending(calls, completed + {Some(Pending(calls, completed)[0].id)}) == Pending(calls, completed)[1..]
  {
    var p := Pending(calls, completed);
    if Some(calls[0].id) in completed {
      PendingAdvances(calls[1..], completed);
    } else {
      forall c | c in calls[1..]
        ensures c.id != calls[0].id
      {
        var k :| 0 <= k < |calls[1..]| && calls[1..][k] == c;
        assert calls[k + 1] == c;
      }
      PendingUnaffected(calls[1..], completed, calls[0].id);
    }
  }

  lemma {:induction false} PendingStrip(calls: seq<ToolCall>, completed: set<Option<string>>)
    ensures Pending(StripCalls(calls), completed) == StripCalls(Pending(calls, completed))
  {
    if calls != [] {
      PendingStrip(calls[1..], completed);
      assert StripCalls(calls)[1..] == StripCalls(calls[1..]);
      assert StripCalls(calls)[0].id == calls[0].id;
    }
  }

  /** The newest assistant message: what a resumed pass reuses instead of asking the model again. */
  function LastAssistant(ms: seq<Message>): (r: Option<Message>)
    ensures r.Some? ==> r.value in ms && r.value.role == "assistant"
  {
    if ms == [] then None
    else if ms[|ms| - 1].role == "assistant" then Some(ms[|ms| - 1])
    else LastAssistant(ms[..|ms| - 1])
  }

  /** Nothing behind it in the history is from the assistant; without one, nothing at all is. */
  lemma {:induction false} LastAssistantIsNewest(ms: seq<Message>)
    ensures LastAssistant(ms) == None <==> forall x :: x in ms ==> x.role != "assistant"
    ensures LastAssistant(ms).Some? ==>
              exists k :: 0 <= k < |ms| && ms[k] == LastAssistant(ms).value && forall j :: k < j < |ms| ==> ms[j].role != "assistant"
  {
    if ms != [] {
      var n := |ms| - 1;
      LastAssistantIsNewest(ms[..n]);
      assert ms == ms[..n] + [ms[n]];
      if ms[n].role != "assistant" && LastAssistant(ms[..n]).Some? {
        var k :| 0 <= k < n && ms[..n][k] == LastAssistant(ms[..n]).value && forall j :: k < j < n ==> ms[..n][j].role != "assistant";
        assert ms[k] == LastAssistant(ms).value && forall j :: k < j < |ms| ==> ms[j].role != "assistant";
      }
    }
  }

  lemma LastAssistantAppend(ms: seq<Message>, m: Message)
    ensures LastAssistant(ms + [m]) == if m.role == "assistant" then Some(m) else LastAssistant(ms)
  {
    assert (ms + [m])[..|ms|] == ms;
  }

  lemma {:induction false} LastAssistantStrip(ms: seq<Message>)
    ensures LastAssistant(StripMessages(ms)) ==
            match LastAssistant(ms) { case None => None case Some(m) => Some(StripMessage(m)) }
  {
    if ms != [] {
      assert StripMessages(ms)[..|ms| - 1] == StripMessages(ms[..|ms| - 1]);
      LastAssistantStrip(ms[..|ms| - 1]);
    }
  }
}
