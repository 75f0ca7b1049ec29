/** The wire side of the streaming endpoint: flattening message content to one string,
    the `ChatMessage` record that carries a message to the client and back, and the
    server-sent event stream `call_graph` produces from the batches of messages the graph
    reports. */
module ChatStream {
  import opened Wrappers
  import opened PyStr
  import opened Messages

  /** The exceptions the modelled code can raise, with the text `str(e)` gives. */
  datatype Error = KeyError(key: string) | ValueError(text: string) | NotImplementedError(text: string)

  /** `str(e)`: a `KeyError` shows its key quoted. */
  function ErrorText(e: Error): string {
    match e
    case KeyError(k) => "'" + k + "'"
    case ValueError(t) => t
    case NotImplementedError(t) => t
  }

  // ---------------------------------------------------------------------------
  // Content flattening

  /** What one list element contributes: a string itself, a `text` item its text, any other
      item nothing; a missing `type` (or `text`) key raises. */
  function PartText(p: Part): (r: Result<string, Error>)
    ensures p.Str? ==> r == Success(p.s)
    ensures p.Item? && "type" !in p.fields ==> r == Failure(KeyError("type"))
    ensures p.Item? && "type" in p.fields && p.fields["type"] != "text" ==> r == Success("")
    ensures p.Item? && "type" in p.fields && p.fields["type"] == "text" ==>
      r == if "text" in p.fields then Success(p.fields["text"]) else Failure(KeyError("text"))
  {
    match p
    case Str(s) => Success(s)
    case Item(f) =>
      if "type" !in f then Failure(KeyError("type"))
      else if f["type"] == "text" then
        if "text" in f then Success(f["text"]) else Failure(KeyError("text"))
      else Success("")
  }

  /** The text a well-formed part contributes. */
  function ItemText(p: Part): string
    requires PartText(p).Success?
  {
    PartText(p).value
  }

  /** Whether every part can be flattened. */
  predicate AllFlatten(parts: seq<Part>) {
    forall k :: 0 <= k < |parts| ==> PartText(parts[k]).Success?
  }

  /** The contributions of well-formed parts, in order. */
  function Texts(parts: seq<Part>): seq<string>
    requires AllFlatten(parts)
  {
    seq(|parts|, k requires 0 <= k < |parts| => ItemText(parts[k]))
  }

  /** Puts `t` in front of a successful result. */
  function Prepend(t: string, r: Result<string, Error>): Result<string, Error> {
    match r
    case Success(x) => Success(t + x)
    case Failure(e) => Failure(e)
  }

  lemma PrependEmpty(r: Result<string, Error>)
    ensures Prepend("", r) == r
  {
    if r.Success? {
      assert "" + r.value == r.value;
    }
  }

  lemma PrependPrepend(a: string, b: string, r: Result<string, Error>)
    ensures Prepend(a, Prepend(b, r)) == Prepend(a + b, r)
  {
    if r.Success? {
      assert a + (b + r.value) == (a + b) + r.value;
    }
  }

  /** List content, flattened left to right; `FlattenFailsAtFirstBadPart` says which error
      a malformed list gives. */
  function Flatten(parts: seq<Part>): (r: Result<string, Error>)
    ensures r.Success? <==> AllFlatten(parts)
    ensures r.Success? ==> r.value == Concat(Texts(parts))
  {
    if parts == [] then Success("")
    else
      var rest := Flatten(parts[1..]);
      var r := match PartText(parts[0])
        case Failure(e) => Failure(e)
        case Success(x) => Prepend(x, rest);
      assert forall k :: 1 <= k < |parts| ==> parts[1..][k - 1] == parts[k];
      if r.Success? then
        assert Texts(parts) == [ItemText(parts[0])] + Texts(parts[1..]);
        r
      else r
  }

  /** The error of a malformed list is that of its first malformed part. */
  lemma {:induction false} FlattenFailsAtFirstBadPart(parts: seq<Part>)
    requires Flatten(parts).Failure?
    ensures exists k :: 0 <= k < |parts| && PartText(parts[k]) == Failure(Flatten(parts).error)
                        && AllFlatten(parts[..k])
  {
    var e := Flatten(parts).error;
    if PartText(parts[0]).Failure? {
      assert AllFlatten(parts[..0]);
      assert PartText(parts[0]) == Failure(e);
    } else {
      FlattenFailsAtFirstBadPart(parts[1..]);
      var k :| 0 <= k < |parts[1..]| && PartText(parts[1..][k]) == Failure(e) && AllFlatten(parts[1..][..k]);
      assert parts[..k + 1] == [parts[0]] + parts[1..][..k];
      assert parts[k + 1] == parts[1..][k];
    }
  }

  /** `convert_message_content_to_string` as a value. */
  function ContentString(c: Content): (r: Result<string, Error>)
    ensures c.Text? ==> r == Success(c.s)
    ensures c.Parts? ==> r == Flatten(c.parts)
  {
    match c
    case Text(s) => Success(s)
    case Parts(ps) => Flatten(ps)
  }

  /** `convert_message_content_to_string`: collects the contributions in a list and joins
      them; the exception of a malformed part escapes. */
  method ConvertMessageContentToString(content: Content) returns (r: Result<string, Error>)
    ensures r == ContentString(content)
  {
    if content.Text? {
      return Success(content.s);
    }
    var parts := content.parts;
    var text: seq<string> := [];
    var i := 0;
    assert parts[0..] == parts;
    PrependEmpty(Flatten(parts));
    while i < |parts|
      invariant 0 <= i <= |parts|
      invariant Flatten(parts) == Prepend(Concat(text), Flatten(parts[i..]))
    {
      var item := parts[i];
      assert parts[i..][0] == item && parts[i..][1..] == parts[i + 1..];
      assert Flatten(parts[i..]) == match PartText(item)
        case Failure(e) => Failure(e)
        case Success(x) => Prepend(x, Flatten(parts[i + 1..]));
      if PartText(item).Success? {
        PrependPrepend(Concat(text), PartText(item).value, Flatten(parts[i + 1..]));
      }
      match item {
        case Str(s) =>
          ConcatSnoc(text, s);
          text := text + [s];
        case Item(f) =>
          if "type" !in f {
            return Failure(KeyError("type"));
          }
          if f["type"] == "text" {
            if "text" !in f {
              return Failure(KeyError("text"));
            }
            ConcatSnoc(text, f["text"]);
            text := text + [f["text"]];
          } else {
            assert Concat(text) + "" == Concat(text);
          }
      }
      i := i + 1;
    }
    assert parts[i..] == [];
    assert Concat(text) + "" == Concat(text);
    return Success(Concat(text));
  }

  /** Flattening distributes over concatenation of the part lists. */
  lemma {:induction false} FlattenAppend(a: seq<Part>, b: seq<Part>)
    ensures Flatten(a + b) == match Flatten(a)
      case Failure(e) => Failure(e)
      case Success(x) => Prepend(x, Flatten(b))
  {
    if a != [] {
      assert (a + b)[0] == a[0] && (a + b)[1..] == a[1..] + b;
      FlattenAppend(a[1..], b);
      match Flatten(b) {
        case Failure(_) =>
        case Success(y) =>
          match PartText(a[0]) {
            case Failure(_) =>
            case Success(x) =>
              if Flatten(a[1..]).Success? {
                assert x + (Flatten(a[1..]).value + y) == (x + Flatten(a[1..]).value) + y;
              }
          }
      }
    } else {
      assert a + b == b;
      PrependEmpty(Flatten(b));
    }
  }

  /** List content made of strings only joins to their concatenation. */
  lemma {:induction false} StringsOnlyJoin(strings: seq<string>)
    ensures Flatten(seq(|strings|, k requires 0 <= k < |strings| => Str(strings[k]))) == Success(Concat(strings))
  {
    var parts := seq(|strings|, k requires 0 <= k < |strings| => Str(strings[k]));
    assert Texts(parts) == strings;
  }

  // ---------------------------------------------------------------------------
  // ChatMessage

  /** `ChatMessage.type`. */
  datatype Role = HumanRole | AiRole | ToolRole

  function RoleName(r: Role): string {
    match r
    case HumanRole => "human"
    case AiRole => "ai"
    case ToolRole => "tool"
  }

  /** The role a message class maps to. */
  function RoleOf(m: Message): Role
    requires !m.System?
  {
    match m
    case Human(_, _) => HumanRole
    case AI(_, _, _) => AiRole
    case Tool(_, _, _) => ToolRole
  }

  /** `ChatMessage.original`: empty, or the serialised message. Serialisation is not
      modelled; the serialised form holds the message itself, so deserialising gives it back. */
  datatype Original = NoOriginal | Serialized(message: Message)

  /** `ChatMessage.model_dump()`. */
  datatype ChatMessageData = ChatMessageData(
    role: Role,
    content: string,
    toolCalls: seq<ToolCall>,
    toolCallId: Option<string>,
    runId: Option<string>,
    original: Original)

  /** `ChatMessage.from_langchain` as a value: the role of the message class, the flattened
      content, the tool calls of an AI message, the call id of a tool message, and the
      serialised original; a system message is refused. */
  function FromLangchainData(m: Message): (r: Result<ChatMessageData, Error>)
    ensures m.System? ==> r == Failure(ValueError("Unsupported message type: SystemMessage"))
    ensures !m.System? ==> (r.Failure? <==> ContentString(m.content).Failure?)
    ensures !m.System? && r.Failure? ==> r.error == ContentString(m.content).error
    ensures r.Success? ==>
      && !m.System?
      && r.value.role == RoleOf(m)
      && ContentString(m.content) == Success(r.value.content)
      && r.value.toolCalls == (if m.AI? then m.toolCalls else [])
      && r.value.toolCallId == (if m.Tool? then Some(m.toolCallId) else None)
      && r.value.runId == None
      && r.value.original == Serialized(m)
  {
    if m.System? then Failure(ValueError("Unsupported message type: SystemMessage"))
    else
      match ContentString(m.content)
      case Failure(e) => Failure(e)
      case Success(text) =>
        Success(ChatMessageData(
          RoleOf(m), text,
          if m.AI? then m.toolCalls else [],
          if m.Tool? then Some(m.toolCallId) else None,
          None, Serialized(m)))
  }

  /** The message with its content replaced: same class, id, tool calls and call id. */
  function WithContent(m: Message, c: Content): (r: Message)
    ensures r.content == c
    ensures r.(content := m.content) == m
  {
    m.(content := c)
  }

  /** `ChatMessage.to_langchain` as a value: the deserialised original carrying the current
      content; with no original only a human message can be rebuilt. */
  function ToLangchainData(d: ChatMessageData): (r: Result<Message, Error>)
    ensures d.original.Serialized? ==> r == Success(WithContent(d.original.message, Text(d.content)))
    ensures d.original.NoOriginal? && d.role == HumanRole ==> r == Success(Human(Text(d.content), None))
    ensures d.original.NoOriginal? && d.role != HumanRole ==>
      r == Failure(NotImplementedError("Unsupported message type: " + RoleName(d.role)))
  {
    match d.original
    case Serialized(m) => Success(WithContent(m, Text(d.content)))
    case NoOriginal =>
      if d.role == HumanRole then Success(Human(Text(d.content), None))
      else Failure(NotImplementedError("Unsupported message type: " + RoleName(d.role)))
  }

  /** The message record sent to the client. */
  class ChatMessage {
    var role: Role
    var content: string
    var toolCalls: seq<ToolCall>
    var toolCallId: Option<string>
    var runId: Option<string>
    var original: Original

    /** `ChatMessage(type=..., content=..., tool_call_id=..., original=...)`; the other
        fields take their defaults. */
    constructor (role: Role, content: string, toolCallId: Option<string>, original: Original)
      ensures Dump() == ChatMessageData(role, content, [], toolCallId, None, original)
    {
      this.role := role;
      this.content := content;
      this.toolCalls := [];
      this.toolCallId := toolCallId;
      this.runId := None;
      this.original := original;
    }

    /** `model_dump()`. */
    function Dump(): ChatMessageData
      reads this
    {
      ChatMessageData(role, content, toolCalls, toolCallId, runId, original)
    }

    /** `ChatMessage.from_langchain`: a new record, or the exception it raises. */
    static method FromLangchain(m: Message) returns (r: Result<ChatMessage, Error>)
      ensures r.Success? <==> FromLangchainData(m).Success?
      ensures r.Success? ==> fresh(r.value) && r.value.Dump() == FromLangchainData(m).value
      ensures r.Failure? ==> r.error == FromLangchainData(m).error
    {
      var original := Serialized(m);
      if m.System? {
        return Failure(ValueError("Unsupported message type: SystemMessage"));
      }
      var text := ConvertMessageContentToString(m.content);
      if text.Failure? {
        return Failure(text.error);
      }
      match m {
        case Human(_, _) =>
          var c := new ChatMessage(HumanRole, text.value, None, original);
          return Success(c);
        case AI(_, calls, _) =>
          var c := new ChatMessage(AiRole, text.value, None, original);
          if |calls| > 0 {
            c.toolCalls := calls;
          }
          return Success(c);
        case Tool(_, callId, _) =>
          var c := new ChatMessage(ToolRole, text.value, Some(callId), original);
          return Success(c);
      }
    }

    /** `to_langchain()`. */
    function ToLangchain(): Result<Message, Error>
      reads this
    {
      ToLangchainData(Dump())
    }
  }

  /** Round trip: converting a message and back gives the message of the same class with
      its content replaced by the flattened content; the run id plays no part. */
  lemma RoundTrip(m: Message, runId: Option<string>)
    requires FromLangchainData(m).Success?
    ensures var d := FromLangchainData(m).value;
      var back := ToLangchainData(d.(runId := runId));
      && back == Success(WithContent(m, Text(d.content)))
      && !back.value.System? && RoleOf(back.value) == RoleOf(m)
      && ContentString(back.value.content) == ContentString(m.content)
  {
  }

  /** Converting the rebuilt message again changes nothing the client sees: same role,
      content, tool calls and call id. */
  lemma {:induction false} SecondRoundTripIsStable(m: Message)
    requires FromLangchainData(m).Success?
    ensures var d := FromLangchainData(m).value;
      var again := FromLangchainData(ToLangchainData(d).value);
      && again.Success?
      && again.value == d.(original := Serialized(WithContent(m, Text(d.content))))
  {
    var d := FromLangchainData(m).value;
    var back := WithContent(m, Text(d.content));
    assert ContentString(back.content) == Success(d.content);
    assert back.AI? ==> back.toolCalls == m.toolCalls;
    assert back.Tool? ==> back.toolCallId == m.toolCallId;
  }

  /** Without a serialised original only the human role can be converted back. */
  lemma OnlyHumanRebuildsWithoutOriginal(d: ChatMessageData)
    requires d.original.NoOriginal?
    ensures ToLangchainData(d).Success? <==> d.role == HumanRole
  {
  }
}
