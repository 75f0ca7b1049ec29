/** Conversation messages as the agent graphs see them: a closed set of roles, content that
    is either one string or a list of parts, and the tool calls a model attaches to its reply. */
module Messages {
  import opened Wrappers

  /** One element of list-shaped content: a bare string, or a dictionary such as
      `{"type": "text", "text": "..."}` (only string-valued keys are modelled). */
  datatype Part = Str(s: string) | Item(fields: map<string, string>)

  /** Message content: a string, or a list of parts. */
  datatype Content = Text(s: string) | Parts(parts: seq<Part>)

  /** A model-requested tool invocation: name, argument mapping and the id the model chose. */
  datatype ToolCall = ToolCall(name: string, args: map<string, string>, id: string)

  /** The message classes that occur in the graphs; `id` is the optional message id. */
  datatype Message =
    | Human(content: Content, id: Option<string>)
    | AI(content: Content, toolCalls: seq<ToolCall>, id: Option<string>)
    | Tool(content: Content, toolCallId: string, id: Option<string>)
    | System(content: Content, id: Option<string>)

  /** `messages[-1]`. */
  function Last(messages: seq<Message>): Message
    requires |messages| > 0
  {
    messages[|messages| - 1]
  }

  /** The name of the pseudo-tool a model calls to put a question to the human. */
  const ASK_HUMAN_TOOL := "AskHuman"

  /** What a model reply asks for, as both routers read it: nothing, the human, or a tool. */
  datatype Intent = NoToolCalls | AsksHuman | CallsTool

  /** Only the first tool call's name is inspected. */
  function IntentOf(calls: seq<ToolCall>): (i: Intent)
    ensures i == NoToolCalls <==> |calls| == 0
    ensures i == AsksHuman <==> |calls| > 0 && calls[0].name == ASK_HUMAN_TOOL
    ensures i == CallsTool <==> |calls| > 0 && calls[0].name != ASK_HUMAN_TOOL
  {
    if |calls| == 0 then NoToolCalls
    else if calls[0].name == ASK_HUMAN_TOOL then AsksHuman
    else CallsTool
  }

  /** Calls after the first never change the intent. */
  lemma OnlyFirstCallMatters(calls: seq<ToolCall>, more: seq<ToolCall>)
    requires |calls| > 0
    ensures IntentOf(calls + more) == IntentOf(calls[..1])
  {
    assert (calls + more)[0] == calls[0];
  }

  /** The tool-result message the human-input nodes append once resumed with `resumed`:
      it answers the first tool call of the pending model reply. */
  function AnswerFirstCall(pending: Message, resumed: string): (r: Message)
    requires pending.AI? && |pending.toolCalls| > 0
    ensures r.Tool? && r.toolCallId == pending.toolCalls[0].id
    ensures r.content == Text(resumed) && r.id == None
  {
    Tool(Text(resumed), pending.toolCalls[0].id, None)
  }
}
