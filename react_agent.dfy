/** The ReAct loop with a context slot and a human-input interrupt: an agent node that
    prompts the model with the stored context, a router on the reply's first tool call,
    a tool node, and an `ask_human` node that answers with the value the run was resumed
    with. The model is a parameter: a function from the prompt to its reply. */
module ReactAgent {
  import opened Wrappers
  import opened Messages

  /** The nodes, and the end of the run. */
  datatype Node = Start | Agent | Action | AskHumanNode | End

  /** The name each node is registered under. */
  function NodeName(n: Node): string {
    match n
    case Start => "__start__"
    case Agent => "agent"
    case Action => "action"
    case AskHumanNode => "ask_human"
    case End => "__end__"
  }

  /** The graph state; `contexto` is `None` while the key is absent. */
  datatype State = State(messages: seq<Message>, contexto: Option<string>)

  /** The context used when the state has none. */
  const DEFAULT_CONTEXTO := "Las oficinas seleccionadas son: Iquique y Santiago"

  /** The instruction that follows the context in the system prompt. */
  const INSTRUCTION :=
    "Si el usuario pregunta por las oficinas seleccionadas, responde directamente al usuario INFORMANDO las oficinas seleccionadas en el contexto y finaliza."

  /** `state.get("contexto", DEFAULT_CONTEXTO)`: the default replaces an absent key only. */
  function Contexto(st: State): (c: string)
    ensures st.contexto.Some? ==> c == st.contexto.value
    ensures st.contexto.None? ==> c == DEFAULT_CONTEXTO
  {
    st.contexto.GetOr(DEFAULT_CONTEXTO)
  }

  /** What `call_model` sends to the model: one system message, the context, a blank line
      and the instruction, ahead of the conversation so far. */
  function ModelInput(st: State): (prompt: seq<Message>)
    ensures |prompt| == |st.messages| + 1 && prompt[1..] == st.messages
    ensures prompt[0].System? && prompt[0].id == None && prompt[0].content.Text?
    ensures prompt[0].content.s == Contexto(st) + "\n\n" + INSTRUCTION
  {
    [System(Text(Contexto(st) + "\n\n" + INSTRUCTION), None)] + st.messages
  }

  /** `call_model` with `model` standing for the bound chat model: exactly one new message,
      the reply to the prompt. */
  function CallModel(st: State, model: seq<Message> -> Message): (delta: seq<Message>)
    ensures |delta| == 1 && delta[0] == model(ModelInput(st))
  {
    [model(ModelInput(st))]
  }

  /** `should_continue`: the conditional edge out of the agent, on the last message's first
      tool call. */
  function ShouldContinue(st: State): (n: Node)
    requires |st.messages| > 0 && Last(st.messages).AI?
    ensures var calls := Last(st.messages).toolCalls;
      && (n == End <==> |calls| == 0)
      && (n == AskHumanNode <==> |calls| > 0 && calls[0].name == ASK_HUMAN_TOOL)
      && (n == Action <==> |calls| > 0 && calls[0].name != ASK_HUMAN_TOOL)
  {
    match IntentOf(Last(st.messages).toolCalls)
    case NoToolCalls => End
    case AsksHuman => AskHumanNode
    case CallsTool => Action
  }

  /** `ask_human`, once resumed with `location`: one tool message answering the first tool
      call of the last message. */
  function AskHuman(st: State, location: string): (delta: seq<Message>)
    requires |st.messages| > 0 && Last(st.messages).AI? && |Last(st.messages).toolCalls| > 0
    ensures |delta| == 1 && delta[0].Tool? && delta[0].content == Text(location)
    ensures delta[0].toolCallId == Last(st.messages).toolCalls[0].id
  {
    [AnswerFirstCall(Last(st.messages), location)]
  }

  /** The unconditional edges: into the agent from the start, back to the agent from the
      tool node and from `ask_human`; `None` for the agent (its edge is conditional) and for
      the end. */
  function StaticNext(n: Node): (r: Option<Node>)
    ensures r.Some? <==> n in {Start, Action, AskHumanNode}
  {
    match n
    case Start => Some(Agent)
    case Action => Some(Agent)
    case AskHumanNode => Some(Agent)
    case Agent => None
    case End => None
  }

  /** The node after `n`, once the agent's reply is in the state. */
  function Next(n: Node, st: State): (r: Node)
    requires n != End
    requires n == Agent ==> |st.messages| > 0 && Last(st.messages).AI?
  {
    if n == Agent then ShouldContinue(st) else StaticNext(n).value
  }

  // ---------------------------------------------------------------------------

  /** Every edge out of a node other than the agent leads to the agent, and the agent leads
      to the end or to a node that returns to it: the cycle closes through the agent. */
  lemma EveryDetourReturnsToAgent(n: Node, st: State)
    requires n != End
    requires n == Agent ==> |st.messages| > 0 && Last(st.messages).AI?
    ensures n != Agent ==> Next(n, st) == Agent
    ensures n == Agent ==> Next(n, st) in {End, Action, AskHumanNode}
    ensures n == Agent && Next(n, st) != End ==> Next(Next(n, st), st) == Agent
  {
  }

  /** The stored context opens the prompt even when it is empty; the default appears only
      when the key is absent. */
  lemma StoredContextOpensPrompt(st: State, c: string)
    requires st.contexto == Some(c)
    ensures ModelInput(st)[0].content.s[..|c| + 2] == c + "\n\n"
  {
    assert ModelInput(st)[0].content.s == (c + "\n\n") + INSTRUCTION;
  }

  /** Suspend and resume: when the agent's reply asks the human, the `ask_human` node can run
      on the state holding that reply, and the next prompt ends with the human's answer to
      the reply's first tool call, right after the reply itself. */
  lemma {:induction false} ResumeAnswersTheQuestion(st: State, model: seq<Message> -> Message, location: string)
    requires var reply := CallModel(st, model)[0];
      reply.AI? && ShouldContinue(st.(messages := st.messages + [reply])) == AskHumanNode
    ensures var reply := CallModel(st, model)[0];
      var waiting := st.(messages := st.messages + [reply]);
      && |reply.toolCalls| > 0
      && var resumed := waiting.(messages := waiting.messages + AskHuman(waiting, location));
      && Next(AskHumanNode, waiting) == Agent
      && var prompt := ModelInput(resumed);
      && prompt[|prompt| - 2] == reply
      && prompt[|prompt| - 1] == Tool(Text(location), reply.toolCalls[0].id, None)
  {
    var reply := CallModel(st, model)[0];
    var waiting := st.(messages := st.messages + [reply]);
    assert Last(waiting.messages) == reply;
    var resumed := waiting.(messages := waiting.messages + AskHuman(waiting, location));
    var prompt := ModelInput(resumed);
    assert prompt[1..] == st.messages + [reply] + [Tool(Text(location), reply.toolCalls[0].id, None)];
  }
}
