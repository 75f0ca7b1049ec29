/** The office-analysis agent graph: a router that reads the user's in-band office
    selection, a guidance agent that either asks the human for a time period or writes a
    prompt for the analyst, and an analyst agent that calls report tools. Model replies,
    tool results and resumed answers are parameters; each node is the state delta and the
    next-node choice it returns. */
module Groker {
  import opened Wrappers
  import opened PyStr
  import opened Messages
  import opened OfficeSelection

  // Node names, as registered with the graph (END and START are the framework's).
  const START := "__start__"
  const END := "__end__"
  const CLEAN_MESSAGES := "clean_messages"
  const GUIDANCE_AGENT := "guidance_agent"
  const TOOL_NODE_PROMPT := "tool_node_prompt"
  const ASK_HUMAN := "ask_human"
  const VALIDATE_CONTEXT := "validate_context"
  const PROCESS_CONTEXT := "process_context"
  const CONTEXT_REQUEST_AGENT := "context_request_agent"
  const ANALYST_AGENT := "analyst_agent"
  const TOOLS_NODE_ANALYST := "tools_node_analyst"
  const UPDATE_GUIDANCE_PROMPT := "update_guidance_prompt"

  const NODES: set<string> := {
    CLEAN_MESSAGES, GUIDANCE_AGENT, TOOL_NODE_PROMPT, ASK_HUMAN, VALIDATE_CONTEXT, PROCESS_CONTEXT,
    CONTEXT_REQUEST_AGENT, ANALYST_AGENT, TOOLS_NODE_ANALYST, UPDATE_GUIDANCE_PROMPT
  }

  /** The id every office-selection context message carries. */
  const CONTEXTO_ID := "nuevo_contexto"

  /** The graph state; `None` is a key that has not been written yet. */
  datatype State = State(
    messages: seq<Message>,
    oficinas: Option<seq<string>>,
    contexto: Option<Message>,
    guidance: Option<Content>)

  /** A node's returned update; `None` is a key the update does not mention. */
  datatype Update = Update(
    messages: seq<Message>,
    oficinas: Option<seq<string>>,
    contexto: Option<Message>,
    guidance: Option<Content>)

  const NO_UPDATE := Update([], None, None, None)

  /** `Command(goto=..., update=...)`; a single target is a one-element list. */
  datatype Command = Command(goto: seq<string>, update: Update)

  /** Overwrites the keys an update mentions (the default channel behaviour); merging the
      message lists is the framework's reducer and is not modelled. */
  function ApplyToKeys(st: State, u: Update): (r: State)
    ensures r.messages == st.messages
    ensures r.oficinas == if u.oficinas.Some? then u.oficinas else st.oficinas
    ensures r.contexto == if u.contexto.Some? then u.contexto else st.contexto
    ensures r.guidance == if u.guidance.Some? then u.guidance else st.guidance
  {
    State(
      st.messages,
      if u.oficinas.Some? then u.oficinas else st.oficinas,
      if u.contexto.Some? then u.contexto else st.contexto,
      if u.guidance.Some? then u.guidance else st.guidance)
  }

  /** `state.get("oficinas", [])`. */
  function CurrentOffices(st: State): seq<string> {
    st.oficinas.GetOr([])
  }

  /** `set(offices)`. */
  function OfficeSet(offices: seq<string>): set<string> {
    set o | o in offices
  }

  /** `SystemMessage(content=offices)`: the list-shaped content of the selection context. */
  function OfficeParts(offices: seq<string>): (c: Content)
    ensures c.Parts? && |c.parts| == |offices|
    ensures forall k :: 0 <= k < |offices| ==> c.parts[k] == Str(offices[k])
  {
    Parts(seq(|offices|, k requires 0 <= k < |offices| => Str(offices[k])))
  }

  /** The update both match branches of the router write. */
  function SelectionUpdate(last: Message, offices: seq<string>): Update
    requires last.content.Text?
  {
    Update(
      [Human(Text(CleanMessage(last.content.s)), last.id)],
      Some(offices),
      Some(System(OfficeParts(offices), Some(CONTEXTO_ID))),
      None)
  }

  /** `context_node`, registered as `validate_context`: with a selection in the last
      message, forward the cleaned message and store the offices, fanning out to
      `process_context` only when the set of offices changed; without one, hand over to
      `context_request_agent` with no update. */
  function ContextNode(st: State): (c: Command)
    requires |st.messages| > 0 && Last(st.messages).content.Text?
    ensures var text := Last(st.messages).content.s;
      Search(text, 0).None? ==> c == Command([CONTEXT_REQUEST_AGENT], NO_UPDATE)
    ensures var text := Last(st.messages).content.s;
      Search(text, 0).Some? ==>
        var offices := ParseOffices(Search(text, 0).value.capture);
        && c.update.oficinas == Some(offices)
        && c.update.contexto == Some(System(OfficeParts(offices), Some(CONTEXTO_ID)))
        && c.update.messages == [Human(Text(CleanMessage(text)), Last(st.messages).id)]
        && c.update.guidance == None
        && (c.goto == [GUIDANCE_AGENT] <==> OfficeSet(offices) == OfficeSet(CurrentOffices(st)))
        && (c.goto == [GUIDANCE_AGENT, PROCESS_CONTEXT] <==> OfficeSet(offices) != OfficeSet(CurrentOffices(st)))
  {
    var last := Last(st.messages);
    match Search(last.content.s, 0)
    case None => Command([CONTEXT_REQUEST_AGENT], NO_UPDATE)
    case Some(m) =>
      var offices := ParseOffices(m.capture);
      if OfficeSet(offices) != OfficeSet(CurrentOffices(st)) then
        Command([GUIDANCE_AGENT, PROCESS_CONTEXT], SelectionUpdate(last, offices))
      else
        Command([GUIDANCE_AGENT], SelectionUpdate(last, offices))
  }

  /** `context_request_agent`: ends the turn with the model's reply as a fresh AI message
      and clears the office selection, the context and the guidance. */
  function ContextRequestAgent(st: State, reply: Content): (c: Command)
    ensures c.goto == [END]
    ensures |c.update.messages| == 1 && c.update.messages[0].AI?
    ensures c.update.messages[0].content == reply && c.update.messages[0].toolCalls == []
    ensures c.update.oficinas == Some([])
    ensures c.update.contexto == Some(System(Text(""), None))
    ensures c.update.guidance == Some(Text(""))
  {
    Command([END], Update([AI(reply, [], None)], Some([]), Some(System(Text(""), None)), Some(Text(""))))
  }

  /** The successor the guidance agent picks for a reply. */
  function GuidanceTarget(i: Intent): string {
    match i
    case NoToolCalls => END
    case AsksHuman => ASK_HUMAN
    case CallsTool => TOOL_NODE_PROMPT
  }

  /** `guidance_agent`: appends the model's reply and routes on its first tool call. */
  function GuidanceAgent(st: State, response: Message): (c: Command)
    requires response.AI?
    ensures c.update == Update([response], None, None, None)
    ensures c.goto == [END] <==> |response.toolCalls| == 0
    ensures c.goto == [ASK_HUMAN] <==> |response.toolCalls| > 0 && response.toolCalls[0].name == ASK_HUMAN_TOOL
    ensures c.goto == [TOOL_NODE_PROMPT] <==> |response.toolCalls| > 0 && response.toolCalls[0].name != ASK_HUMAN_TOOL
  {
    Command([GuidanceTarget(IntentOf(response.toolCalls))], Update([response], None, None, None))
  }

  /** `ask_human`, once resumed with `resumed`: one tool message answering the first tool
      call of the last message. */
  function AskHuman(st: State, resumed: string): (u: Update)
    requires |st.messages| > 0 && Last(st.messages).AI? && |Last(st.messages).toolCalls| > 0
    ensures |u.messages| == 1 && u.messages[0].Tool? && u.messages[0].content == Text(resumed)
    ensures u.messages[0].toolCallId == Last(st.messages).toolCalls[0].id
    ensures u.oficinas == None && u.contexto == None && u.guidance == None
  {
    Update([AnswerFirstCall(Last(st.messages), resumed)], None, None, None)
  }

  /** `make_prompt`, the guidance agent's tool: returns its argument. */
  function MakePrompt(internalPrompt: string): string
  {
    internalPrompt
  }

  /** `process_context`: replaces the context with the available-data text looked up for
      the selected offices (`available` is the lookup's rendered result). */
  function ProcessContext(st: State, available: string): (u: Update)
    ensures u.messages == [] && u.oficinas == None && u.guidance == None
    ensures u.contexto.Some? && u.contexto.value.System? && u.contexto.value.id == Some(CONTEXTO_ID)
    ensures u.contexto.value.content == Text("Datos disponibles para las oficinas: \n " + available)
  {
    Update([], None, Some(System(Text("Datos disponibles para las oficinas: \n " + available), Some(CONTEXTO_ID))), None)
  }

  /** The guard of `update_guidance_prompt`: offices selected (a non-empty list), a context
      stored, and a non-empty tool result last. */
  predicate GuidanceReady(st: State)
    requires |st.messages| > 0
  {
    var last := Last(st.messages);
    st.contexto.Some? && |CurrentOffices(st)| > 0 && last.Tool? && last.content != Text("")
  }

  /** `update_guidance_prompt`: when ready, stores the tool result as guidance and hands over
      to the analyst; otherwise it returns nothing. */
  function UpdateGuidancePrompt(st: State): (r: Option<Command>)
    requires |st.messages| > 0
    ensures r.Some? <==> GuidanceReady(st)
    ensures r.Some? ==> r.value.goto == [ANALYST_AGENT]
    ensures r.Some? ==> r.value.update == Update([Last(st.messages)], None, None, Some(Last(st.messages).content))
  {
    var last := Last(st.messages);
    if st.contexto.Some? && st.oficinas.Some? && |st.oficinas.value| > 0 then
      if last.Tool? && last.content != Text("") then
        Some(Command([ANALYST_AGENT], Update([last], None, None, Some(last.content))))
      else None
    else None
  }

  /** `analyst_agent`: appends the model's reply; ends iff it calls no tool. */
  function AnalystAgent(st: State, response: Message): (c: Command)
    requires response.AI?
    ensures c.update == Update([response], None, None, None)
    ensures c.goto == [END] <==> |response.toolCalls| == 0
    ensures c.goto == [TOOLS_NODE_ANALYST] <==> |response.toolCalls| > 0
  {
    if |response.toolCalls| > 0 then Command([TOOLS_NODE_ANALYST], Update([response], None, None, None))
    else Command([END], Update([response], None, None, None))
  }

  /** The static edges of the graph. */
  const EDGES: seq<(string, string)> := [
    (START, CLEAN_MESSAGES),
    (ASK_HUMAN, GUIDANCE_AGENT),
    (CLEAN_MESSAGES, VALIDATE_CONTEXT),
    (PROCESS_CONTEXT, UPDATE_GUIDANCE_PROMPT),
    (TOOL_NODE_PROMPT, UPDATE_GUIDANCE_PROMPT),
    (TOOLS_NODE_ANALYST, ANALYST_AGENT)
  ]

  /** The nodes that choose their successor by returning a command, and the end. */
  const COMMAND_ROUTED: set<string> :=
    {VALIDATE_CONTEXT, GUIDANCE_AGENT, CONTEXT_REQUEST_AGENT, ANALYST_AGENT, UPDATE_GUIDANCE_PROMPT, END}

  /** The targets of the static edges leaving `n`, in the order they were added. */
  function StaticSuccessors(n: string): (r: seq<string>)
    ensures forall t :: t in r <==> (n, t) in EDGES
  {
    Targets(EDGES, n)
  }

  function Targets(edges: seq<(string, string)>, n: string): (r: seq<string>)
    ensures forall t :: t in r <==> (n, t) in edges
  {
    if edges == [] then []
    else (if edges[0].0 == n then [edges[0].1] else []) + Targets(edges[1..], n)
  }
  // ---------------------------------------------------------------------------
  // Properties of the router and of the nodes around it.

  /** The router sees the stored offices only as a set: two states that agree on the last
      message and on the set of stored offices get the same command. */
  lemma RouterSeesOnlyTheOfficeSet(st1: State, st2: State)
    requires |st1.messages| > 0 && Last(st1.messages).content.Text?
    requires |st2.messages| > 0 && Last(st2.messages) == Last(st1.messages)
    requires OfficeSet(CurrentOffices(st1)) == OfficeSet(CurrentOffices(st2))
    ensures ContextNode(st1) == ContextNode(st2)
  {
  }

  /** Both match branches write the same update; the stored offices decide only the fan-out. */
  lemma MatchBranchesWriteTheSameUpdate(st1: State, st2: State)
    requires |st1.messages| > 0 && Last(st1.messages).content.Text?
    requires |st2.messages| > 0 && Last(st2.messages) == Last(st1.messages)
    requires Search(Last(st1.messages).content.s, 0).Some?
    ensures ContextNode(st1).update == ContextNode(st2).update
    ensures GUIDANCE_AGENT == ContextNode(st1).goto[0] == ContextNode(st2).goto[0]
  {
  }

  /** As written, the branch for an unchanged set of offices still overwrites the context
      with the bare office list: the available-data text `process_context` stored for that
      same selection is lost, and `process_context` is not run to put it back. */
  lemma SameSelectionDropsAvailableData(st: State, available: string)
    requires |st.messages| > 0 && Last(st.messages).content.Text?
    requires Search(Last(st.messages).content.s, 0).Some?
    requires OfficeSet(ParseOffices(Search(Last(st.messages).content.s, 0).value.capture)) == OfficeSet(CurrentOffices(st))
    requires st.contexto == ProcessContext(st, available).contexto
    ensures ContextNode(st).goto == [GUIDANCE_AGENT]
    ensures ApplyToKeys(st, ContextNode(st).update).contexto != st.contexto
  {
  }

  /** The router with the unchanged-set branch writing no context, as its message
      ("manteniendo contexto") announces; a changed set is handled as before. */
  function ContextNodeKeepingContext(st: State): (c: Command)
    requires |st.messages| > 0 && Last(st.messages).content.Text?
    ensures c.goto == ContextNode(st).goto
    ensures c.update.messages == ContextNode(st).update.messages
    ensures c.update.oficinas == ContextNode(st).update.oficinas
    ensures c.update.guidance == ContextNode(st).update.guidance
    ensures c.goto == [GUIDANCE_AGENT] ==> c.update.contexto == None
    ensures c.goto != [GUIDANCE_AGENT] ==> c == ContextNode(st)
  {
    var last := Last(st.messages);
    match Search(last.content.s, 0)
    case None => Command([CONTEXT_REQUEST_AGENT], NO_UPDATE)
    case Some(m) =>
      var offices := ParseOffices(m.capture);
      if OfficeSet(offices) != OfficeSet(CurrentOffices(st)) then
        Command([GUIDANCE_AGENT, PROCESS_CONTEXT], SelectionUpdate(last, offices))
      else
        Command([GUIDANCE_AGENT], SelectionUpdate(last, offices).(contexto := None))
  }

  /** With the corrected router, an unchanged selection keeps whatever context is stored
      (in particular the available-data text) and still stores the offices and forwards the
      cleaned message. */
  lemma {:induction false} KeepingContextKeepsTheStoredContext(st: State)
    requires |st.messages| > 0 && Last(st.messages).content.Text?
    requires Search(Last(st.messages).content.s, 0).Some?
    requires OfficeSet(ParseOffices(Search(Last(st.messages).content.s, 0).value.capture)) == OfficeSet(CurrentOffices(st))
    ensures ContextNodeKeepingContext(st).goto == [GUIDANCE_AGENT]
    ensures var after := ApplyToKeys(st, ContextNodeKeepingContext(st).update);
      && after.contexto == st.contexto
      && after.oficinas == Some(ParseOffices(Search(Last(st.messages).content.s, 0).value.capture))
  {
    var c := ContextNode(st);
    assert c.goto == [GUIDANCE_AGENT];
  }

  /** After a selection has been stored, a non-empty tool result always reaches the analyst:
      the parsed list is never empty (even `[]` selects `[""]`) and the context is set. */
  lemma {:induction false} SelectionEnablesGuidance(st: State, tool: Message)
    requires |st.messages| > 0 && Last(st.messages).content.Text?
    requires Search(Last(st.messages).content.s, 0).Some?
    requires tool.Tool? && tool.content != Text("")
    ensures var after := ApplyToKeys(st, ContextNode(st).update);
      var ready := after.(messages := after.messages + [tool]);
      UpdateGuidancePrompt(ready) == Some(Command([ANALYST_AGENT], Update([tool], None, None, Some(tool.content))))
  {
    var offices := ParseOffices(Search(Last(st.messages).content.s, 0).value.capture);
    assert |offices| >= 1;
  }

  /** After `context_request_agent` has reset the state, `update_guidance_prompt` never fires. */
  lemma ResetDisablesGuidance(st: State, reply: Content, later: seq<Message>)
    requires |later| > 0
    ensures var after := ApplyToKeys(st, ContextRequestAgent(st, reply).update);
      UpdateGuidancePrompt(after.(messages := later)).None?
  {
  }

  /** The guidance agent's prompt tool feeds the guidance: the tool result that answers a
      `make_prompt` call with a non-empty prompt becomes the stored guidance, verbatim. */
  lemma PromptBecomesGuidance(st: State, prompt: string, callId: string)
    requires st.contexto.Some? && |CurrentOffices(st)| > 0 && prompt != ""
    ensures var result := Tool(Text(MakePrompt(prompt)), callId, None);
      var r := UpdateGuidancePrompt(st.(messages := st.messages + [result]));
      r.Some? && r.value.update.guidance == Some(Text(prompt)) && r.value.goto == [ANALYST_AGENT]
  {
    var result := Tool(Text(MakePrompt(prompt)), callId, None);
    assert Text(prompt) != Text("");
    assert Last(st.messages + [result]) == result;
  }

  /** Suspend and resume: when the guidance agent routes to `ask_human`, that node can run on
      the state holding the reply, and the tool message it appends answers the reply's first
      tool call with exactly the resumed value. */
  lemma SuspendResumeRoundTrip(st: State, response: Message, resumed: string)
    requires response.AI? && GuidanceAgent(st, response).goto == [ASK_HUMAN]
    ensures var waiting := st.(messages := st.messages + GuidanceAgent(st, response).update.messages);
      && |waiting.messages| > 0 && Last(waiting.messages) == response && |response.toolCalls| > 0
      && AskHuman(waiting, resumed).messages == [Tool(Text(resumed), response.toolCalls[0].id, None)]
  {
    var waiting := st.(messages := st.messages + [response]);
    assert Last(waiting.messages) == response;
  }

  /** Every command stays within the targets its node declares (`Command[Literal[...]]`),
      and every target is a registered node or the end. */
  lemma CommandsStayInDeclaredTargets(st: State, response: Message, reply: Content)
    requires |st.messages| > 0 && Last(st.messages).content.Text? && response.AI?
    ensures forall t :: t in ContextNode(st).goto ==> t in {GUIDANCE_AGENT, PROCESS_CONTEXT, CONTEXT_REQUEST_AGENT}
    ensures forall t :: t in GuidanceAgent(st, response).goto ==> t in {ASK_HUMAN, TOOL_NODE_PROMPT, END}
    ensures forall t :: t in AnalystAgent(st, response).goto ==> t in {TOOLS_NODE_ANALYST, END}
    ensures ContextRequestAgent(st, reply).goto == [END]
    ensures UpdateGuidancePrompt(st).Some? ==> UpdateGuidancePrompt(st).value.goto == [ANALYST_AGENT]
    ensures {GUIDANCE_AGENT, PROCESS_CONTEXT, CONTEXT_REQUEST_AGENT, ASK_HUMAN, TOOL_NODE_PROMPT,
             TOOLS_NODE_ANALYST, ANALYST_AGENT} <= NODES
  {
  }

  /** The turn enters at `clean_messages`, which hands over to the router. */
  lemma TurnEntryEdges()
    ensures forall t :: t in StaticSuccessors(START) <==> t == CLEAN_MESSAGES
    ensures forall t :: t in StaticSuccessors(CLEAN_MESSAGES) <==> t == VALIDATE_CONTEXT
  {
  }

  /** The human's answer returns to the guidance agent, and the analyst's tools to the analyst. */
  lemma ToolReturnEdges()
    ensures forall t :: t in StaticSuccessors(ASK_HUMAN) <==> t == GUIDANCE_AGENT
    ensures forall t :: t in StaticSuccessors(TOOLS_NODE_ANALYST) <==> t == ANALYST_AGENT
  {
  }

  /** Both `process_context` and the prompt tool lead to `update_guidance_prompt`. */
  lemma GuidanceJoinEdges()
    ensures forall t :: t in StaticSuccessors(PROCESS_CONTEXT) <==> t == UPDATE_GUIDANCE_PROMPT
    ensures forall t :: t in StaticSuccessors(TOOL_NODE_PROMPT) <==> t == UPDATE_GUIDANCE_PROMPT
  {
  }

  /** The nodes that route by command have no static edge. */
  lemma CommandRoutedNodesHaveNoEdges()
    ensures forall n, t :: n in COMMAND_ROUTED ==> t !in StaticSuccessors(n)
  {
  }
}
