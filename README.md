# groker: agent graphs and their streaming endpoint, in Dafny

This project models four parts of groker, a LangGraph-based office-analysis assistant.

- **The office-analysis graph** (`lgraph_essentials/groker_v0_1.py`).
  - A router, `context_node` (registered as `validate_context`), reads an in-band office selection from the user's message. The selection is written `Considera las oficinas ['a','b']`.
  - The router stores the selected offices and forwards the message with the selection removed. It fans out to `process_context` only when the *set* of offices changed. With no selection it hands over to `context_request_agent`, which ends the turn and resets the state.
  - A guidance agent routes on its reply's first tool call: it asks the human (an interrupt), calls its prompt tool, or ends.
  - `update_guidance_prompt` turns a non-empty tool result into the stored guidance. The analyst agent then loops through its report tools.
- **The ReAct loop with context and interrupt** (`lgraph_essentials/React_context_and_interrupt.py`).
  - An agent node prompts the model with the stored context, or with a default when none is stored.
  - A router picks the end, the tool node or `ask_human`. `ask_human` answers the pending tool call with the value the run was resumed with.
- **The log-analysis subgraphs** (`lgraph_essentials/subgraphs.py`).
  - The failure analysis keeps the logs that carry a `grade` key.
  - The question summarisation names one summary per log.
  - The entry graph cleans the logs, runs both subgraphs, and adds up their `processed_logs`.
- **The streaming endpoint's core** (`ttp_agentic/graph_streamer_con_ChatMessage_v1.py`).
  - Content flattening (`convert_message_content_to_string`).
  - The `ChatMessage` record and its conversion from and back to a LangChain message.
  - `call_graph`: it starts a new turn or resumes an interrupted one, converts the messages of every reported batch, and sends them as server-sent events closed by `[DONE]`.

## How it is modelled

- **Graph nodes.** Each node is modelled as a function from the state, plus the model reply or resumed value it receives as a parameter. The result is the node's update, and the `Command` it returns where it routes by command.
  - State keys that have not been written are `None`.
  - Node names are the registered strings.
- **Regular expression.** The selection pattern `Considera las oficinas \[(.*?)\]` is written out by hand:
  - `Search` is `re.search`: the leftmost match, whose lazy group stops at the first `]` and cannot cross a newline.
  - `RemoveMatches` is the single pass of `re.sub`.
- **Python `str` operations.** `str.strip()`, `strip("'")`, `split(",")` and `"".join` are written out in `PyStr` (`pystr.dfy`), with Python's edge cases.
- **`ChatMessage`.**
  - It is a class whose fields the code updates in place.
  - `FromLangchain` is a static method proved against its value-level specification `FromLangchainData`.
  - `call_graph` is the imperative method `CallGraph`, proved equal to the function `CallGraphAsWritten`.

The code's streaming loop differs from the plain description of the endpoint in three ways, and the model follows the code:

- Unconvertible messages produce `error` events.
- No `token` events are produced.
- The last record of each batch is what gets sent (see Findings).

## Model

| member | source | states |
|---|---|---|
| PyStr.Strip | lgraph_essentials/groker_v0_1.py:212 | `str.strip()` / `strip("'")`: the result is made of the input's characters, neither starts nor ends with a removed character, and an input already of that shape is returned unchanged |
| PyStr.StripIsTrim | lgraph_essentials/groker_v0_1.py:212 | what `Strip` returns is the contiguous middle of its input left by cutting only removed characters, and only from the two ends |
| PyStr.Split | lgraph_essentials/groker_v0_1.py:222-224 | `split(",")` yields at least one piece and no piece holds the separator |
| PyStr.JoinSplit | lgraph_essentials/groker_v0_1.py:222-224 | joining the pieces of a split with the separator gives the original string back |
| PyStr.SplitCount | lgraph_essentials/groker_v0_1.py:222-224 | a split has exactly one more piece than the string has separators |
| PyStr.SplitJoin | lgraph_essentials/groker_v0_1.py:222-224 | splitting a join of separator-free pieces gives the pieces back |
| Messages.IntentOf | lgraph_essentials/groker_v0_1.py:181-187 | a reply means "end" iff it has no tool calls, "ask the human" iff its first call is `AskHuman`, "use a tool" iff its first call is anything else |
| Messages.OnlyFirstCallMatters | lgraph_essentials/React_context_and_interrupt.py:77-90 | tool calls after the first never change the routing decision |
| Messages.AnswerFirstCall | lgraph_essentials/groker_v0_1.py:192-198 | the appended tool message answers the pending reply's first tool call and carries exactly the resumed value |
| OfficeSelection.CloseFrom | lgraph_essentials/groker_v0_1.py:207-208 | finds the `]` that closes the lazy group, the first one with no newline before it, and no other |
| OfficeSelection.MatchAt | lgraph_essentials/groker_v0_1.py:207-208 | the pattern matches at a position iff a capture is returned, and the capture is the unique one the pattern allows there |
| OfficeSelection.Search | lgraph_essentials/groker_v0_1.py:207-208 | `re.search`: a reported match is a real match and no earlier position matches; `None` means no position matches |
| OfficeSelection.CaptureUnique | lgraph_essentials/groker_v0_1.py:220 | `match.group(1)` is determined by where the match starts |
| OfficeSelection.LeftmostIsFound | lgraph_essentials/groker_v0_1.py:208 | a match with no earlier one is exactly the one `re.search` reports |
| OfficeSelection.RemoveMatches | lgraph_essentials/groker_v0_1.py:212 | `re.sub` never lengthens the text, and it leaves the text unchanged iff the pattern does not occur |
| OfficeSelection.CleanMessage | lgraph_essentials/groker_v0_1.py:212 | the forwarded message is the text with its selections removed and only white space cut from its two ends, and it neither starts nor ends with white space |
| OfficeSelection.MatchInTail | lgraph_essentials/groker_v0_1.py:207-208 | a match inside a message is also a match, at the shifted position, inside any tail of the message that contains it |
| OfficeSelection.NoMatchInTail | lgraph_essentials/groker_v0_1.py:212 | if a tail of the message holds no selection, searching the message from that point finds none, and `re.sub` keeps that tail unchanged |
| OfficeSelection.ShortTailKept | lgraph_essentials/groker_v0_1.py:212 | a tail shorter than the pattern's literal part holds no match and is kept as is |
| OfficeSelection.RemovalJoinsTheSurroundings | lgraph_essentials/groker_v0_1.py:212 | a selection with no match before it, followed by a tail that holds no selection, is cut out and the text around it is joined |
| OfficeSelection.RemovalCanLeaveASelection | lgraph_essentials/groker_v0_1.py:212 | the text that joining leaves can itself be a selection, because `re.sub` makes a single pass |
| OfficeSelection.SelectionFirst | lgraph_essentials/groker_v0_1.py:207-212 | for a message that opens with the selection, the text between the brackets is the capture, and a remainder that holds no selection is what is forwarded |
| OfficeSelection.OfficeName | lgraph_essentials/groker_v0_1.py:223 | one office name uses only the piece's characters and neither starts nor ends with a quote |
| OfficeSelection.OfficeNameIsTrim | lgraph_essentials/groker_v0_1.py:223 | an office name is the piece with white space cut from its ends, leaving a part that starts and ends with no white space, and then quotes cut from the ends of that part |
| OfficeSelection.ParseOffices | lgraph_essentials/groker_v0_1.py:220-224 | one office per comma-separated piece, in order, each the stripped and unquoted piece |
| OfficeSelection.OfficesAreClean | lgraph_essentials/groker_v0_1.py:220-224 | no parsed office name holds a comma or starts or ends with a quote |
| OfficeSelection.EmptyBrackets | lgraph_essentials/groker_v0_1.py:220-224 | `[]` selects one office with an empty name |
| OfficeSelection.QuotedName | lgraph_essentials/groker_v0_1.py:223 | a name typed in the conventional `'name'` form loses exactly its two quotes |
| OfficeSelection.TwoPieces | lgraph_essentials/groker_v0_1.py:222-224 | two comma-free pieces joined by a comma give two offices, in order |
| OfficeSelection.TwoQuotedOffices | lgraph_essentials/groker_v0_1.py:222-224 | `'a','b'` selects the offices `a` and `b` |
| OfficeSelection.SpacedQuotedName | lgraph_essentials/groker_v0_1.py:223 | a quoted name after a blank, as it follows the comma in `'a', 'b'`, loses the blank and both quotes |
| OfficeSelection.TwoQuotedOfficesSpaced | lgraph_essentials/groker_v0_1.py:222-224 | `'a', 'b'`, with a blank after the comma as in the program's example selections, selects the offices `a` and `b` |
| Groker.ApplyToKeys | lgraph_essentials/groker_v0_1.py:56-60 | a key the update mentions is overwritten and every other key keeps its value |
| Groker.OfficeParts | lgraph_essentials/groker_v0_1.py:236-238 | the selection context holds one string part per selected office, in order |
| Groker.ContextNode | lgraph_essentials/groker_v0_1.py:201-269 | with no selection it hands over to `context_request_agent` and changes nothing. With a selection it stores the parsed offices and their context, forwards the cleaned message under the original id, and goes to `guidance_agent` alone iff the set of offices is unchanged, and to `guidance_agent` and `process_context` iff it changed |
| Groker.ContextRequestAgent | lgraph_essentials/groker_v0_1.py:272-317 | ends the turn with the model's reply as one AI message without tool calls, and resets the offices, the context and the guidance |
| Groker.GuidanceAgent | lgraph_essentials/groker_v0_1.py:96-189 | appends the reply; goes to the end iff the reply has no tool call, to `ask_human` iff its first call is `AskHuman`, and to `tool_node_prompt` otherwise |
| Groker.AskHuman | lgraph_essentials/groker_v0_1.py:192-198 | after resuming, the node adds one tool message, which answers the last reply's first tool call with the resumed value, and touches no other key |
| Groker.ProcessContext | lgraph_essentials/groker_v0_1.py:320-331 | replaces only the context, with the available-data text under the id `nuevo_contexto` |
| Groker.UpdateGuidancePrompt | lgraph_essentials/groker_v0_1.py:337-345 | fires iff offices are selected, a context is stored and the last message is a non-empty tool result; it then stores that result as guidance and hands over to the analyst |
| Groker.AnalystAgent | lgraph_essentials/groker_v0_1.py:347-380 | appends the reply; ends iff it calls no tool, otherwise it goes to the analyst's tool node |
| Groker.StaticSuccessors | lgraph_essentials/groker_v0_1.py:398-404 | its result is exactly the targets of the declared edges that leave a node |
| Groker.RouterSeesOnlyTheOfficeSet | lgraph_essentials/groker_v0_1.py:226-229 | the stored offices matter to the router only as a set: reordering or repeating them changes no command |
| Groker.MatchBranchesWriteTheSameUpdate | lgraph_essentials/groker_v0_1.py:233-260 | both match branches write the same update, and both go to `guidance_agent` first |
| Groker.SameSelectionDropsAvailableData | lgraph_essentials/groker_v0_1.py:245-260 | with an unchanged set of offices and the available-data text stored, the router goes to `guidance_agent` alone and its update replaces that text with the office list |
| Groker.ContextNodeKeepingContext | lgraph_essentials/groker_v0_1.py:201-260 | the router corrected to write no context when the set of offices is unchanged: same targets, messages and offices as the router; on a changed set, exactly the router's command |
| Groker.KeepingContextKeepsTheStoredContext | lgraph_essentials/groker_v0_1.py:245-260 | with the corrected router, an unchanged selection keeps the stored context and still stores the parsed offices |
| Groker.SelectionEnablesGuidance | lgraph_essentials/groker_v0_1.py:214-260 | once the router has stored a selection, every non-empty tool result reaches the analyst: the parsed list is never empty |
| Groker.ResetDisablesGuidance | lgraph_essentials/groker_v0_1.py:308-317 | after the reset, `update_guidance_prompt` never fires |
| Groker.PromptBecomesGuidance | lgraph_essentials/groker_v0_1.py:71-74 | the result of a `make_prompt` call with a non-empty prompt becomes the stored guidance verbatim |
| Groker.SuspendResumeRoundTrip | lgraph_essentials/groker_v0_1.py:181-198 | when the guidance agent asks the human, `ask_human` can run on the resulting state and answers the reply's first call with exactly the resumed value |
| Groker.CommandsStayInDeclaredTargets | lgraph_essentials/groker_v0_1.py:201-203 | every command stays within its node's declared `Literal` targets, and each target is a registered node or the end |
| Groker.TurnEntryEdges | lgraph_essentials/groker_v0_1.py:398-401 | a turn enters at `clean_messages`, which leads only to the router |
| Groker.ToolReturnEdges | lgraph_essentials/groker_v0_1.py:400-404 | the human's answer returns only to the guidance agent, and the analyst's tools only to the analyst |
| Groker.GuidanceJoinEdges | lgraph_essentials/groker_v0_1.py:402-403 | `process_context` and the prompt tool both lead only to `update_guidance_prompt` |
| Groker.CommandRoutedNodesHaveNoEdges | lgraph_essentials/groker_v0_1.py:398-405 | the nodes that route by command have no static edge |
| GrokerScenarios.RouterOnLeadingSelection | lgraph_essentials/groker_v0_1.py:201-260 | for a message that opens with a selection and ends with a remark that holds no selection, the stripped remark is forwarded and the offices are stored; the fan-out follows from comparing the office sets |
| GrokerScenarios.QuotedPairIsCapture | lgraph_essentials/groker_v0_1.py:220-224 | the bracket text `'a','b'` is a valid capture and selects `a` and `b` |
| GrokerScenarios.NewSelectionRecomputesContext | lgraph_essentials/groker_v0_1.py:229-244 | a first selection of two offices stores them in order and recomputes the context |
| GrokerScenarios.SameSelectionSkipsRecompute | lgraph_essentials/groker_v0_1.py:245-260 | the same offices in another order do not run `process_context` again: only the guidance agent runs |
| GrokerScenarios.RemarkIsStripped | lgraph_essentials/groker_v0_1.py:212 | the remark ` dame el SLA` is forwarded without its leading blank |
| GrokerScenarios.GreetingAsksForSelection | lgraph_essentials/groker_v0_1.py:262-317 | a greeting without a selection goes to `context_request_agent`, which ends the turn |
| ReactAgent.Contexto | lgraph_essentials/React_context_and_interrupt.py:97-99 | the stored context is used when the key exists; the default is used only when the key is absent |
| ReactAgent.ModelInput | lgraph_essentials/React_context_and_interrupt.py:101-108 | the prompt is one system message, made of the context, a blank line and the instruction, followed by the conversation unchanged |
| ReactAgent.CallModel | lgraph_essentials/React_context_and_interrupt.py:94-112 | the node adds exactly one message: the model's reply to that prompt |
| ReactAgent.ShouldContinue | lgraph_essentials/React_context_and_interrupt.py:77-90 | goes to the end iff the last message has no tool call, to `ask_human` iff its first call is `AskHuman`, and to `action` iff it is another tool |
| ReactAgent.AskHuman | lgraph_essentials/React_context_and_interrupt.py:116-120 | one tool message answering the last reply's first call with the resumed value |
| ReactAgent.StaticNext | lgraph_essentials/React_context_and_interrupt.py:136-152 | exactly the start, the tool node and `ask_human` have an unconditional edge |
| ReactAgent.EveryDetourReturnsToAgent | lgraph_essentials/React_context_and_interrupt.py:136-152 | every node other than the agent leads back to the agent, and the agent leads to the end or to a node that returns to it |
| ReactAgent.StoredContextOpensPrompt | lgraph_essentials/React_context_and_interrupt.py:97-108 | a stored context, even an empty one, opens the prompt followed by a blank line |
| ReactAgent.ResumeAnswersTheQuestion | lgraph_essentials/React_context_and_interrupt.py:77-120 | when the reply asks the human, the next prompt ends with that reply followed by the human's answer to its first call |
| ChatStream.PartText | ttp_agentic/graph_streamer_con_ChatMessage_v1.py:37-42 | a string contributes itself and a `text` item contributes its text; any other item contributes nothing; a missing `type` or `text` key raises `KeyError` |
| ChatStream.Flatten | ttp_agentic/graph_streamer_con_ChatMessage_v1.py:36-43 | list content flattens iff every part does, and then to the concatenation of the parts' texts in order |
| ChatStream.FlattenFailsAtFirstBadPart | ttp_agentic/graph_streamer_con_ChatMessage_v1.py:36-43 | a malformed list raises the error of its first malformed part |
| ChatStream.ContentString | ttp_agentic/graph_streamer_con_ChatMessage_v1.py:33-43 | string content is returned as is, and list content is flattened |
| ChatStream.ConvertMessageContentToString | ttp_agentic/graph_streamer_con_ChatMessage_v1.py:33-43 | the loop that collects and joins the texts computes exactly `ContentString`, error included |
| ChatStream.FlattenAppend | ttp_agentic/graph_streamer_con_ChatMessage_v1.py:36-43 | flattening two part lists in a row is flattening their concatenation |
| ChatStream.StringsOnlyJoin | ttp_agentic/graph_streamer_con_ChatMessage_v1.py:36-43 | content made only of strings flattens to their concatenation |
| ChatStream.FromLangchainData | ttp_agentic/graph_streamer_con_ChatMessage_v1.py:114-144 | a system message is refused with `Unsupported message type: SystemMessage`; otherwise conversion fails exactly when the content does not flatten. Any record produced has the class's role, the flattened content, an AI message's tool calls, a tool message's call id, no run id and the serialised original |
| ChatStream.WithContent | ttp_agentic/graph_streamer_con_ChatMessage_v1.py:151 | the rebuilt message carries the record's content, and keeps the original's class, id, tool calls and tool-call id |
| ChatStream.ToLangchainData | ttp_agentic/graph_streamer_con_ChatMessage_v1.py:146-156 | with an original, the result is that message carrying the current content; without one, only a human record is rebuilt, and any other role raises `NotImplementedError` |
| ChatStream.ChatMessage.constructor | ttp_agentic/graph_streamer_con_ChatMessage_v1.py:84-112 | a new record has the given role, content, call id and original, no tool calls, and no run id |
| ChatStream.ChatMessage.FromLangchain | ttp_agentic/graph_streamer_con_ChatMessage_v1.py:114-144 | returns a fresh record whose dump is `FromLangchainData`, or exactly its error |
| ChatStream.RoundTrip | ttp_agentic/graph_streamer_con_ChatMessage_v1.py:114-156 | converting a message and back gives the same message class with the flattened content, whatever the run id |
| ChatStream.SecondRoundTripIsStable | ttp_agentic/graph_streamer_con_ChatMessage_v1.py:114-156 | converting the rebuilt message again gives the same record, apart from the original |
| ChatStream.OnlyHumanRebuildsWithoutOriginal | ttp_agentic/graph_streamer_con_ChatMessage_v1.py:146-156 | without an original, a record converts back iff it is a human record |
| CallGraph.ParseErrorEvent | ttp_agentic/graph_streamer_con_ChatMessage_v1.py:201-202 | a failed conversion is reported as an error event reading `Error parsing message: ` followed by the exception's text |
| CallGraph.GraphInputFor | ttp_agentic/graph_streamer_con_ChatMessage_v1.py:169-175 | with no pending node the user's message starts a new turn; otherwise it is the resume value |
| CallGraph.Rewrite | ttp_agentic/graph_streamer_con_ChatMessage_v1.py:204-217 | a record that calls a tool shows the call's `question` argument, or its arguments as text; nothing but the content changes |
| CallGraph.ConvertStep | ttp_agentic/graph_streamer_con_ChatMessage_v1.py:196-203 | a converted message replaces the held record and gets the run id; a failed one adds an error event and keeps the held record |
| CallGraph.ConvertBatchHolds | ttp_agentic/graph_streamer_con_ChatMessage_v1.py:192-203 | after a batch, a record is held iff one was held before or some message of the batch converts |
| CallGraph.ConvertsLast | ttp_agentic/graph_streamer_con_ChatMessage_v1.py:192-203 | a batch converts something iff the messages before its last one do or its last message converts |
| CallGraph.CrashIsFinal | ttp_agentic/graph_streamer_con_ChatMessage_v1.py:204 | once the generator has raised (only a new turn does), later batches change nothing |
| CallGraph.ConvertMessages | ttp_agentic/graph_streamer_con_ChatMessage_v1.py:192-203 | the loop over a batch creates fresh records and produces exactly the events and the held record of `ConvertBatch` |
| CallGraph.EmitNewTurnRecord | ttp_agentic/graph_streamer_con_ChatMessage_v1.py:204-253 | the in-place rewrite, the human filter and the `input_string` filter produce exactly the state of `EmitNewTurn` |
| CallGraph.CallGraph | ttp_agentic/graph_streamer_con_ChatMessage_v1.py:163-312 | the method picks the input from the pending nodes, and its events and completion are exactly those of `CallGraphAsWritten`: a new turn stops at a batch that leaves no record held, while a resume catches the unbound read and goes on |
| CallGraph.NewTurnCompletesIffFirstBatchConverts | ttp_agentic/graph_streamer_con_ChatMessage_v1.py:192-260 | in a new turn, the call is still running after all batches iff there are none or the first batch converts a message; a record is then held |
| CallGraph.AnyConvertsLast | ttp_agentic/graph_streamer_con_ChatMessage_v1.py:279-310 | some batch converts a message iff one before the last does or the last one does |
| CallGraph.ResumeNeverRaises | ttp_agentic/graph_streamer_con_ChatMessage_v1.py:279-312 | a resume never raises: the unbound read at line 307 is caught by the handler of lines 306-310; a record is held afterwards iff some batch converted a message |
| CallGraph.ResumeAlwaysCompletes | ttp_agentic/graph_streamer_con_ChatMessage_v1.py:279-312 | every resumed call closes with `[DONE]` |
| CallGraph.DoneClosesTheStream | ttp_agentic/graph_streamer_con_ChatMessage_v1.py:260-312 | a call that completes sends `[DONE]` exactly once, as its last event |
| CallGraph.NoDoneBeforeTheEnd | ttp_agentic/graph_streamer_con_ChatMessage_v1.py:192-310 | no event sent before the end, or before a crash, is `[DONE]` |
| CallGraph.ConvertBatchNoDone | ttp_agentic/graph_streamer_con_ChatMessage_v1.py:192-203 | converting a batch adds no `[DONE]` |
| CallGraph.ConvertBatchAddsErrorsOnly | ttp_agentic/graph_streamer_con_ChatMessage_v1.py:192-203 | converting a batch keeps every event sent before it, unchanged and in place, and appends error events only |
| CallGraph.ConvertBatchKeepsOnlyShown | ttp_agentic/graph_streamer_con_ChatMessage_v1.py:192-203 | if no human record and no `input_string` tool call has been sent yet, converting a batch sends none either |
| CallGraph.NewTurnSendsOnlyShown | ttp_agentic/graph_streamer_con_ChatMessage_v1.py:219-246 | in a new turn, no human record and no `input_string` tool call is ever sent |
| CallGraph.MessageEvents | ttp_agentic/graph_streamer_con_ChatMessage_v1.py:196-251 | one message yields its error, its record (when resuming), or its rewritten record if the filter lets it through (in a new turn) |
| CallGraph.CallGraphPerMessage | ttp_agentic/graph_streamer_con_ChatMessage_v1.py:163-312 | with the filter and the emission applied to every message, the call always completes and ends with `[DONE]` |
| CallGraph.ResumeSendsOnePerMessage | ttp_agentic/graph_streamer_con_ChatMessage_v1.py:279-312 | resuming, the per-message stream sends exactly one event per message, then `[DONE]` |
| CallGraph.ResumeBatchSendsOnePerMessage | ttp_agentic/graph_streamer_con_ChatMessage_v1.py:279-310 | resuming, a batch yields one event per message |
| CallGraph.ResumeEventsCount | ttp_agentic/graph_streamer_con_ChatMessage_v1.py:279-310 | resuming, all batches together yield one event per message |
| CallGraph.PerMessageNewTurnSendsOnlyShown | ttp_agentic/graph_streamer_con_ChatMessage_v1.py:219-246 | in a new turn, the per-message stream keeps the same filter |
| CallGraph.NewTurnBatchOnlyShown | ttp_agentic/graph_streamer_con_ChatMessage_v1.py:219-246 | in a new turn, one batch sends only records the filter passes |
| CallGraph.OnlyShownAppend | ttp_agentic/graph_streamer_con_ChatMessage_v1.py:219-246 | two filtered event lists in a row are filtered |
| CallGraph.AgreeOnSingleMessageBatches | ttp_agentic/graph_streamer_con_ChatMessage_v1.py:192-312 | when every batch is one convertible message, the stream as written equals the per-message stream |
| CallGraph.SingleRunsMatch | ttp_agentic/graph_streamer_con_ChatMessage_v1.py:192-310 | with single convertible messages the run never raises and sends the per-message events |
| CallGraph.SingleBatchMatches | ttp_agentic/graph_streamer_con_ChatMessage_v1.py:192-310 | a single convertible message is sent as the per-message stream sends it |
| CallGraph.OneMessageBatch | ttp_agentic/graph_streamer_con_ChatMessage_v1.py:192-203 | a one-message batch is one conversion step |
| CallGraph.TwoMessageBatch | ttp_agentic/graph_streamer_con_ChatMessage_v1.py:192-203 | a two-message batch is two conversion steps in order |
| CallGraph.OneBatch | ttp_agentic/graph_streamer_con_ChatMessage_v1.py:173-260 | a run of one batch is one batch step from the empty stream |
| CallGraph.TwoBatches | ttp_agentic/graph_streamer_con_ChatMessage_v1.py:173-260 | a run of two batches is two batch steps in order |
| CallGraph.SampleConversions | ttp_agentic/graph_streamer_con_ChatMessage_v1.py:114-144 | a plain AI reply converts, and a system message is refused with the source's error text |
| CallGraph.StaleRecordIsSentAgain | ttp_agentic/graph_streamer_con_ChatMessage_v1.py:279-312 | as written, resuming with a convertible batch followed by a failing one sends the first record twice |
| CallGraph.StaleRecordIsNotSentPerMessage | ttp_agentic/graph_streamer_con_ChatMessage_v1.py:279-312 | per message, the same batches send the record once |
| CallGraph.EarlierMessagesOfABatchAreLost | ttp_agentic/graph_streamer_con_ChatMessage_v1.py:279-310 | as written, resuming with any two convertible messages in one batch sends only the last; per message, both are sent |
| CallGraph.UnboundRecordEndsTheStream | ttp_agentic/graph_streamer_con_ChatMessage_v1.py:196-204 | as written, in a new turn a first batch with nothing convertible leaves `chat_message` unbound: the call raises after the error event and never sends `[DONE]`; per message, it completes |
| CallGraph.ResumeSkipsAnUnboundRecord | ttp_agentic/graph_streamer_con_ChatMessage_v1.py:279-312 | resuming, the same first batch only yields its error event; the next batch's record is sent and the call closes with `[DONE]`, just as the per-message stream does |
| LogSubgraphs.GetFailures | lgraph_essentials/subgraphs.py:31-35 | the failures are exactly the logs that carry a `grade` key |
| LogSubgraphs.GetFailuresAppend | lgraph_essentials/subgraphs.py:31-35 | the filter keeps the logs' order: filtering a concatenation concatenates the filtered parts |
| LogSubgraphs.GetFailuresSingle | lgraph_essentials/subgraphs.py:34 | one log is kept iff it carries a grade |
| LogSubgraphs.GetFailuresIdempotent | lgraph_essentials/subgraphs.py:31-35 | filtering twice is filtering once |
| LogSubgraphs.FaGenerateSummary | lgraph_essentials/subgraphs.py:38-50 | the fixed analysis summary, and one `failure-analysis-on-log-<id>` entry per failure, in order |
| LogSubgraphs.QsGenerateSummary | lgraph_essentials/subgraphs.py:77-84 | the fixed question summary, and one `summary-on-log-<id>` entry per log, in order |
| LogSubgraphs.SendToSlack | lgraph_essentials/subgraphs.py:87-91 | the report is the fixed text, whatever the summary |
| LogSubgraphs.CleanLogs | lgraph_essentials/subgraphs.py:128-133 | cleaning passes the raw logs on unchanged |
| LogSubgraphs.FailureAnalysis | lgraph_essentials/subgraphs.py:31-58 | the failure-analysis subgraph gives the fixed summary and one entry per failure, in order; every entry names a graded log, and there are no more entries than logs |
| LogSubgraphs.QuestionSummarization | lgraph_essentials/subgraphs.py:77-101 | the question-summarisation subgraph gives the fixed report and one `summary-on-log-<id>` entry per log, in order |
| LogSubgraphs.EntryGraph | lgraph_essentials/subgraphs.py:118-145 | the entry graph keeps the raw logs and cleans them to themselves, and takes the summary from the analysis and the report from the summarisation subgraph. `processed_logs` is the two subgraphs' lists combined by the `add` reducer: the same entries, counted with repetition |
| LogSubgraphs.ProcessedNamesGiveIdsBack | lgraph_essentials/subgraphs.py:38-84 | each processed entry gives back the id of the log it names |
| LogSubgraphs.EntryGraphOutputs | lgraph_essentials/subgraphs.py:118-145 | the entry graph's cleaned logs are the raw logs, and its summary and report are the fixed texts. `processed_logs` holds exactly one `summary-on-log-<id>` entry per log and one `failure-analysis-on-log-<id>` entry per graded log, counted with repetition, and nothing else |
| LogSubgraphs.EntryGraphOrderFree | lgraph_essentials/subgraphs.py:118-145 | the order in which the two parallel updates are added changes only the order of `processed_logs` |
| LogSubgraphs.OneGradedOfTwo | lgraph_essentials/subgraphs.py:31-84 | of an ungraded log and a graded one, only the graded one is a failure; each subgraph names its logs in order |
| LogSubgraphsDemo.DemoHasOneFailure | lgraph_essentials/subgraphs.py:154-170 | on the demo logs only log `2` is a failure, although its grade is 0, and one analysis is named for it |

## Left out

- **Language-model calls** (`get_llm`, `bind_tools`, `invoke`) are left out because they cannot be modelled: each reply is a parameter of the node that receives it.
- **The LangGraph engine** is not modelled: reducers, `Command` dispatch, `ToolNode`, `interrupt`, checkpoints and the `add_messages` merge.
  - Each node is its returned update and command.
  - `ApplyToKeys` models only plain overwriting of the non-message keys.
  - The nondeterministic order of the two parallel subgraph updates is the `faFirst` parameter.
- `clean_messages` (lines 90-93) returns the state unchanged; its calls are commented out. It is modelled only as the edge `START` → `clean_messages` → `validate_context` in `TurnEntryEdges`.
- `tool_node_prompt` (line 77) is the framework's `ToolNode` around `make_prompt` (Groker.MakePrompt). The `ToolNode` is part of the engine, which is not modelled.
- The analyst's business tools (`rango_registros_disponibles` and the report tools) call code that is not part of this model. `process_context` receives the lookup's rendered result as the `available` parameter.
- Groker.MakePrompt: has no `ensures`, because it is the identity. Its effect on the guidance is stated by `PromptBecomesGuidance`.
- **`astream_events` and its event filter** (tags, `on_chain_end`, the streamed node) are not modelled: `call_graph` receives the batches of messages the streamed node reports, in order.
- **Framing and server details** are left out as I/O:
  - the server-sent-event framing and JSON encoding, and the `json.dumps` exception branch;
  - `uuid4`, which becomes the `runId` parameter;
  - FastAPI, `_sse_response_example`, `stream_agent`, and prints and `pretty_print`.
- `message_to_dict` and `messages_from_dict` are modelled as a `Serialized` wrapper that gives the message back, because the serialiser's code is not part of this model.
- `str(dict)` is the `stringify` parameter, because Python's dictionary rendering is not modelled.
- The `if chat_message.type:` test (line 237) is always true for the three roles, so its `else` branch is not modelled.
- ChatStream.ToLangchainData: the in-place write of `content` into the freshly deserialised message is modelled as building a new value, because no one else holds that object.
- Messages.Part: dictionary items and tool-call arguments hold string values only. Non-string values and list items that are neither strings nor dictionaries are not modelled.
- **Characters and code points**: `IsSpace` lists the characters Python's `str.isspace` accepts. Case folding and Unicode normalisation do not arise.
- `lgraph_essentials/map-reduce.py`, and the notebook-style runs (`run_graph`, `resume_graph`, `display`), are outside the modelled core.

## Findings

| source | as written | input that shows it | evidently intended | confidence | as-written member | corrected member |
|---|---|---|---|---|---|---|
| ttp_agentic/graph_streamer_con_ChatMessage_v1.py:279-310 | the emission follows the loop over a batch, so after a failed conversion the record held from the previous batch is sent again | resuming with batches `[[HOLA], [SYSTEM]]` sends `HOLA`'s record, an error, and then `HOLA`'s record again | each converted message is sent once | not executed | CallGraph.StaleRecordIsSentAgain | CallGraph.StaleRecordIsNotSentPerMessage |
| ttp_agentic/graph_streamer_con_ChatMessage_v1.py:279-310 | in both branches (lines 192-251 of a new turn, lines 279-310 of a resume) only the last converted message of a batch is filtered and sent | resuming with a batch holding two convertible messages, such as two AI replies `a` and `b`, sends only `b` | every message of a batch is filtered and sent | not executed | CallGraph.EarlierMessagesOfABatchAreLost | CallGraph.ResumeSendsOnePerMessage |
| ttp_agentic/graph_streamer_con_ChatMessage_v1.py:196-204 | in a new turn, when nothing in the first batch converts, `chat_message` is read at line 204, outside any `try`, while unbound, and the generator raises `UnboundLocalError` before `[DONE]` (a resume reads it inside the `try` of lines 306-310 and goes on) | a new turn whose first batch is `[SYSTEM]` | the error event is sent and the stream still closes with `[DONE]` | not executed | CallGraph.UnboundRecordEndsTheStream | CallGraph.CallGraphPerMessage |
| lgraph_essentials/groker_v0_1.py:245-260 | the branch for an unchanged set of offices announces that it keeps the context, yet its update writes `contexto` with the bare office list; `process_context` is not run again, so the available-data text it stored for that selection is lost until the selection changes | a second message `Considera las oficinas ['a','b'] dame el SLA` after `process_context` has stored the data text for `a` and `b` | the stored context is kept: the update does not write `contexto` | not executed | Groker.SameSelectionDropsAvailableData | Groker.KeepingContextKeepsTheStoredContext |
