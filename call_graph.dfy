/** `call_graph`: starts a new turn or resumes an interrupted one, converts the messages
    each reported batch holds, and turns them into server-sent events, closing with the
    `[DONE]` sentinel. The graph run is a parameter: the batches of messages the streamed
    node reports, in order, for the input chosen here. */
module CallGraph {
  import opened Wrappers
  import opened Messages
  import opened ChatStream

  /** One server-sent event: a message record, an error report, or the closing sentinel. */
  datatype Sse = MessageData(message: ChatMessageData) | ErrorData(content: string) | Done

  /** The event reporting a message that could not be converted. */
  function ParseErrorEvent(e: Error): (ev: Sse)
    ensures ev.ErrorData? && ev.content == "Error parsing message: " + ErrorText(e)
  {
    ErrorData("Error parsing message: " + ErrorText(e))
  }

  /** What the graph is run on: a new turn holding the user's message, or a resume command
      carrying it. */
  datatype GraphInput = StartTurn(messages: seq<Message>) | ResumeWith(value: Message)

  /** No node is pending (`next == ()`): the graph is not waiting on an interrupt. */
  predicate IsNewTurn(next: seq<string>) {
    |next| == 0
  }

  /** The input `call_graph` passes to the graph for the user's message. */
  function GraphInputFor(next: seq<string>, userMessage: string): (g: GraphInput)
    ensures IsNewTurn(next) <==> g.StartTurn?
    ensures g.StartTurn? ==> g.messages == [Human(Text(userMessage), None)]
    ensures g.ResumeWith? ==> g.value == Human(Text(userMessage), None)
  {
    if IsNewTurn(next) then StartTurn([Human(Text(userMessage), None)])
    else ResumeWith(Human(Text(userMessage), None))
  }

  /** The new-turn rewrite: a record that calls a tool shows the call's `question` argument,
      or the arguments as text (`stringify` stands for `str(dict)`). Only the content changes. */
  function Rewrite(d: ChatMessageData, stringify: map<string, string> -> string): (r: ChatMessageData)
    ensures r.(content := d.content) == d
    ensures |d.toolCalls| == 0 ==> r.content == d.content
    ensures |d.toolCalls| > 0 && "question" in d.toolCalls[0].args ==> r.content == d.toolCalls[0].args["question"]
    ensures |d.toolCalls| > 0 && "question" !in d.toolCalls[0].args ==> r.content == stringify(d.toolCalls[0].args)
  {
    if |d.toolCalls| == 0 then d
    else
      var args := d.toolCalls[0].args;
      d.(content := if "question" in args then args["question"] else stringify(args))
  }

  /** The new-turn filter: human records are never sent, nor records whose first tool call
      has an `input_string` argument. */
  predicate Shown(d: ChatMessageData) {
    d.role != HumanRole && !(|d.toolCalls| > 0 && "input_string" in d.toolCalls[0].args)
  }

  // ---------------------------------------------------------------------------
  // The stream as written: the filter and the emission follow the loop over a batch.

  /** The events sent so far and the record `chat_message` holds (`None` while unbound). */
  datatype Progress = Progress(events: seq<Sse>, cur: Option<ChatMessageData>)

  /** One message of a batch: a converted record replaces the held one (with the run id
      set); a failed conversion reports an error and keeps the held record. */
  function ConvertStep(p: Progress, m: Message, runId: string): (q: Progress)
    ensures FromLangchainData(m).Success? ==>
      q == Progress(p.events, Some(FromLangchainData(m).value.(runId := Some(runId))))
    ensures FromLangchainData(m).Failure? ==>
      q == Progress(p.events + [ParseErrorEvent(FromLangchainData(m).error)], p.cur)
  {
    match FromLangchainData(m)
    case Success(d) => Progress(p.events, Some(d.(runId := Some(runId))))
    case Failure(e) => Progress(p.events + [ParseErrorEvent(e)], p.cur)
  }

  /** The loop over one batch. */
  function ConvertBatch(p: Progress, batch: seq<Message>, runId: string): Progress
    decreases |batch|
  {
    if batch == [] then p
    else ConvertStep(ConvertBatch(p, batch[..|batch| - 1], runId), batch[|batch| - 1], runId)
  }

  /** Some message of the batch converts. */
  predicate Converts(batch: seq<Message>) {
    exists k :: 0 <= k < |batch| && FromLangchainData(batch[k]).Success?
  }

  lemma ConvertsLast(batch: seq<Message>)
    requires batch != []
    ensures Converts(batch) <==> Converts(batch[..|batch| - 1]) || FromLangchainData(batch[|batch| - 1]).Success?
  {
    var init := batch[..|batch| - 1];
    if Converts(batch) && !FromLangchainData(batch[|batch| - 1]).Success? {
      var k :| 0 <= k < |batch| && FromLangchainData(batch[k]).Success?;
      assert k < |init| && init[k] == batch[k];
    }
    if Converts(init) {
      var k :| 0 <= k < |init| && FromLangchainData(init[k]).Success?;
      assert batch[k] == init[k];
    }
  }

  lemma ConvertStepHolds(p: Progress, m: Message, runId: string)
    ensures ConvertStep(p, m, runId).cur.Some? <==> p.cur.Some? || FromLangchainData(m).Success?
  {
  }

  /** After a batch a record is held exactly when one was held before or one converted. */
  lemma {:induction false} ConvertBatchHolds(p: Progress, batch: seq<Message>, runId: string)
    ensures ConvertBatch(p, batch, runId).cur.Some? <==> p.cur.Some? || Converts(batch)
    decreases |batch|
  {
    if batch != [] {
      var init := batch[..|batch| - 1];
      var m := batch[|batch| - 1];
      var q := ConvertBatch(p, init, runId);
      assert q.cur.Some? <==> p.cur.Some? || Converts(init) by {
        ConvertBatchHolds(p, init, runId);
      }
      assert ConvertBatch(p, batch, runId).cur.Some? <==> q.cur.Some? || FromLangchainData(m).Success? by {
        ConvertStepHolds(q, m, runId);
      }
      ConvertsLast(batch);
    }
  }

  /** A run that has not raised, or the events sent before it raised. */
  datatype Run = Running(p: Progress) | Crashed(events: seq<Sse>)

  /** Lines 204-253: the held record is rewritten in place, then sent if the filter lets it. */
  function EmitNewTurn(p: Progress, stringify: map<string, string> -> string): Progress
    requires p.cur.Some?
  {
    var d := Rewrite(p.cur.value, stringify);
    Progress(p.events + (if Shown(d) then [MessageData(d)] else []), Some(d))
  }

  /** Lines 306-310: the held record is sent as it is. */
  function EmitResume(p: Progress): Progress
    requires p.cur.Some?
  {
    Progress(p.events + [MessageData(p.cur.value)], p.cur)
  }

  /** One batch: convert its messages, then emit the held record. With none held the name
      `chat_message` is unbound: in a new turn its first read (line 204) is outside any `try`
      and the generator raises; resuming, the read (line 307) is inside the `try` of lines
      306-310, whose handler catches the error, so nothing is sent and the next batch follows. */
  function BatchStep(r: Run, batch: seq<Message>, newTurn: bool, runId: string,
                     stringify: map<string, string> -> string): Run
  {
    match r
    case Crashed(_) => r
    case Running(p) =>
      var q := ConvertBatch(p, batch, runId);
      if q.cur.None? then (if newTurn then Crashed(q.events) else Running(q))
      else Running(if newTurn then EmitNewTurn(q, stringify) else EmitResume(q))
  }

  function RunBatches(batches: seq<seq<Message>>, newTurn: bool, runId: string,
                      stringify: map<string, string> -> string): Run
    decreases |batches|
  {
    if batches == [] then Running(Progress([], None))
    else BatchStep(RunBatches(batches[..|batches| - 1], newTurn, runId, stringify),
                   batches[|batches| - 1], newTurn, runId, stringify)
  }

  /** A run of the first `j + 1` batches is one batch step after the run of the first `j`. */
  lemma RunBatchesSnoc(batches: seq<seq<Message>>, j: nat, newTurn: bool, runId: string,
                       stringify: map<string, string> -> string)
    requires j < |batches|
    ensures RunBatches(batches[..j + 1], newTurn, runId, stringify)
      == BatchStep(RunBatches(batches[..j], newTurn, runId, stringify), batches[j], newTurn, runId, stringify)
  {
    assert batches[..j + 1][..j] == batches[..j];
  }

  /** The events of a call and whether it closed normally. */
  datatype Stream = Stream(events: seq<Sse>, completed: bool)

  /** Once raised, later batches change nothing. */
  lemma {:induction false} CrashIsFinal(batches: seq<seq<Message>>, j: nat, newTurn: bool, runId: string,
                                        stringify: map<string, string> -> string)
    requires j <= |batches| && RunBatches(batches[..j], newTurn, runId, stringify).Crashed?
    ensures RunBatches(batches, newTurn, runId, stringify) == RunBatches(batches[..j], newTurn, runId, stringify)
    decreases |batches| - j
  {
    if j < |batches| {
      assert batches[..j + 1][..j] == batches[..j];
      CrashIsFinal(batches, j + 1, newTurn, runId, stringify);
    } else {
      assert batches[..j] == batches;
    }
  }

  /** The stream `call_graph` produces, as written. */
  function CallGraphAsWritten(next: seq<string>, batches: seq<seq<Message>>, runId: string,
                              stringify: map<string, string> -> string): Stream
  {
    match RunBatches(batches, IsNewTurn(next), runId, stringify)
    case Running(p) => Stream(p.events + [Done], true)
    case Crashed(evs) => Stream(evs, false)
  }

  /** The record `chat_message` holds. */
  function Held(chat: ChatMessage?): Option<ChatMessageData>
    reads chat
  {
    if chat == null then None else Some(chat.Dump())
  }

  /** The loop over one batch (lines 192-203): each message becomes a fresh record with the
      run id set, or an error event; `chat` ends as the last record made, or as it was. */
  method ConvertMessages(batch: seq<Message>, runId: string, events0: seq<Sse>, chat0: ChatMessage?)
    returns (events: seq<Sse>, chat: ChatMessage?)
    ensures Progress(events, Held(chat)) == ConvertBatch(Progress(events0, Held(chat0)), batch, runId)
    ensures chat == chat0 || (chat != null && fresh(chat))
  {
    events, chat := events0, chat0;
    var i := 0;
    while i < |batch|
      invariant 0 <= i <= |batch|
      invariant ConvertBatch(Progress(events0, Held(chat0)), batch[..i], runId) == Progress(events, Held(chat))
      invariant chat == chat0 || (chat != null && fresh(chat))
    {
      assert batch[..i + 1][..i] == batch[..i];
      var r := ChatMessage.FromLangchain(batch[i]);
      match r {
        case Success(c) =>
          chat := c;
          chat.runId := Some(runId);
        case Failure(e) =>
          events := events + [ParseErrorEvent(e)];
      }
      i := i + 1;
    }
    assert batch[..i] == batch;
  }

  /** Lines 204-253 of a new turn: the held record is rewritten in place, then sent unless
      the filter drops it. */
  method EmitNewTurnRecord(chat: ChatMessage, events0: seq<Sse>, stringify: map<string, string> -> string)
    returns (events: seq<Sse>)
    modifies chat
    ensures Progress(events, Held(chat)) == EmitNewTurn(Progress(events0, Some(old(chat.Dump()))), stringify)
  {
    events := events0;
    if |chat.toolCalls| > 0 {
      if "question" in chat.toolCalls[0].args {
        chat.content := chat.toolCalls[0].args["question"];
      } else {
        chat.content := stringify(chat.toolCalls[0].args);
      }
    }
    if chat.role != HumanRole && !(|chat.toolCalls| > 0 && "input_string" in chat.toolCalls[0].args) {
      events := events + [MessageData(chat.Dump())];
    }
  }

  /** `call_graph`: picks the graph input, then walks the batches, converting each message
      into a fresh record and emitting after each batch; a new turn stops at a batch that
      leaves no record held, a resume skips its emission. */
  method CallGraph(next: seq<string>, userMessage: string, batches: seq<seq<Message>>, runId: string,
                   stringify: map<string, string> -> string)
    returns (input: GraphInput, events: seq<Sse>, completed: bool)
    ensures input == GraphInputFor(next, userMessage)
    ensures Stream(events, completed) == CallGraphAsWritten(next, batches, runId, stringify)
  {
    input := GraphInputFor(next, userMessage);
    var newTurn := IsNewTurn(next);
    events := [];
    var chat: ChatMessage? := null;
    var j := 0;
    while j < |batches|
      invariant 0 <= j <= |batches|
      invariant RunBatches(batches[..j], newTurn, runId, stringify) == Running(Progress(events, Held(chat)))
      invariant chat != null ==> fresh(chat)
    {
      ghost var p := Progress(events, Held(chat));
      RunBatchesSnoc(batches, j, newTurn, runId, stringify);
      events, chat := ConvertMessages(batches[j], runId, events, chat);
      ghost var q := Progress(events, Held(chat));
      assert q == ConvertBatch(p, batches[j], runId);
      if chat == null {
        if newTurn {
          assert RunBatches(batches[..j + 1], newTurn, runId, stringify) == Crashed(events);
          CrashIsFinal(batches, j + 1, newTurn, runId, stringify);
          return input, events, false;
        }
        assert RunBatches(batches[..j + 1], newTurn, runId, stringify) == Running(q);
      } else if newTurn {
        events := EmitNewTurnRecord(chat, events, stringify);
        assert RunBatches(batches[..j + 1], newTurn, runId, stringify) == Running(EmitNewTurn(q, stringify));
      } else {
        events := events + [MessageData(chat.Dump())];
        assert RunBatches(batches[..j + 1], newTurn, runId, stringify) == Running(EmitResume(q));
      }
      j := j + 1;
    }
    assert batches[..j] == batches;
    events := events + [Done];
    completed := true;
  }

  // ---------------------------------------------------------------------------
  // Properties of the stream as written.

  /** In a new turn the call closes with `[DONE]` exactly when no batch is reached with
      nothing converted, that is when there are no batches or the first batch converts a
      message; it never raises once a record is held. */
  lemma {:induction false} NewTurnCompletesIffFirstBatchConverts(batches: seq<seq<Message>>, runId: string,
                                                                 stringify: map<string, string> -> string)
    ensures RunBatches(batches, true, runId, stringify).Running? <==> |batches| == 0 || Converts(batches[0])
    ensures |batches| > 0 && RunBatches(batches, true, runId, stringify).Running? ==>
      RunBatches(batches, true, runId, stringify).p.cur.Some?
    decreases |batches|
  {
    if batches != [] {
      var init := batches[..|batches| - 1];
      NewTurnCompletesIffFirstBatchConverts(init, runId, stringify);
      var prev := RunBatches(init, true, runId, stringify);
      if prev.Running? {
        ConvertBatchHolds(prev.p, batches[|batches| - 1], runId);
      }
      if |init| > 0 {
        assert init[0] == batches[0];
      }
    }
  }

  /** Some batch converts a message. */
  predicate AnyConverts(batches: seq<seq<Message>>) {
    exists j :: 0 <= j < |batches| && Converts(batches[j])
  }

  lemma AnyConvertsLast(batches: seq<seq<Message>>)
    requires batches != []
    ensures AnyConverts(batches) <==> AnyConverts(batches[..|batches| - 1]) || Converts(batches[|batches| - 1])
  {
    var init := batches[..|batches| - 1];
    if AnyConverts(batches) && !Converts(batches[|batches| - 1]) {
      var j :| 0 <= j < |batches| && Converts(batches[j]);
      assert j < |init| && init[j] == batches[j];
    }
    if AnyConverts(init) {
      var j :| 0 <= j < |init| && Converts(init[j]);
      assert batches[j] == init[j];
    }
  }

  /** A resume never raises: a record is held after the batches exactly when some batch
      converted a message. */
  lemma {:induction false} ResumeNeverRaises(batches: seq<seq<Message>>, runId: string,
                                             stringify: map<string, string> -> string)
    ensures RunBatches(batches, false, runId, stringify).Running?
    ensures RunBatches(batches, false, runId, stringify).p.cur.Some? <==> AnyConverts(batches)
    decreases |batches|
  {
    if batches != [] {
      var init := batches[..|batches| - 1];
      ResumeNeverRaises(init, runId, stringify);
      var prev := RunBatches(init, false, runId, stringify);
      ConvertBatchHolds(prev.p, batches[|batches| - 1], runId);
      AnyConvertsLast(batches);
    }
  }

  /** Hence every resumed call closes with `[DONE]`. */
  lemma ResumeAlwaysCompletes(next: seq<string>, batches: seq<seq<Message>>, runId: string,
                              stringify: map<string, string> -> string)
    requires !IsNewTurn(next)
    ensures CallGraphAsWritten(next, batches, runId, stringify).completed
  {
    ResumeNeverRaises(batches, runId, stringify);
  }

  /** A completed call ends with `[DONE]`, and no earlier event is `[DONE]`. */
  lemma DoneClosesTheStream(next: seq<string>, batches: seq<seq<Message>>, runId: string,
                             stringify: map<string, string> -> string)
    requires CallGraphAsWritten(next, batches, runId, stringify).completed
    ensures var evs := CallGraphAsWritten(next, batches, runId, stringify).events;
      |evs| > 0 && evs[|evs| - 1] == Done && Done !in evs[..|evs| - 1]
  {
    var p := RunBatches(batches, IsNewTurn(next), runId, stringify).p;
    NoDoneBeforeTheEnd(batches, IsNewTurn(next), runId, stringify);
    assert (p.events + [Done])[..|p.events|] == p.events;
  }

  function EventsOf(r: Run): seq<Sse> {
    match r
    case Running(p) => p.events
    case Crashed(evs) => evs
  }

  /** No event of a running call, and none sent before a crash, is `[DONE]`. */
  lemma {:induction false} NoDoneBeforeTheEnd(batches: seq<seq<Message>>, newTurn: bool, runId: string,
                                              stringify: map<string, string> -> string)
    ensures Done !in EventsOf(RunBatches(batches, newTurn, runId, stringify))
    decreases |batches|
  {
    if batches != [] {
      var init := batches[..|batches| - 1];
      NoDoneBeforeTheEnd(init, newTurn, runId, stringify);
      var prev := RunBatches(init, newTurn, runId, stringify);
      if prev.Running? {
        ConvertBatchNoDone(prev.p, batches[|batches| - 1], runId);
      }
    }
  }

  lemma {:induction false} ConvertBatchNoDone(p: Progress, batch: seq<Message>, runId: string)
    requires Done !in p.events
    ensures Done !in ConvertBatch(p, batch, runId).events
    decreases |batch|
  {
    if batch != [] {
      ConvertBatchNoDone(p, batch[..|batch| - 1], runId);
    }
  }

  /** The events the new-turn filter lets through. */
  predicate OnlyShown(events: seq<Sse>) {
    forall k :: 0 <= k < |events| && events[k].MessageData? ==> Shown(events[k].message)
  }

  /** Converting a batch keeps the events sent so far and adds error reports only. */
  lemma {:induction false} ConvertBatchAddsErrorsOnly(p: Progress, batch: seq<Message>, runId: string)
    ensures var q := ConvertBatch(p, batch, runId);
      && |p.events| <= |q.events| && q.events[..|p.events|] == p.events
      && forall k :: |p.events| <= k < |q.events| ==> q.events[k].ErrorData?
    decreases |batch|
  {
    if batch != [] {
      ConvertBatchAddsErrorsOnly(p, batch[..|batch| - 1], runId);
    }
  }

  /** Hence a filtered stream stays filtered while a batch is converted. */
  lemma ConvertBatchKeepsOnlyShown(p: Progress, batch: seq<Message>, runId: string)
    requires OnlyShown(p.events)
    ensures OnlyShown(ConvertBatch(p, batch, runId).events)
  {
    ConvertBatchAddsErrorsOnly(p, batch, runId);
    var q := ConvertBatch(p, batch, runId);
    forall k | 0 <= k < |q.events| && q.events[k].MessageData? ensures Shown(q.events[k].message) {
      assert k < |p.events| && q.events[k] == p.events[k];
    }
  }

  /** In a new turn no human record and no `input_string` tool call is ever sent. */
  lemma {:induction false} NewTurnSendsOnlyShown(batches: seq<seq<Message>>, runId: string,
                                                 stringify: map<string, string> -> string)
    ensures OnlyShown(EventsOf(RunBatches(batches, true, runId, stringify)))
    decreases |batches|
  {
    if batches != [] {
      var init := batches[..|batches| - 1];
      NewTurnSendsOnlyShown(init, runId, stringify);
      var prev := RunBatches(init, true, runId, stringify);
      if prev.Running? {
        ConvertBatchKeepsOnlyShown(prev.p, batches[|batches| - 1], runId);
      }
    }
  }

  // ---------------------------------------------------------------------------
  // The stream with the filter and the emission applied to every message.

  /** The events one message yields: an error, or its (rewritten and filtered) record. */
  function MessageEvents(m: Message, newTurn: bool, runId: string,
                         stringify: map<string, string> -> string): (evs: seq<Sse>)
    ensures FromLangchainData(m).Failure? ==> evs == [ParseErrorEvent(FromLangchainData(m).error)]
    ensures FromLangchainData(m).Success? && !newTurn ==>
      evs == [MessageData(FromLangchainData(m).value.(runId := Some(runId)))]
    ensures FromLangchainData(m).Success? && newTurn ==>
      var d := Rewrite(FromLangchainData(m).value.(runId := Some(runId)), stringify);
      evs == if Shown(d) then [MessageData(d)] else []
  {
    match FromLangchainData(m)
    case Failure(e) => [ParseErrorEvent(e)]
    case Success(d0) =>
      var d := d0.(runId := Some(runId));
      if !newTurn then [MessageData(d)]
      else
        var shown := Rewrite(d, stringify);
        if Shown(shown) then [MessageData(shown)] else []
  }

  function BatchEvents(batch: seq<Message>, newTurn: bool, runId: string,
                       stringify: map<string, string> -> string): seq<Sse>
    decreases |batch|
  {
    if batch == [] then []
    else
      BatchEvents(batch[..|batch| - 1], newTurn, runId, stringify)
        + MessageEvents(batch[|batch| - 1], newTurn, runId, stringify)
  }

  function AllEvents(batches: seq<seq<Message>>, newTurn: bool, runId: string,
                     stringify: map<string, string> -> string): seq<Sse>
    decreases |batches|
  {
    if batches == [] then []
    else
      AllEvents(batches[..|batches| - 1], newTurn, runId, stringify)
        + BatchEvents(batches[|batches| - 1], newTurn, runId, stringify)
  }

  /** The stream with every message filtered and emitted in turn: it always closes. */
  function CallGraphPerMessage(next: seq<string>, batches: seq<seq<Message>>, runId: string,
                               stringify: map<string, string> -> string): (s: Stream)
    ensures s.completed && |s.events| > 0 && s.events[|s.events| - 1] == Done
  {
    Stream(AllEvents(batches, IsNewTurn(next), runId, stringify) + [Done], true)
  }

  /** The number of messages in all batches. */
  function MessageCount(batches: seq<seq<Message>>): nat
    decreases |batches|
  {
    if batches == [] then 0 else MessageCount(batches[..|batches| - 1]) + |batches[|batches| - 1]|
  }

  lemma {:induction false} ResumeBatchSendsOnePerMessage(batch: seq<Message>, runId: string,
                                                         stringify: map<string, string> -> string)
    ensures |BatchEvents(batch, false, runId, stringify)| == |batch|
    decreases |batch|
  {
    if batch != [] {
      ResumeBatchSendsOnePerMessage(batch[..|batch| - 1], runId, stringify);
    }
  }

  /** Resuming, the per-message stream sends one event per message, then `[DONE]`. */
  lemma {:induction false} ResumeSendsOnePerMessage(next: seq<string>, batches: seq<seq<Message>>, runId: string,
                                                    stringify: map<string, string> -> string)
    requires !IsNewTurn(next)
    ensures |CallGraphPerMessage(next, batches, runId, stringify).events| == MessageCount(batches) + 1
  {
    ResumeEventsCount(batches, runId, stringify);
  }

  lemma {:induction false} ResumeEventsCount(batches: seq<seq<Message>>, runId: string,
                                             stringify: map<string, string> -> string)
    ensures |AllEvents(batches, false, runId, stringify)| == MessageCount(batches)
    decreases |batches|
  {
    if batches != [] {
      ResumeEventsCount(batches[..|batches| - 1], runId, stringify);
      ResumeBatchSendsOnePerMessage(batches[|batches| - 1], runId, stringify);
    }
  }

  lemma {:induction false} NewTurnBatchOnlyShown(batch: seq<Message>, runId: string,
                                                 stringify: map<string, string> -> string)
    ensures OnlyShown(BatchEvents(batch, true, runId, stringify))
    decreases |batch|
  {
    if batch != [] {
      NewTurnBatchOnlyShown(batch[..|batch| - 1], runId, stringify);
      OnlyShownAppend(BatchEvents(batch[..|batch| - 1], true, runId, stringify),
                      MessageEvents(batch[|batch| - 1], true, runId, stringify));
    }
  }

  lemma OnlyShownAppend(a: seq<Sse>, b: seq<Sse>)
    requires OnlyShown(a) && OnlyShown(b)
    ensures OnlyShown(a + b)
  {
    assert forall k :: |a| <= k < |a + b| ==> (a + b)[k] == b[k - |a|];
  }

  /** In a new turn the per-message stream sends no human record and no `input_string`
      tool call either. */
  lemma {:induction false} PerMessageNewTurnSendsOnlyShown(batches: seq<seq<Message>>, runId: string,
                                                           stringify: map<string, string> -> string)
    ensures OnlyShown(AllEvents(batches, true, runId, stringify))
    decreases |batches|
  {
    if batches != [] {
      PerMessageNewTurnSendsOnlyShown(batches[..|batches| - 1], runId, stringify);
      NewTurnBatchOnlyShown(batches[|batches| - 1], runId, stringify);
      OnlyShownAppend(AllEvents(batches[..|batches| - 1], true, runId, stringify),
                      BatchEvents(batches[|batches| - 1], true, runId, stringify));
    }
  }

  /** A batch of one message that converts. */
  predicate Single(batch: seq<Message>) {
    |batch| == 1 && FromLangchainData(batch[0]).Success?
  }

  /** When every batch is one convertible message, the stream as written and the
      per-message stream coincide. */
  lemma {:induction false} AgreeOnSingleMessageBatches(next: seq<string>, batches: seq<seq<Message>>, runId: string,
                                                       stringify: map<string, string> -> string)
    requires forall j :: 0 <= j < |batches| ==> Single(batches[j])
    ensures CallGraphAsWritten(next, batches, runId, stringify) == CallGraphPerMessage(next, batches, runId, stringify)
  {
    SingleRunsMatch(batches, IsNewTurn(next), runId, stringify);
  }

  lemma {:induction false} SingleRunsMatch(batches: seq<seq<Message>>, newTurn: bool, runId: string,
                                           stringify: map<string, string> -> string)
    requires forall j :: 0 <= j < |batches| ==> Single(batches[j])
    ensures var r := RunBatches(batches, newTurn, runId, stringify);
      r.Running? && r.p.events == AllEvents(batches, newTurn, runId, stringify)
    decreases |batches|
  {
    if batches != [] {
      var init := batches[..|batches| - 1];
      var batch := batches[|batches| - 1];
      assert forall j :: 0 <= j < |init| ==> init[j] == batches[j];
      SingleRunsMatch(init, newTurn, runId, stringify);
      SingleBatchMatches(RunBatches(init, newTurn, runId, stringify).p, batch, newTurn, runId, stringify);
    }
  }

  lemma SingleBatchMatches(p: Progress, batch: seq<Message>, newTurn: bool, runId: string,
                           stringify: map<string, string> -> string)
    requires Single(batch)
    ensures var r := BatchStep(Running(p), batch, newTurn, runId, stringify);
      r.Running? && r.p.events == p.events + BatchEvents(batch, newTurn, runId, stringify)
  {
    assert batch == [batch[0]];
    OneMessageBatch(p, batch[0], newTurn, runId, stringify);
  }

  // ---------------------------------------------------------------------------
  // Where the two differ.

  lemma OneMessageBatch(p: Progress, m: Message, newTurn: bool, runId: string,
                         stringify: map<string, string> -> string)
    ensures ConvertBatch(p, [m], runId) == ConvertStep(p, m, runId)
    ensures BatchEvents([m], newTurn, runId, stringify) == MessageEvents(m, newTurn, runId, stringify)
  {
    assert [m][..0] == [];
  }

  lemma TwoMessageBatch(p: Progress, m1: Message, m2: Message, newTurn: bool, runId: string,
                         stringify: map<string, string> -> string)
    ensures ConvertBatch(p, [m1, m2], runId) == ConvertStep(ConvertStep(p, m1, runId), m2, runId)
    ensures BatchEvents([m1, m2], newTurn, runId, stringify)
      == MessageEvents(m1, newTurn, runId, stringify) + MessageEvents(m2, newTurn, runId, stringify)
  {
    assert [m1, m2][..1] == [m1];
    OneMessageBatch(p, m1, newTurn, runId, stringify);
  }

  lemma OneBatch(b: seq<Message>, newTurn: bool, runId: string, stringify: map<string, string> -> string)
    ensures RunBatches([b], newTurn, runId, stringify) == BatchStep(Running(Progress([], None)), b, newTurn, runId, stringify)
    ensures AllEvents([b], newTurn, runId, stringify) == BatchEvents(b, newTurn, runId, stringify)
  {
    assert [b][..0] == [];
  }

  lemma TwoBatches(b1: seq<Message>, b2: seq<Message>, newTurn: bool, runId: string,
                   stringify: map<string, string> -> string)
    ensures RunBatches([b1, b2], newTurn, runId, stringify)
      == BatchStep(BatchStep(Running(Progress([], None)), b1, newTurn, runId, stringify), b2, newTurn, runId, stringify)
    ensures AllEvents([b1, b2], newTurn, runId, stringify)
      == BatchEvents(b1, newTurn, runId, stringify) + BatchEvents(b2, newTurn, runId, stringify)
  {
    assert [b1, b2][..1] == [b1];
    OneBatch(b1, newTurn, runId, stringify);
  }

  /** Resuming, a one-message batch is one conversion step, then the emission if a record
      is held. */
  lemma ResumeSingleStep(p: Progress, m: Message, runId: string, stringify: map<string, string> -> string)
    ensures var q := ConvertStep(p, m, runId);
      BatchStep(Running(p), [m], false, runId, stringify) == if q.cur.None? then Running(q) else Running(EmitResume(q))
  {
    OneMessageBatch(p, m, false, runId, stringify);
  }

  /** A reply without tool calls, and a message of a class the record cannot carry. */
  const HOLA := AI(Text("hola"), [], None)
  const SYSTEM := System(Text(""), None)

  /** The reply converts; the system message is refused with the source's error text. */
  lemma SampleConversions()
    ensures FromLangchainData(HOLA).Success?
    ensures FromLangchainData(SYSTEM) == Failure(ValueError("Unsupported message type: SystemMessage"))
  {
  }

  /** Resuming, a batch with a message that does not convert (such as `SYSTEM`) after a batch
      with one that does (such as `HOLA`) sends the first record twice: the failed conversion
      leaves the previous record held, and it is emitted again. */
  lemma StaleRecordIsSentAgain(next: seq<string>, h: Message, s: Message, runId: string,
                               stringify: map<string, string> -> string)
    requires !IsNewTurn(next)
    requires FromLangchainData(h).Success? && FromLangchainData(s).Failure?
    ensures var d := FromLangchainData(h).value.(runId := Some(runId));
      var err := ParseErrorEvent(FromLangchainData(s).error);
      CallGraphAsWritten(next, [[h], [s]], runId, stringify).events == [MessageData(d), err, MessageData(d), Done]
  {
    StaleRun(h, s, FromLangchainData(h).value, FromLangchainData(s).error, runId, stringify);
  }

  lemma StaleRun(h: Message, s: Message, dh: ChatMessageData, e: Error, runId: string,
                 stringify: map<string, string> -> string)
    requires FromLangchainData(h) == Success(dh) && FromLangchainData(s) == Failure(e)
    ensures var d := dh.(runId := Some(runId));
      RunBatches([[h], [s]], false, runId, stringify)
        == Running(Progress([MessageData(d), ParseErrorEvent(e), MessageData(d)], Some(d)))
  {
    var p0 := Progress([], None);
    TwoBatches([h], [s], false, runId, stringify);
    ResumeSingleStep(p0, h, runId, stringify);
    ResumeSingleStep(EmitResume(ConvertStep(p0, h, runId)), s, runId, stringify);
  }

  /** The same two batches streamed per message: the record is sent once. */
  lemma StaleRecordIsNotSentPerMessage(next: seq<string>, h: Message, s: Message, runId: string,
                                       stringify: map<string, string> -> string)
    requires !IsNewTurn(next)
    requires FromLangchainData(h).Success? && FromLangchainData(s).Failure?
    ensures var d := FromLangchainData(h).value.(runId := Some(runId));
      var err := ParseErrorEvent(FromLangchainData(s).error);
      CallGraphPerMessage(next, [[h], [s]], runId, stringify).events == [MessageData(d), err, Done]
  {
    var d := FromLangchainData(h).value.(runId := Some(runId));
    var err := ParseErrorEvent(FromLangchainData(s).error);
    var p0 := Progress([], None);
    assert AllEvents([[h], [s]], false, runId, stringify)
      == BatchEvents([h], false, runId, stringify) + BatchEvents([s], false, runId, stringify) by {
      TwoBatches([h], [s], false, runId, stringify);
    }
    assert BatchEvents([h], false, runId, stringify) == [MessageData(d)] by {
      OneMessageBatch(p0, h, false, runId, stringify);
    }
    assert BatchEvents([s], false, runId, stringify) == [err] by {
      OneMessageBatch(p0, s, false, runId, stringify);
    }
  }

  /** Only the last message of a batch is sent: of two convertible messages resumed in one
      batch the first is lost. */
  lemma EarlierMessagesOfABatchAreLost(next: seq<string>, a: Message, b: Message, runId: string,
                                       stringify: map<string, string> -> string)
    requires !IsNewTurn(next)
    requires FromLangchainData(a).Success? && FromLangchainData(b).Success?
    ensures var da := FromLangchainData(a).value.(runId := Some(runId));
      var db := FromLangchainData(b).value.(runId := Some(runId));
      && CallGraphAsWritten(next, [[a, b]], runId, stringify).events == [MessageData(db), Done]
      && CallGraphPerMessage(next, [[a, b]], runId, stringify).events == [MessageData(da), MessageData(db), Done]
  {
    var p0 := Progress([], None);
    OneBatch([a, b], false, runId, stringify);
    TwoMessageBatch(p0, a, b, false, runId, stringify);
  }

  /** In a new turn, a first batch with nothing that converts (such as `[SYSTEM]`) leaves
      `chat_message` unbound: the call raises and `[DONE]` is never sent. */
  lemma UnboundRecordEndsTheStream(next: seq<string>, s: Message, runId: string,
                                   stringify: map<string, string> -> string)
    requires IsNewTurn(next)
    requires FromLangchainData(s).Failure?
    ensures CallGraphAsWritten(next, [[s]], runId, stringify) ==
      Stream([ParseErrorEvent(FromLangchainData(s).error)], false)
    ensures CallGraphPerMessage(next, [[s]], runId, stringify).completed
  {
    OneBatch([s], IsNewTurn(next), runId, stringify);
    OneMessageBatch(Progress([], None), s, IsNewTurn(next), runId, stringify);
  }

  lemma ResumeRunSkipsAnUnboundRecord(s: Message, h: Message, e: Error, dh: ChatMessageData, runId: string,
                                      stringify: map<string, string> -> string)
    requires FromLangchainData(s) == Failure(e) && FromLangchainData(h) == Success(dh)
    ensures RunBatches([[s], [h]], false, runId, stringify)
      == Running(Progress([ParseErrorEvent(e), MessageData(dh.(runId := Some(runId)))], Some(dh.(runId := Some(runId)))))
  {
    var p0 := Progress([], None);
    TwoBatches([s], [h], false, runId, stringify);
    ResumeSingleStep(p0, s, runId, stringify);
    ResumeSingleStep(ConvertStep(p0, s, runId), h, runId, stringify);
  }

  lemma ResumeEventsSkipAnUnboundRecord(s: Message, h: Message, runId: string,
                                        stringify: map<string, string> -> string)
    requires FromLangchainData(s).Failure? && FromLangchainData(h).Success?
    ensures AllEvents([[s], [h]], false, runId, stringify)
      == [ParseErrorEvent(FromLangchainData(s).error), MessageData(FromLangchainData(h).value.(runId := Some(runId)))]
  {
    var p0 := Progress([], None);
    TwoBatches([s], [h], false, runId, stringify);
    OneMessageBatch(p0, s, false, runId, stringify);
    OneMessageBatch(p0, h, false, runId, stringify);
  }

  /** Resuming, the same first batch is only reported: the handler catches the unbound read,
      the next batch's record is sent, and the call closes with `[DONE]`, exactly as the
      per-message stream does. */
  lemma ResumeSkipsAnUnboundRecord(next: seq<string>, s: Message, h: Message, runId: string,
                                   stringify: map<string, string> -> string)
    requires !IsNewTurn(next)
    requires FromLangchainData(s).Failure? && FromLangchainData(h).Success?
    ensures var err := ParseErrorEvent(FromLangchainData(s).error);
      var d := FromLangchainData(h).value.(runId := Some(runId));
      && CallGraphAsWritten(next, [[s], [h]], runId, stringify) == Stream([err, MessageData(d), Done], true)
      && CallGraphPerMessage(next, [[s], [h]], runId, stringify) == CallGraphAsWritten(next, [[s], [h]], runId, stringify)
  {
    ResumeRunSkipsAnUnboundRecord(s, h, FromLangchainData(s).error, FromLangchainData(h).value, runId, stringify);
    ResumeEventsSkipAnUnboundRecord(s, h, runId, stringify);
  }
}
