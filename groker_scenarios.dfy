/** Conversations through the office-analysis router: a selection at the head of a
    message, a new selection, the same selection reordered, and a greeting. */
module GrokerScenarios {
  import opened Wrappers
  import opened PyStr
  import opened Messages
  import opened OfficeSelection
  import opened Groker

  /** A message that opens with a selection and ends with a remark that holds no selection: the router
      forwards the stripped remark and stores the offices in the brackets. */
  lemma {:induction false} RouterOnLeadingSelection(cap: string, rest: string, id: Option<string>, stored: Option<seq<string>>)
    requires ']' !in cap && '\n' !in cap && Search(rest, 0).None?
    ensures var st := State([Human(Text(PREFIX + cap + "]" + rest), id)], stored, None, None);
      var offices := ParseOffices(cap);
      var c := ContextNode(st);
      && c.update.messages == [Human(Text(Strip(rest, Whitespace)), id)]
      && c.update.oficinas == Some(offices)
      && (c.goto == [GUIDANCE_AGENT] <==> OfficeSet(offices) == OfficeSet(stored.GetOr([])))
      && (c.goto == [GUIDANCE_AGENT, PROCESS_CONTEXT] <==> OfficeSet(offices) != OfficeSet(stored.GetOr([])))
  {
    SelectionFirst(cap, rest);
  }

  /** An office name as a user would type it between quotes. */
  predicate PlainName(x: string) {
    x != [] && !IsQuote(x[0]) && !IsQuote(x[|x| - 1]) && ',' !in x && ']' !in x && '\n' !in x
  }

  /** The bracket text `'a','b'`. */
  function QuotedPair(a: string, b: string): string {
    "'" + a + "'" + "," + "'" + b + "'"
  }

  lemma QuotedPairIsCapture(a: string, b: string)
    requires PlainName(a) && PlainName(b)
    ensures ']' !in QuotedPair(a, b) && '\n' !in QuotedPair(a, b)
    ensures ParseOffices(QuotedPair(a, b)) == [a, b]
  {
    var p := QuotedPair(a, b);
    assert forall c :: c in p ==> c == '\'' || c == ',' || c in a || c in b;
    TwoQuotedOffices(a, b);
  }

  /** A first message `Considera las oficinas ['a','b']` followed by a remark that holds no selection, with no
      office stored yet: the offices are read in order, the remark is forwarded stripped,
      and both the context and the guidance are recomputed. */
  lemma NewSelectionRecomputesContext(a: string, b: string, rest: string, id: Option<string>)
    requires PlainName(a) && PlainName(b) && Search(rest, 0).None?
    ensures var st := State([Human(Text(PREFIX + QuotedPair(a, b) + "]" + rest), id)], None, None, None);
      var c := ContextNode(st);
      && c.goto == [GUIDANCE_AGENT, PROCESS_CONTEXT]
      && c.update.oficinas == Some([a, b])
      && c.update.messages == [Human(Text(Strip(rest, Whitespace)), id)]
  {
    QuotedPairIsCapture(a, b);
    RouterOnLeadingSelection(QuotedPair(a, b), rest, id, None);
    assert a in OfficeSet([a, b]);
  }

  /** The same two offices stored in the other order: `process_context` is not run again,
      only the guidance agent is. */
  lemma SameSelectionSkipsRecompute(a: string, b: string, rest: string, id: Option<string>)
    requires PlainName(a) && PlainName(b) && Search(rest, 0).None?
    ensures var st := State([Human(Text(PREFIX + QuotedPair(a, b) + "]" + rest), id)], Some([b, a]), None, None);
      ContextNode(st).goto == [GUIDANCE_AGENT]
  {
    QuotedPairIsCapture(a, b);
    RouterOnLeadingSelection(QuotedPair(a, b), rest, id, Some([b, a]));
    assert OfficeSet([a, b]) == OfficeSet([b, a]);
  }

  /** The forwarded remark of the usual example: ` dame el SLA` loses its leading blank. */
  lemma RemarkIsStripped()
    ensures Strip(" dame el SLA", Whitespace) == "dame el SLA"
  {
    assert " dame el SLA" == [' '] + "dame el SLA";
    StripOneLeading(' ', "dame el SLA", Whitespace);
  }

  /** A greeting with no selection goes to `context_request_agent`, which ends the turn. */
  lemma GreetingAsksForSelection(reply: Content)
    ensures var st := State([Human(Text("hola"), None)], None, None, None);
      && ContextNode(st) == Command([CONTEXT_REQUEST_AGENT], NO_UPDATE)
      && ContextRequestAgent(st, reply).goto == [END]
  {
    ShortTailKept("hola", 0);
  }
}
