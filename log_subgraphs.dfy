/** The log-analysis graphs: a failure-analysis subgraph that keeps the graded logs and
    names one analysis per failure, a question-summarisation subgraph that names one summary
    per log and sends a report, and an entry graph that cleans the raw logs and runs both,
    adding up their processed-log lists. */
module LogSubgraphs {
  import opened Wrappers

  /** A log record. The keys `docs`, `grade`, `grader` and `feedback` may be missing (outer
      `None`) or hold `None` (inner `None`). */
  datatype Log = Log(
    id: string,
    question: string,
    answer: string,
    docs: Option<Option<seq<string>>>,
    grade: Option<Option<int>>,
    grader: Option<Option<string>>,
    feedback: Option<Option<string>>)

  /** `"grade" in log`: the test is the key's presence, whatever its value. */
  predicate HasGrade(log: Log) {
    log.grade.Some?
  }

  /** `get_failures`: the logs that carry a grade, in their original order. */
  function GetFailures(cleaned: seq<Log>): (failures: seq<Log>)
    ensures |failures| <= |cleaned|
    ensures forall l :: l in failures <==> l in cleaned && HasGrade(l)
  {
    if cleaned == [] then []
    else (if HasGrade(cleaned[0]) then [cleaned[0]] else []) + GetFailures(cleaned[1..])
  }

  /** Filtering a concatenation filters each part: with `GetFailures([l])` being `[l]` or
      `[]`, this fixes the result, order included. */
  lemma {:induction false} GetFailuresAppend(a: seq<Log>, b: seq<Log>)
    ensures GetFailures(a + b) == GetFailures(a) + GetFailures(b)
  {
    if a != [] {
      assert (a + b)[0] == a[0] && (a + b)[1..] == a[1..] + b;
      GetFailuresAppend(a[1..], b);
    } else {
      assert a + b == b;
    }
  }

  lemma GetFailuresSingle(l: Log)
    ensures GetFailures([l]) == if HasGrade(l) then [l] else []
  {
    assert [l][1..] == [];
  }

  /** Filtering twice is filtering once. */
  lemma {:induction false} GetFailuresIdempotent(cleaned: seq<Log>)
    ensures GetFailures(GetFailures(cleaned)) == GetFailures(cleaned)
  {
    if cleaned != [] {
      GetFailuresIdempotent(cleaned[1..]);
      var head := if HasGrade(cleaned[0]) then [cleaned[0]] else [];
      GetFailuresAppend(head, GetFailures(cleaned[1..]));
      if HasGrade(cleaned[0]) {
        GetFailuresSingle(cleaned[0]);
      }
    }
  }

  /** The failure-analysis subgraph's output state. */
  datatype FaOutput = FaOutput(faSummary: string, processedLogs: seq<string>)

  const FA_SUMMARY := "poor quality retrieval of chroma docs"
  const FA_PREFIX := "failure-analysis-on-log-"

  /** `generate_summary` of the failure-analysis subgraph: a fixed summary and one entry per
      failure, in order, naming its id. */
  function FaGenerateSummary(failures: seq<Log>): (out: FaOutput)
    ensures out.faSummary == FA_SUMMARY
    ensures |out.processedLogs| == |failures|
    ensures forall k :: 0 <= k < |failures| ==> out.processedLogs[k] == FA_PREFIX + failures[k].id
  {
    FaOutput(FA_SUMMARY, seq(|failures|, k requires 0 <= k < |failures| => FA_PREFIX + failures[k].id))
  }

  /** The question-summarisation subgraph's state after its summary step. */
  datatype QsSummary = QsSummary(qsSummary: string, processedLogs: seq<string>)

  const QS_SUMMARY := "Questions focused on usage of ChatOllama and Chroma vector store."
  const QS_PREFIX := "summary-on-log-"
  const REPORT := "foo bar baz"

  /** `generate_summary` of the question-summarisation subgraph: a fixed summary and one
      entry per cleaned log, in order, naming its id. */
  function QsGenerateSummary(cleaned: seq<Log>): (out: QsSummary)
    ensures out.qsSummary == QS_SUMMARY
    ensures |out.processedLogs| == |cleaned|
    ensures forall k :: 0 <= k < |cleaned| ==> out.processedLogs[k] == QS_PREFIX + cleaned[k].id
  {
    QsSummary(QS_SUMMARY, seq(|cleaned|, k requires 0 <= k < |cleaned| => QS_PREFIX + cleaned[k].id))
  }

  /** `send_to_slack`: the report, which does not depend on the summary. */
  function SendToSlack(qsSummary: string): (report: string)
    ensures report == REPORT
  {
    REPORT
  }

  /** `clean_logs`: the raw logs are passed on as they are. */
  function CleanLogs(raw: seq<Log>): (cleaned: seq<Log>)
    ensures cleaned == raw
  {
    raw
  }

  /** The failure-analysis subgraph: `get_failures`, then its own `generate_summary`; its
      output names every graded log, in order, and no other. */
  function FailureAnalysis(cleaned: seq<Log>): (out: FaOutput)
    ensures out.faSummary == FA_SUMMARY
    ensures |out.processedLogs| == |GetFailures(cleaned)| <= |cleaned|
    ensures forall k :: 0 <= k < |out.processedLogs| ==>
      out.processedLogs[k] == FA_PREFIX + GetFailures(cleaned)[k].id && HasGrade(GetFailures(cleaned)[k])
  {
    FaGenerateSummary(GetFailures(cleaned))
  }

  /** The question-summarisation subgraph's output state. */
  datatype QsOutput = QsOutput(report: string, processedLogs: seq<string>)

  /** The question-summarisation subgraph: `generate_summary`, then `send_to_slack`; the
      report is the fixed text and every log is named once, in order. */
  function QuestionSummarization(cleaned: seq<Log>): (out: QsOutput)
    ensures out.report == REPORT
    ensures |out.processedLogs| == |cleaned|
    ensures forall k :: 0 <= k < |cleaned| ==> out.processedLogs[k] == QS_PREFIX + cleaned[k].id
  {
    var s := QsGenerateSummary(cleaned);
    QsOutput(SendToSlack(s.qsSummary), s.processedLogs)
  }

  /** The entry graph's final state. */
  datatype EntryState = EntryState(
    rawLogs: seq<Log>, cleanedLogs: seq<Log>, faSummary: string, report: string, processedLogs: seq<string>)

  /** The entry graph: clean the logs, run both subgraphs on them, and add their processed
      lists; `faFirst` stands for the order in which the framework applies the two parallel
      updates. */
  function EntryGraph(raw: seq<Log>, faFirst: bool): (st: EntryState)
    ensures st.rawLogs == raw && st.cleanedLogs == raw
    ensures st.faSummary == FA_SUMMARY && st.report == REPORT
    ensures |st.processedLogs| == |raw| + |GetFailures(raw)|
    ensures multiset(st.processedLogs)
      == multiset(FailureAnalysis(raw).processedLogs) + multiset(QuestionSummarization(raw).processedLogs)
  {
    var cleaned := CleanLogs(raw);
    var fa := FailureAnalysis(cleaned);
    var qs := QuestionSummarization(cleaned);
    EntryState(raw, cleaned, fa.faSummary, qs.report,
      if faFirst then fa.processedLogs + qs.processedLogs else qs.processedLogs + fa.processedLogs)
  }

  // ---------------------------------------------------------------------------

  /** The name of an entry gives its log's id back. */
  lemma ProcessedNamesGiveIdsBack(cleaned: seq<Log>)
    ensures var fa := FailureAnalysis(cleaned).processedLogs;
      forall k :: 0 <= k < |fa| ==> fa[k][|FA_PREFIX|..] == GetFailures(cleaned)[k].id
    ensures var qs := QuestionSummarization(cleaned).processedLogs;
      forall k :: 0 <= k < |qs| ==> qs[k][|QS_PREFIX|..] == cleaned[k].id
  {
  }

  /** The names of the logs with a prefix, in order. */
  function Named(prefix: string, logs: seq<Log>): (names: seq<string>)
    ensures |names| == |logs|
    ensures forall k :: 0 <= k < |logs| ==> names[k] == prefix + logs[k].id
  {
    seq(|logs|, k requires 0 <= k < |logs| => prefix + logs[k].id)
  }

  /** The entry graph's outputs: the cleaned logs are the raw ones, the summary and report are
      the fixed texts, and the processed list holds exactly one summary per log and one
      analysis per graded log, counted with repetition; `EntryGraphOrderFree` adds that the
      order of the two updates changes nothing but the order of the list. */
  lemma {:induction false} EntryGraphOutputs(raw: seq<Log>, faFirst: bool)
    ensures var st := EntryGraph(raw, faFirst);
      && st.cleanedLogs == raw
      && st.faSummary == FA_SUMMARY && st.report == REPORT
      && |st.processedLogs| == |raw| + |GetFailures(raw)|
      && (forall l :: l in raw ==> QS_PREFIX + l.id in st.processedLogs)
      && (forall l :: l in raw && HasGrade(l) ==> FA_PREFIX + l.id in st.processedLogs)
      && multiset(st.processedLogs) == multiset(Named(QS_PREFIX, raw)) + multiset(Named(FA_PREFIX, GetFailures(raw)))
  {
    var fa := FailureAnalysis(raw).processedLogs;
    var qs := QuestionSummarization(raw).processedLogs;
    var st := EntryGraph(raw, faFirst);
    assert fa == Named(FA_PREFIX, GetFailures(raw));
    assert qs == Named(QS_PREFIX, raw);
    assert forall x :: x in fa || x in qs ==> x in st.processedLogs;
    forall l | l in raw ensures QS_PREFIX + l.id in qs {
      var k :| 0 <= k < |raw| && raw[k] == l;
      assert qs[k] == QS_PREFIX + l.id;
    }
    forall l | l in raw && HasGrade(l) ensures FA_PREFIX + l.id in fa {
      var failures := GetFailures(raw);
      assert l in failures;
      var k :| 0 <= k < |failures| && failures[k] == l;
      assert fa[k] == FA_PREFIX + l.id;
    }
  }

  /** The two orders of the parallel updates give the same entries. */
  lemma EntryGraphOrderFree(raw: seq<Log>)
    ensures multiset(EntryGraph(raw, true).processedLogs) == multiset(EntryGraph(raw, false).processedLogs)
  {
    var fa := FailureAnalysis(raw).processedLogs;
    var qs := QuestionSummarization(raw).processedLogs;
    assert multiset(fa + qs) == multiset(fa) + multiset(qs) == multiset(qs + fa);
  }

  /** An ungraded log followed by a graded one, as in the demo logs (whose second log is
      graded 0): only the second is a failure, whatever its grade, and each subgraph names
      the logs it kept, in order. */
  lemma {:induction false} OneGradedOfTwo(a: Log, b: Log)
    requires !HasGrade(a) && HasGrade(b)
    ensures GetFailures([a, b]) == [b]
    ensures FailureAnalysis([a, b]).processedLogs == [FA_PREFIX + b.id]
    ensures QuestionSummarization([a, b]).processedLogs == [QS_PREFIX + a.id, QS_PREFIX + b.id]
  {
    assert [a, b][1..] == [b] && [b][1..] == [];
  }
}

module LogSubgraphsDemo {
  import opened Wrappers
  import opened LogSubgraphs

  const QUESTION_ANSWER := Log("1", "How can I import ChatOllama?",
    "To import ChatOllama, use: 'from langchain_community.chat_models import ChatOllama.'",
    None, None, None, None)

  const QUESTION_ANSWER_FEEDBACK := Log("2", "How can I use Chroma vector store?",
    "To use Chroma, define: rag_chain = create_retrieval_chain(retriever, question_answer_chain).",
    None, Some(Some(0)), Some(Some("Document Relevance Recall")),
    Some(Some("The retrieved documents discuss vector stores in general, but not Chroma specifically")))

  /** On the demo logs only log `2` is a failure, although its grade is 0. */
  lemma DemoHasOneFailure()
    ensures GetFailures([QUESTION_ANSWER, QUESTION_ANSWER_FEEDBACK]) == [QUESTION_ANSWER_FEEDBACK]
    ensures FailureAnalysis([QUESTION_ANSWER, QUESTION_ANSWER_FEEDBACK]).processedLogs
      == [FA_PREFIX + QUESTION_ANSWER_FEEDBACK.id]
  {
    OneGradedOfTwo(QUESTION_ANSWER, QUESTION_ANSWER_FEEDBACK);
  }
}
