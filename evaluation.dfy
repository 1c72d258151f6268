/**
 * The question-answering side of `main.py`: the guard in
 * `AgentWrapper.__call__` and the loop of `run_and_submit_all` that asks
 * the agent every task and collects the submission payload.
 */
module Evaluation {
  import opened Wrappers
  import opened Text

  const PleaseProvide: string := "Please provide a question."
  const AgentErrorText: string := "Agent error\U{2014}see logs."
  const NoAnswers: string := "No answers generated."

  /** What `Agent.answer_question` does for one question: return an answer, or raise. */
  datatype AgentOutcome = Answered(text: string) | Raised

  /** A task from the scoring server; `None` stands for a missing key or a `null` value. */
  datatype Task = Task(taskId: Option<string>, question: Option<string>, fileName: Option<string>)

  /** One entry of `payload`. */
  datatype Submission = Submission(taskId: string, submittedAnswer: string)

  /** One entry of `results`. */
  datatype ResultRow = ResultRow(taskId: string, question: string, answer: string)

  /** How the collection ends: nothing to submit, or the payload and results to submit. */
  datatype Collected =
    | NothingToSubmit(status: string, rows: seq<ResultRow>)
    | ReadyToSubmit(payload: seq<Submission>, results: seq<ResultRow>)

  /** `AgentWrapper.__call__`: a blank question is answered without asking the agent. */
  function AskAgent(question: string, fileName: string, agent: (string, string) -> AgentOutcome): (r: string)
    ensures r == PleaseProvide || r == AgentErrorText || agent(question, fileName) == Answered(r)
    ensures Strip(question) == [] ==> r == PleaseProvide
    ensures agent(question, fileName).Raised? ==> r == PleaseProvide || r == AgentErrorText
  {
    if Strip(question) == [] then PleaseProvide
    else
      match agent(question, fileName)
      case Answered(text) => text
      case Raised => AgentErrorText
  }

  /** An empty or all-whitespace question gets the fixed reply, whatever the agent would have said. */
  lemma BlankQuestionNotAsked(question: string, fileName: string, agent: (string, string) -> AgentOutcome)
    requires AllWs(question)
    ensures AskAgent(question, fileName, agent) == PleaseProvide
  {
    StripIsInfix(question);
  }

  /** Any other question is passed on; an exception becomes the fixed error text. */
  lemma QuestionForwarded(question: string, fileName: string, agent: (string, string) -> AgentOutcome)
    requires !AllWs(question)
    ensures agent(question, fileName).Answered? ==>
      AskAgent(question, fileName, agent) == agent(question, fileName).text
    ensures agent(question, fileName).Raised? ==> AskAgent(question, fileName, agent) == AgentErrorText
  {
    StripIsInfix(question);
  }

  function OrEmpty(v: Option<string>): string {
    if v.Some? then v.value else ""
  }

  /** `not tid or not q` is false: both are present and non-empty. */
  predicate Eligible(t: Task) {
    t.taskId.Some? && t.taskId.value != [] && t.question.Some? && t.question.value != []
  }

  /** The tasks the loop does not skip, in their order. */
  function EligibleTasks(tasks: seq<Task>): seq<Task> {
    if tasks == [] then []
    else
      var last := tasks[|tasks| - 1];
      EligibleTasks(tasks[..|tasks| - 1]) + (if Eligible(last) then [last] else [])
  }

  function SubmissionFor(t: Task, agent: (string, string) -> AgentOutcome): Submission {
    Submission(OrEmpty(t.taskId), AskAgent(OrEmpty(t.question), OrEmpty(t.fileName), agent))
  }

  function RowFor(t: Task, agent: (string, string) -> AgentOutcome): ResultRow {
    ResultRow(OrEmpty(t.taskId), OrEmpty(t.question), AskAgent(OrEmpty(t.question), OrEmpty(t.fileName), agent))
  }

  /** The loop over the tasks, appending one payload entry and one result row per task it does not skip. */
  method CollectAnswers(tasks: seq<Task>, agent: (string, string) -> AgentOutcome)
    returns (payload: seq<Submission>, results: seq<ResultRow>)
    ensures |payload| == |results| == |EligibleTasks(tasks)|
    ensures forall i :: 0 <= i < |payload| ==> payload[i] == SubmissionFor(EligibleTasks(tasks)[i], agent)
    ensures forall i :: 0 <= i < |results| ==> results[i] == RowFor(EligibleTasks(tasks)[i], agent)
    ensures forall i :: 0 <= i < |payload| ==>
      payload[i].taskId == results[i].taskId && payload[i].submittedAnswer == results[i].answer
  {
    payload, results := [], [];
    for j := 0 to |tasks|
      invariant |payload| == |results| == |EligibleTasks(tasks[..j])|
      invariant forall i :: 0 <= i < |payload| ==> payload[i] == SubmissionFor(EligibleTasks(tasks[..j])[i], agent)
      invariant forall i :: 0 <= i < |results| ==> results[i] == RowFor(EligibleTasks(tasks[..j])[i], agent)
    {
      assert tasks[..j + 1][..j] == tasks[..j];
      var task := tasks[j];
      var tid := task.taskId;
      var q := if task.question.Some? then task.question.value else "";
      var fileName := if task.fileName.Some? then task.fileName.value else "";
      if tid.None? || tid.value == [] || q == [] {
        continue;
      }
      var ans := AskAgent(q, fileName, agent);
      payload := payload + [Submission(tid.value, ans)];
      results := results + [ResultRow(tid.value, q, ans)];
    }
    assert tasks[..|tasks|] == tasks;
  }

  /** The loop followed by the `if not payload` check. */
  method CollectForSubmission(tasks: seq<Task>, agent: (string, string) -> AgentOutcome) returns (r: Collected)
    ensures r.NothingToSubmit? <==> forall i :: 0 <= i < |tasks| ==> !Eligible(tasks[i])
    ensures r.NothingToSubmit? ==> r.status == NoAnswers && r.rows == []
    ensures r.ReadyToSubmit? ==> |r.payload| == |r.results| == |EligibleTasks(tasks)| > 0
    ensures r.ReadyToSubmit? ==> forall i :: 0 <= i < |r.payload| ==>
      r.payload[i] == SubmissionFor(EligibleTasks(tasks)[i], agent) &&
      r.results[i] == RowFor(EligibleTasks(tasks)[i], agent)
  {
    var payload, results := CollectAnswers(tasks, agent);
    NoneEligible(tasks);
    if payload == [] {
      return NothingToSubmit(NoAnswers, results);
    }
    return ReadyToSubmit(payload, results);
  }

  /** A task is collected exactly when it is in the list and not skipped. */
  lemma {:induction false} EligibleMembers(tasks: seq<Task>, t: Task)
    ensures t in EligibleTasks(tasks) <==> t in tasks && Eligible(t)
    decreases |tasks|
  {
    if tasks != [] {
      var init := tasks[..|tasks| - 1];
      EligibleMembers(init, t);
      assert tasks == init + [tasks[|tasks| - 1]];
    }
  }

  /** Skipping keeps the task order: the tasks of a concatenation are those of each part, in turn. */
  lemma {:induction false} EligibleAppend(a: seq<Task>, b: seq<Task>)
    ensures EligibleTasks(a + b) == EligibleTasks(a) + EligibleTasks(b)
    decreases |b|
  {
    if b != [] {
      var init := b[..|b| - 1];
      EligibleAppend(a, init);
      assert (a + b)[..|a + b| - 1] == a + init;
      assert (a + b)[|a + b| - 1] == b[|b| - 1];
    } else {
      assert a + b == a;
    }
  }

  /** Nothing is collected exactly when every task is skipped. */
  lemma {:induction false} NoneEligible(tasks: seq<Task>)
    ensures EligibleTasks(tasks) == [] <==> forall i :: 0 <= i < |tasks| ==> !Eligible(tasks[i])
    decreases |tasks|
  {
    if tasks != [] {
      var init := tasks[..|tasks| - 1];
      NoneEligible(init);
      assert forall i :: 0 <= i < |init| ==> init[i] == tasks[i];
    }
  }

  /** Every collected task has an id and a question. */
  lemma {:induction false} CollectedAreEligible(tasks: seq<Task>)
    ensures forall i :: 0 <= i < |EligibleTasks(tasks)| ==> Eligible(EligibleTasks(tasks)[i])
    decreases |tasks|
  {
    if tasks != [] {
      CollectedAreEligible(tasks[..|tasks| - 1]);
    }
  }

  /** A whitespace-only question passes the loop's check and is submitted with the fixed reply. */
  lemma WhitespaceQuestionSubmitted(id: string, agent: (string, string) -> AgentOutcome)
    requires id != []
    ensures EligibleTasks([Task(Some(id), Some(" "), None)]) == [Task(Some(id), Some(" "), None)]
    ensures SubmissionFor(Task(Some(id), Some(" "), None), agent) == Submission(id, PleaseProvide)
  {
    var t := Task(Some(id), Some(" "), None);
    assert [t][..0] == [];
    BlankQuestionNotAsked(" ", "", agent);
  }
}
