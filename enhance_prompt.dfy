/** The questionnaire alignment graph (src/agent/role_graph/enhance_prompt.py):
    the questionnaire data, the two reducers the graph state declares, the
    answer-collection loop, the answer comparison and the entry router.
    Each node is a function from a state snapshot and the oracle's (language
    model's or human's) reply to the update it returns; `Apply` merges an
    update into the state with the declared reducers. */
module EnhancePrompt {
  import opened Common
  import opened Text

  /** A multiple-choice clarification question. */
  datatype Question = Question(question: string, options: seq<string>)
  {
    /** `Question.__str__`: the question, a newline, then the options,
        whitespace-stripped, one per line. */
    function ToString(): string
    {
      question + "\n" + Join("\n", StripEach(options))
    }
  }

  /** The language model's re-answers to the whole exam. */
  datatype AIAnswerList = AIAnswerList(answers: seq<string>)
  {
    /** `AIAnswerList.__str__`: the stripped answers, one per line. */
    function ToString(): string
    {
      Join("\n", StripEach(answers))
    }
  }

  /** The comparison verdict of the language model. */
  datatype Diff = Diff(isSame: bool, diffReason: string)

  /** The rendering of every question of a list, in order. */
  function QuestionTexts(questions: seq<Question>): (r: seq<string>)
    ensures |r| == |questions|
  {
    seq(|questions|, i requires 0 <= i < |questions| => questions[i].ToString())
  }

  /** `Exam.__str__`: the rendered questions joined by newlines. */
  function ExamText(questions: seq<Question>): string
  {
    Join("\n", QuestionTexts(questions))
  }

  /** The exam object. It is the one entity of this graph that is changed in
      place: the reducer `Exam.merge` extends the left exam's question list. */
  class Exam {
    var questions: seq<Question>

    constructor (questions: seq<Question>)
      ensures this.questions == questions
    {
      this.questions := questions;
    }

    /** `Exam.merge`: appends the right exam's questions, in order, to the
        left exam's list, and returns the left exam itself. When the two are
        different objects the right one is left as it was. The state
        snapshot holds the question list, so `Apply` merges an exam update
        with the same concatenation. */
    static method Merge(left: Exam, right: Exam) returns (merged: Exam)
      modifies left
      ensures merged == left
      ensures left.questions == old(left.questions) + old(right.questions)
      ensures left != right ==> right.questions == old(right.questions)
    {
      left.questions := left.questions + right.questions;
      merged := left;
    }
  }

  /** `Question.__str__` read back line by line: the question text, then each
      stripped option on its own line; with no options the text still ends
      with the newline, which reads back as one empty line. */
  lemma QuestionLines(q: Question)
    requires '\n' !in q.question
    requires forall k :: 0 <= k < |q.options| ==> '\n' !in Strip(q.options[k])
    ensures Split(q.ToString(), '\n') ==
      [q.question] + (if q.options == [] then [""] else StripEach(q.options))
  {
    var rest := if q.options == [] then [""] else StripEach(q.options);
    var lines := [q.question] + rest;
    assert lines[1..] == rest;
    assert Join("\n", lines) == q.ToString();
    SplitJoin(lines, '\n');
  }

  /** `AIAnswerList.__str__` read back line by line gives the stripped
      answers, one per line. */
  lemma AnswerListLines(l: AIAnswerList)
    requires |l.answers| > 0
    requires forall k :: 0 <= k < |l.answers| ==> '\n' !in Strip(l.answers[k])
    ensures Split(l.ToString(), '\n') == StripEach(l.answers)
  {
    SplitJoin(StripEach(l.answers), '\n');
  }

  /** After `Exam.merge`, the exam renders as the left exam's text, a
      newline, then the right exam's text. */
  lemma ExamTextMerge(left: seq<Question>, right: seq<Question>)
    requires |left| > 0 && |right| > 0
    ensures ExamText(left + right) == ExamText(left) + "\n" + ExamText(right)
  {
    assert QuestionTexts(left + right) == QuestionTexts(left) + QuestionTexts(right);
    JoinConcat("\n", QuestionTexts(left), QuestionTexts(right));
  }

  /** `add_answers`, the reducer of the `answers` key: the existing answers
      stay where they are and the new ones follow them in order. */
  function AddAnswers(left: seq<string>, right: seq<string>): (r: seq<string>)
    ensures |r| == |left| + |right|
    ensures r[..|left|] == left && r[|left|..] == right
  {
    left + right
  }

  /** A snapshot of the graph state. `userGoal` is `None` while the key has
      not been written; `exam` is the exam object's question list. */
  datatype State = State(
    messages: seq<Message>,
    userGoal: Option<string>,
    exam: seq<Question>,
    answers: seq<string>,
    reAnswers: AIAnswerList,
    planPrompt: Option<string>)

  /** What a node returns. The appending keys hold what is to be appended
      (empty when the node does not return the key); the overwritten keys
      hold `None` when the node does not return them. */
  datatype Update = Update(
    messages: seq<Message>,
    userGoal: Option<string>,
    exam: seq<Question>,
    answers: seq<string>,
    reAnswers: Option<AIAnswerList>,
    planPrompt: Option<string>)

  const NoUpdate := Update([], None, [], [], None, None)

  /** The graph runtime merging a node's update into the state: `messages`
      is appended to, `exam` is merged by `Exam.merge`, `answers` by
      `add_answers`, and every other returned key is overwritten. */
  function Apply(s: State, u: Update): State
  {
    State(
      s.messages + u.messages,
      if u.userGoal.Some? then u.userGoal else s.userGoal,
      s.exam + u.exam,
      AddAnswers(s.answers, u.answers),
      if u.reAnswers.Some? then u.reAnswers.value else s.reAnswers,
      if u.planPrompt.Some? then u.planPrompt else s.planPrompt)
  }

  /** An update that only carries messages appends them and changes nothing
      else. */
  lemma ApplyMessagesOnly(s: State, ms: seq<Message>)
    ensures Apply(s, NoUpdate.(messages := ms)) == s.(messages := s.messages + ms)
  {
  }

  /** The name the graph runtime gives its terminal node. */
  const End := "__end__"

  /** The nodes the graph registers. */
  const Nodes: set<string> := {
    "router_node", "analyze_user_goal", "generate_exam", "human_answer",
    "human_answers_loop", "plan_prompt", "update_user_goal", "test_user_goal",
    "compare_answers"}

  /** A routing decision: the next node and the update that goes with it. */
  datatype Command = Command(goto: string, update: Update)

  /** The line above the question when `human_answer` suspends the run. */
  const AnswerRequest: string := "请选择一个最符合的答案或者提供新答案\n"

  /** The text shown to the human when `human_answer` suspends the run. */
  function HumanAnswerPrompt(s: State): string
    requires |s.answers| < |s.exam|
  {
    AnswerRequest + s.exam[|s.answers|].ToString()
  }

  /** `human_answer`: asks the question whose index is the number of answers
      so far and returns the human's reply as one new answer, with the
      rendered question and the reply as two new messages. */
  function HumanAnswer(s: State, reply: string): Update
    requires |s.answers| < |s.exam|
  {
    var question := s.exam[|s.answers|];
    NoUpdate.(answers := [reply], messages := [AIMessage(question.ToString()), HumanMessage(reply)])
  }

  /** `human_answers_loop`: back to `human_answer` while some question has
      no answer yet, on to `update_user_goal` otherwise. */
  function HumanAnswersLoop(s: State): (c: Command)
    ensures c.goto == "human_answer" <==> |s.answers| < |s.exam|
    ensures c.goto == "human_answer" || c.goto == "update_user_goal"
    ensures c.update == NoUpdate
  {
    if |s.answers| < |s.exam| then Command("human_answer", NoUpdate)
    else Command("update_user_goal", NoUpdate)
  }

  /** One round of `human_answer` under the reducers: exactly one answer is
      added after the existing ones (so it answers the question it was asked
      for), the rendered question and then the reply are appended to the
      history, and nothing else changes. The question the human was shown
      is the one the history records. */
  lemma HumanAnswerRound(s: State, reply: string)
    requires |s.answers| < |s.exam|
    ensures var t := Apply(s, HumanAnswer(s, reply));
      && HumanAnswerPrompt(s) == AnswerRequest + t.messages[|s.messages|].content
      && t.answers == s.answers + [reply]
      && t.messages == s.messages + [AIMessage(s.exam[|s.answers|].ToString()), HumanMessage(reply)]
      && t.exam == s.exam && t.userGoal == s.userGoal
      && t.reAnswers == s.reAnswers && t.planPrompt == s.planPrompt
  {
  }

  /** The questions the answer-collection loop still has to ask, in order. */
  function Unanswered(s: State): seq<Question>
  {
    if |s.answers| < |s.exam| then s.exam[|s.answers|..] else []
  }

  /** How many more rounds the answer-collection loop runs. */
  function Pending(s: State): nat
  {
    |Unanswered(s)|
  }

  /** The answer-collection loop as the graph runs it: `human_answers_loop`
      and `human_answer` alternate, each round taking the next reply, until
      the loop routes on. Each round adds one answer, so the number of
      unanswered questions is the measure that brings it to an end. */
  function CollectAnswers(s: State, replies: seq<string>): State
    requires |replies| >= Pending(s)
    decreases |s.exam| - |s.answers|
  {
    if HumanAnswersLoop(s).goto == "update_user_goal" then s
    else CollectAnswers(Apply(s, HumanAnswer(s, replies[0])), replies[1..])
  }

  /** The history the collection loop writes: each rendered question, then
      the reply to it. */
  function Transcript(questionTexts: seq<string>, replies: seq<string>): seq<Message>
    requires |questionTexts| == |replies|
  {
    if |questionTexts| == 0 then
      []
    else
      [AIMessage(questionTexts[0]), HumanMessage(replies[0])]
        + Transcript(questionTexts[1..], replies[1..])
  }

  lemma {:induction false} TranscriptLength(questionTexts: seq<string>, replies: seq<string>)
    requires |questionTexts| == |replies|
    ensures |Transcript(questionTexts, replies)| == 2 * |questionTexts|
  {
    if |questionTexts| > 0 {
      TranscriptLength(questionTexts[1..], replies[1..]);
    }
  }

  /** Entry `2 * j` of the transcript is question `j` and entry `2 * j + 1`
      is the reply to it. */
  lemma {:induction false} TranscriptAt(questionTexts: seq<string>, replies: seq<string>, j: nat)
    requires |questionTexts| == |replies| && j < |questionTexts|
    ensures |Transcript(questionTexts, replies)| == 2 * |questionTexts|
    ensures Transcript(questionTexts, replies)[2 * j] == AIMessage(questionTexts[j])
    ensures Transcript(questionTexts, replies)[2 * j + 1] == HumanMessage(replies[j])
  {
    TranscriptLength(questionTexts, replies);
    if j > 0 {
      TranscriptAt(questionTexts[1..], replies[1..], j - 1);
    }
  }

  /** The transcript entries of question `j`, read after an earlier
      history. */
  lemma HistoryAt(m: seq<Message>, questionTexts: seq<string>, replies: seq<string>, j: nat)
    requires |questionTexts| == |replies| && j < |questionTexts|
    ensures |m + Transcript(questionTexts, replies)| == |m| + 2 * |questionTexts|
    ensures (m + Transcript(questionTexts, replies))[|m| + 2 * j] == AIMessage(questionTexts[j])
    ensures (m + Transcript(questionTexts, replies))[|m| + 2 * j + 1] == HumanMessage(replies[j])
  {
    TranscriptAt(questionTexts, replies, j);
  }

  /** Part `j` of the unanswered questions' rendering is the question at
      index `|answers| + j`. */
  lemma UnansweredText(s: State, j: nat)
    requires j < Pending(s)
    ensures QuestionTexts(Unanswered(s))[j] == s.exam[|s.answers| + j].ToString()
  {
  }

  lemma AppendAssoc<T>(a: seq<T>, b: seq<T>, c: seq<T>)
    ensures (a + b) + c == a + (b + c)
  {
  }

  /** One round of the collection loop: the loop continues from the state
      with the next reply recorded, and one question fewer is pending. */
  lemma CollectStep(s: State, replies: seq<string>)
    requires |s.answers| < |s.exam| && |replies| >= Pending(s)
    ensures var s' := Apply(s, HumanAnswer(s, replies[0]));
      && CollectAnswers(s, replies) == CollectAnswers(s', replies[1..])
      && Pending(s') == Pending(s) - 1
      && s'.answers == s.answers + [replies[0]]
  {
  }

  /** The collection loop records the next `Pending(s)` replies after the
      existing answers, one per round, so reply `j` answers question
      `|s.answers| + j`. */
  lemma {:induction false} CollectAnswersSpec(s: State, replies: seq<string>)
    requires |replies| >= Pending(s)
    decreases Pending(s)
    ensures CollectAnswers(s, replies).answers == s.answers + replies[..Pending(s)]
  {
    var k := Pending(s);
    if |s.answers| < |s.exam| {
      var s' := Apply(s, HumanAnswer(s, replies[0]));
      CollectStep(s, replies);
      CollectAnswersSpec(s', replies[1..]);
      var rest := replies[1..][..k - 1];
      assert replies[..k] == [replies[0]] + rest;
      AppendAssoc(s.answers, [replies[0]], rest);
    }
  }

  /** The collection loop ends routing on to `update_user_goal`, and leaves
      the exam, the goal, the re-answers and the plan as they were. */
  lemma {:induction false} CollectAnswersExit(s: State, replies: seq<string>)
    requires |replies| >= Pending(s)
    decreases Pending(s)
    ensures var t := CollectAnswers(s, replies);
      && HumanAnswersLoop(t).goto == "update_user_goal"
      && t.exam == s.exam && t.userGoal == s.userGoal
      && t.reAnswers == s.reAnswers && t.planPrompt == s.planPrompt
  {
    if |s.answers| < |s.exam| {
      CollectStep(s, replies);
      CollectAnswersExit(Apply(s, HumanAnswer(s, replies[0])), replies[1..]);
    }
  }

  /** What the collection loop appends to the history: for each question it
      asks, the rendered question followed by the reply, in question order. */
  lemma {:induction false} CollectAnswersHistory(s: State, replies: seq<string>)
    requires |replies| >= Pending(s)
    decreases Pending(s)
    ensures CollectAnswers(s, replies).messages ==
      s.messages + Transcript(QuestionTexts(Unanswered(s)), replies[..Pending(s)])
  {
    var k := Pending(s);
    if |s.answers| < |s.exam| {
      var s' := Apply(s, HumanAnswer(s, replies[0]));
      HumanAnswerRound(s, replies[0]);
      CollectAnswersHistory(s', replies[1..]);
      var texts := QuestionTexts(Unanswered(s));
      assert texts[0] == s.exam[|s.answers|].ToString();
      assert texts[1..] == QuestionTexts(Unanswered(s'));
      assert replies[..k][1..] == replies[1..][..k - 1];
    }
  }

  /** A run suspended before the third of three questions: one more reply
      completes the answers and the loop routes on. */
  lemma ThirdAnswerCompletesExam(s: State, reply: string)
    requires |s.exam| == 3 && |s.answers| == 2
    ensures |CollectAnswers(s, [reply]).answers| == 3
    ensures HumanAnswersLoop(CollectAnswers(s, [reply])).goto == "update_user_goal"
  {
    CollectAnswersSpec(s, [reply]);
    CollectAnswersExit(s, [reply]);
  }

  /** One answer per unanswered question: reply `j` becomes the answer to
      question `|s.answers| + j`. */
  lemma AnswersMatchQuestions(s: State, replies: seq<string>, j: nat)
    requires |replies| >= Pending(s) && j < Pending(s)
    ensures var t := CollectAnswers(s, replies);
      && |t.answers| == |s.answers| + Pending(s)
      && t.answers[|s.answers| + j] == replies[j]
  {
    CollectAnswersSpec(s, replies);
  }

  /** Two history entries per unanswered question: question
      `|s.answers| + j` is shown just before reply `j`. */
  lemma HistoryMatchesQuestions(s: State, replies: seq<string>, j: nat)
    requires |replies| >= Pending(s) && j < Pending(s)
    ensures var t := CollectAnswers(s, replies);
      && |t.messages| == |s.messages| + 2 * Pending(s)
      && t.messages[|s.messages| + 2 * j] == AIMessage(s.exam[|s.answers| + j].ToString())
      && t.messages[|s.messages| + 2 * j + 1] == HumanMessage(replies[j])
  {
    CollectAnswersHistory(s, replies);
    HistoryAt(s.messages, QuestionTexts(Unanswered(s)), replies[..Pending(s)], j);
    UnansweredText(s, j);
  }

  /** Length of a `zip` of three lists: that of the shortest one. */
  function ZipLength(a: nat, b: nat, c: nat): (n: nat)
    ensures n <= a && n <= b && n <= c
    ensures n == a || n == b || n == c
  {
    if a <= b && a <= c then a else if b <= c then b else c
  }

  /** One line of the comparison prompt: a question, the re-answer and the
      human's answer. */
  function DiffLine(question: Question, reAnswer: string, userAnswer: string): string
  {
    "题目: " + question.ToString() + "\n推测意图: " + reAnswer + "\n用户选择: " + userAnswer
  }

  /** The loop of `compare_answers` over `zip(questions, answers,
      re_answers)`: one line per index, stopping at the shortest list. */
  method BuildDiffInfo(questions: seq<Question>, answers: seq<string>, reAnswers: seq<string>)
    returns (diffInfo: seq<string>)
    ensures |diffInfo| == ZipLength(|questions|, |answers|, |reAnswers|)
    ensures forall i :: 0 <= i < |diffInfo| ==>
      diffInfo[i] == DiffLine(questions[i], reAnswers[i], answers[i])
  {
    diffInfo := [];
    var i := 0;
    while i < |questions| && i < |answers| && i < |reAnswers|
      invariant i <= |questions| && i <= |answers| && i <= |reAnswers|
      invariant |diffInfo| == i
      invariant forall j :: 0 <= j < i ==> diffInfo[j] == DiffLine(questions[j], reAnswers[j], answers[j])
    {
      diffInfo := diffInfo + [DiffLine(questions[i], reAnswers[i], answers[i])];
      i := i + 1;
    }
  }

  /** `compare_answers` with its END target corrected: it builds the
      comparison lines the language model is shown (returned here), then,
      given the model's verdict, ends the run when the answers are judged
      the same, and otherwise routes to `update_user_goal` with exactly one
      new message stating the difference. */
  method CompareAnswers(s: State, judge: Diff) returns (diffInfo: seq<string>, c: Command)
    ensures |diffInfo| == ZipLength(|s.exam|, |s.answers|, |s.reAnswers.answers|)
    ensures forall i :: 0 <= i < |diffInfo| ==>
      diffInfo[i] == DiffLine(s.exam[i], s.reAnswers.answers[i], s.answers[i])
    ensures c.goto == End <==> judge.isSame
    ensures c.goto == End || c.goto in Nodes
    ensures judge.isSame ==> c.update == NoUpdate
    ensures !judge.isSame ==>
      c.update == NoUpdate.(messages := [HumanMessage("差异:" + judge.diffReason)])
  {
    diffInfo := BuildDiffInfo(s.exam, s.answers, s.reAnswers.answers);
    if judge.isSame {
      c := Command(End, NoUpdate);
    } else {
      c := Command("update_user_goal", NoUpdate.(messages := [HumanMessage("差异:" + judge.diffReason)]));
    }
  }

  /** The target `compare_answers` names as written: the string "END", which
      is neither the runtime's terminal node nor a node of the graph. */
  function CompareAnswersGotoAsWritten(judge: Diff): (target: string)
    ensures judge.isSame ==> target != End && target !in Nodes
    ensures !judge.isSame ==> target == "update_user_goal"
  {
    if judge.isSame then "END" else "update_user_goal"
  }

  /** `router_node`: a run whose goal has never been written starts by
      analysing it; any goal, the empty string included, goes to testing. */
  function RouterNode(s: State): (c: Command)
    ensures c.goto == "analyze_user_goal" <==> s.userGoal.None?
    ensures c.goto == "analyze_user_goal" || c.goto == "test_user_goal"
    ensures c.update == NoUpdate
  {
    if s.userGoal.None? then Command("analyze_user_goal", NoUpdate)
    else Command("test_user_goal", NoUpdate)
  }
}
