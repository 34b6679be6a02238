/** The human-in-the-loop demonstration graph
    (src/agent/role_graph/humaninlooptest.py): a risky operation that
    suspends the run when its task is dangerous, an agent suggestion built
    from the exception and the task, a human decision that may suspend again,
    and the priority router between them. Suspending (`interrupt`) is
    modelled by its two outcomes: without a resume value the node stops with
    its payload; with one, the call returns that value. */
module HumanInLoop {
  import opened Common
  import opened Text

  /** The graph state; `None` is a key that is `None` or was never set. */
  datatype State = State(
    messages: seq<Message>,
    currentTask: string,
    exceptionInfo: Option<string>,
    agentSuggestion: Option<string>,
    userDecision: Option<string>)

  /** The keys a node returns; `None` is a key the node leaves out. */
  datatype Update = Update(
    messages: Option<seq<Message>>,
    exceptionInfo: Option<string>,
    agentSuggestion: Option<string>)

  /** What a suspended node shows the human. */
  datatype Payload =
    | RiskPayload(task: string, error: string, stateSummary: string)
    | ConfirmPayload(suggestedDecision: string, needsFinalConfirm: bool)

  /** A node call either stops the run with a payload or returns an update. */
  datatype Outcome = Interrupt(payload: Payload) | Return(update: Update)

  /** The exception a node raises when a key it tests is `None`. */
  datatype NodeError = TypeError

  const Danger: string := "delete_all"
  const SafeReplacement: string := "delete_safe"

  /** The text of the exception the risky operation raises. */
  const DangerMessage: string := "检测到危险操作: " + Danger

  /** The history line the risky operation reports on success. */
  function SuccessText(task: string): string
  {
    "任务 " + task + " 执行成功"
  }

  /** `risky_operation_node`: a task containing `delete_all` raises, and the
      handler records the exception text and suspends with the task, the
      error and a summary, taking the resumed value as the new messages; any
      other task reports exactly one success message. */
  function RiskyOperationNode(s: State, resume: Option<seq<Message>>): (o: Outcome)
    ensures Contains(s.currentTask, Danger) <==> o.Interrupt? || o.update.exceptionInfo.Some?
    ensures Contains(s.currentTask, Danger) && resume.None? ==>
      o == Interrupt(RiskPayload(s.currentTask, DangerMessage, "历史任务: " + s.currentTask))
    ensures Contains(s.currentTask, Danger) && resume.Some? ==>
      o == Return(Update(Some(resume.value), Some(DangerMessage), None))
    ensures !Contains(s.currentTask, Danger) ==>
      o == Return(Update(Some([AIMessage(SuccessText(s.currentTask))]), None, None))
  {
    if Contains(s.currentTask, Danger) then
      match resume
      case None => Interrupt(RiskPayload(s.currentTask, DangerMessage, "历史任务: " + s.currentTask))
      case Some(v) => Return(Update(Some(v), Some(DangerMessage), None))
    else
      Return(Update(Some([AIMessage(SuccessText(s.currentTask))]), None, None))
  }

  /** The success message names the task it reports on. */
  lemma SuccessNamesTask(task: string)
    ensures Contains(SuccessText(task), task)
  {
    ContainsMiddle("任务 ", task, " 执行成功");
  }

  /** Where `router` sends the run. */
  datatype Route = ToSuggestion | ToDecision | ToEnd

  /** `router`: a recorded exception comes first, then a user decision, and
      with neither the run ends; an empty string counts as absent. */
  function Router(s: State): (r: Route)
    ensures r == ToSuggestion <==> Truthy(s.exceptionInfo)
    ensures r == ToDecision <==> !Truthy(s.exceptionInfo) && Truthy(s.userDecision)
    ensures r == ToEnd <==> !Truthy(s.exceptionInfo) && !Truthy(s.userDecision)
  {
    if Truthy(s.exceptionInfo) then ToSuggestion
    else if Truthy(s.userDecision) then ToDecision
    else ToEnd
  }

  /** After a dangerous task is resumed, the router goes to the suggestion
      whatever decision the state already holds. */
  lemma ResumedDangerGoesToSuggestion(s: State, resume: seq<Message>)
    requires Contains(s.currentTask, Danger)
    ensures var o := RiskyOperationNode(s, Some(resume));
      Router(s.(exceptionInfo := o.update.exceptionInfo)) == ToSuggestion
  {
  }

  /** The task the `modify_safe` option proposes. */
  function SafeTask(task: string): string
  {
    Replace(task, Danger, SafeReplacement)
  }

  /** Python's `str(x)` for an optional string. */
  function OptionText(x: Option<string>): string
  {
    if x.Some? then x.value else "None"
  }

  /** The fixed parts of the suggestion text, with the indentation the
      source's triple-quoted string carries. */
  const SuggestionIntro: string := "\n    异常: "
  const SuggestionOptions: string := "\n    建议选项:\n    1. 重试 (retry)\n    2. 修改任务为 "
  const SuggestionTail: string := "\n    3. 跳过 (skip)\n    4. 人工指定新任务 (custom: your_instruction)\n    "

  /** The `modify_safe` option line: the proposed task in quotes. */
  function ModifySafeOption(task: string): string
  {
    "'" + SafeTask(task) + "' (modify_safe)"
  }

  function SuggestionText(s: State): string
  {
    SuggestionIntro + OptionText(s.exceptionInfo) + SuggestionOptions
    + ModifySafeOption(s.currentTask) + SuggestionTail
  }

  /** `agent_suggestion_node`: records the suggestion and returns it as
      exactly one message; the suggestion shows the exception and the task
      with `delete_all` replaced. */
  function AgentSuggestionNode(s: State): (u: Update)
    ensures u.agentSuggestion.Some? && u.exceptionInfo.None?
    ensures u.messages == Some([AIMessage(u.agentSuggestion.value)])
    ensures Contains(u.agentSuggestion.value, OptionText(s.exceptionInfo))
    ensures Contains(u.agentSuggestion.value, ModifySafeOption(s.currentTask))
  {
    var ex := OptionText(s.exceptionInfo);
    var option := ModifySafeOption(s.currentTask);
    var text := SuggestionText(s);
    assert text == SuggestionIntro + ex + (SuggestionOptions + option + SuggestionTail);
    ContainsMiddle(SuggestionIntro, ex, SuggestionOptions + option + SuggestionTail);
    assert text == (SuggestionIntro + ex + SuggestionOptions) + option + SuggestionTail;
    ContainsMiddle(SuggestionIntro + ex + SuggestionOptions, option, SuggestionTail);
    Update(Some([AIMessage(text)]), None, Some(text))
  }

  /** A safe task is left as it is, and a dangerous one shows the safe
      replacement. */
  lemma SafeTaskShape(task: string)
    ensures !Contains(task, Danger) ==> SafeTask(task) == task
    ensures Contains(task, Danger) ==> Contains(SafeTask(task), SafeReplacement)
  {
    if Contains(task, Danger) {
      ReplacePresent(task, Danger, SafeReplacement);
    } else {
      ReplaceAbsent(task, Danger, SafeReplacement);
    }
  }

  /** Text without a `d` in front of a text without `delete_all` does not
      create an occurrence. */
  lemma {:induction false} NoDangerAfter(r: string, t: string)
    requires 'd' !in r
    requires !Contains(t, Danger)
    ensures !Contains(r + t, Danger)
  {
    if |r| == 0 {
      assert r + t == t;
    } else {
      assert (r + t)[0] != Danger[0];
      assert (r + t)[1..] == r[1..] + t;
      NoDangerAfter(r[1..], t);
    }
  }

  /** Text that starts with `delete_all` is rewritten to start with `d`. */
  lemma SafeTaskOfDanger(s: string)
    requires StartsWith(s, Danger)
    ensures |SafeTask(s)| > 0 && SafeTask(s)[0] == 'd'
  {
  }

  /** Replacement never makes text start with a `d`-free prefix the original
      did not start with: a replaced occurrence begins with `d`. */
  lemma {:induction false} ReplaceKeepsDFreePrefix(s: string, x: string)
    requires 'd' !in x
    requires StartsWith(SafeTask(s), x)
    ensures StartsWith(s, x)
  {
    if |x| > 0 {
      if StartsWith(s, Danger) {
        SafeTaskOfDanger(s);
        assert false;
      } else if |s| > 0 {
        var t := SafeTask(s[1..]);
        assert SafeTask(s) == [s[0]] + t;
        assert StartsWith(t, x[1..]) by {
          assert t[..|x| - 1] == SafeTask(s)[1..|x|];
        }
        ReplaceKeepsDFreePrefix(s[1..], x[1..]);
        assert s[..|x|] == [s[0]] + s[1..][..|x| - 1];
      }
    }
  }

  /** The `modify_safe` task never contains `delete_all`: every occurrence is
      replaced, and no replacement joins its neighbours into a new one. */
  lemma {:induction false} SafeTaskIsSafe(task: string)
    ensures !Contains(SafeTask(task), Danger)
    decreases |task|
  {
    if StartsWith(task, Danger) {
      var t := SafeTask(task[|Danger|..]);
      SafeTaskIsSafe(task[|Danger|..]);
      var r := SafeReplacement + t;
      assert SafeTask(task) == r;
      assert r[..|Danger|] != Danger by { assert r[7] == 's'; }
      assert r[1..] == SafeReplacement[1..] + t;
      NoDangerAfter(SafeReplacement[1..], t);
    } else if |task| > 0 {
      var t := SafeTask(task[1..]);
      SafeTaskIsSafe(task[1..]);
      var r := [task[0]] + t;
      assert SafeTask(task) == r;
      assert r[1..] == t;
      if StartsWith(r, Danger) {
        assert StartsWith(t, Danger[1..]) by {
          assert t[..|Danger| - 1] == r[1..|Danger|];
        }
        ReplaceKeepsDFreePrefix(task[1..], Danger[1..]);
        assert false;
      }
    }
  }

  /** Taking the `modify_safe` option makes the risky operation succeed. */
  lemma ModifySafeSucceeds(s: State, resume: Option<seq<Message>>)
    ensures RiskyOperationNode(s.(currentTask := SafeTask(s.currentTask)), resume)
      == Return(Update(Some([AIMessage(SuccessText(SafeTask(s.currentTask)))]), None, None))
  {
    SafeTaskIsSafe(s.currentTask);
  }

  /** The history line a plain decision adds. */
  function DecisionText(decision: string): string
  {
    "执行用户决策: " + decision
  }

  /** `human_decision_node`: testing a `None` decision raises; a decision
      containing `custom` suspends again for a final confirmation and the
      node returns whatever the run is resumed with; any other decision adds
      exactly one message. */
  function HumanDecisionNode(s: State, resume: Option<Update>): (r: Result<Outcome, NodeError>)
    ensures r.Failure? <==> s.userDecision.None?
    ensures s.userDecision.Some? && Contains(s.userDecision.value, "custom") ==>
      r.value == (if resume.None? then Interrupt(ConfirmPayload(s.userDecision.value, true)) else Return(resume.value))
    ensures s.userDecision.Some? && !Contains(s.userDecision.value, "custom") ==>
      r.value == Return(Update(Some([AIMessage(DecisionText(s.userDecision.value))]), None, None))
  {
    match s.userDecision
    case None => Failure(TypeError)
    case Some(d) =>
      if Contains(d, "custom") then
        match resume
        case None => Success(Interrupt(ConfirmPayload(d, true)))
        case Some(u) => Success(Return(u))
      else Success(Return(Update(Some([AIMessage(DecisionText(d))]), None, None)))
  }

  /** The decision message names the decision, so a plain decision is shown
      back as it was given. */
  lemma DecisionNamed(d: string)
    ensures Contains(DecisionText(d), d)
  {
    ContainsMiddle("执行用户决策: ", d, "");
    assert "执行用户决策: " + d + "" == DecisionText(d);
  }
}
