/** The novel-writing pipeline (src/agent/role_graph/wizard_v1.py): a router
    that maps the current stage to the next node, and the research,
    generator, compiler, lint and quality nodes, each a function from the
    state snapshot and the language model's reply to the update or routing
    command it returns. */
module WizardV1 {
  import opened Common
  import opened Text

  datatype Status = Pass | Fail

  /** A check state (`compile_check`, `lint_check`, `quality_check`): a
      verdict and its error texts. */
  datatype Check = Check(status: Status, errorMessages: seq<string>)

  /** The structured requirement summary the research node obtains. */
  datatype ResearchResult = ResearchResult(
    summary: string, background: string, constraints: string, style: string, quality: string)

  /** A snapshot of the pipeline state. Keys that have not been written read
      as empty lists or `None`; `currentStage` is any string, since nothing
      at run time confines it to the six stage names. */
  datatype WizardState = WizardState(
    messages: seq<Message>,
    contextAsset: seq<ResearchResult>,
    draft: seq<Message>,
    verifyContent: seq<Message>,
    publishedContent: seq<Message>,
    compileCheck: Option<Check>,
    lintCheck: Option<Check>,
    qualityCheck: Option<Check>,
    currentStage: Option<string>)

  /** A key an update may overwrite: left alone, or set (possibly to `None`). */
  datatype Write<T> = Keep | Set(value: T)

  /** What a node returns. The message lists hold what is to be appended. */
  datatype WizardUpdate = WizardUpdate(
    messages: seq<Message>,
    contextAsset: Write<seq<ResearchResult>>,
    draft: seq<Message>,
    verifyContent: seq<Message>,
    publishedContent: seq<Message>,
    compileCheck: Write<Option<Check>>,
    lintCheck: Write<Option<Check>>,
    qualityCheck: Write<Option<Check>>,
    currentStage: Write<string>)

  const NoUpdate: WizardUpdate := WizardUpdate([], Keep, [], [], [], Keep, Keep, Keep, Keep)

  function Overwrite<T>(current: T, w: Write<T>): T
  {
    if w.Set? then w.value else current
  }

  /** The graph runtime merging an update: the four message lists are
      appended to, every other key is overwritten when the update sets it. */
  function Apply(s: WizardState, u: WizardUpdate): WizardState
  {
    WizardState(
      s.messages + u.messages,
      Overwrite(s.contextAsset, u.contextAsset),
      s.draft + u.draft,
      s.verifyContent + u.verifyContent,
      s.publishedContent + u.publishedContent,
      Overwrite(s.compileCheck, u.compileCheck),
      Overwrite(s.lintCheck, u.lintCheck),
      Overwrite(s.qualityCheck, u.qualityCheck),
      if u.currentStage.Set? then Some(u.currentStage.value) else s.currentStage)
  }

  /** The nodes a command can send the run to. */
  datatype Target = Router | Research | Generator | Compiler | Lint | Quality | End

  datatype Command = Command(goto: Target, update: WizardUpdate)

  /** The stage names, in pipeline order. */
  const Stages: seq<string> := ["router", "research", "generator", "compiler", "lint", "quality"]

  /** The node a stage name stands for. */
  function StageNode(name: string): Target
  {
    if name == "router" then Router
    else if name == "research" then Research
    else if name == "generator" then Generator
    else if name == "compiler" then Compiler
    else if name == "lint" then Lint
    else if name == "quality" then Quality
    else End
  }

  /** `router_condition`: a state without a stage starts the pipeline at
      `research` and records that stage; every other stage moves on to the
      stage that follows it in pipeline order, `quality` and any unknown
      stage end the run, and only the first case writes anything. */
  function RouterCondition(s: WizardState): (c: Command)
    ensures c.update.currentStage.Set? <==> s.currentStage.None?
    ensures s.currentStage.None? ==> c == Command(Research, NoUpdate.(currentStage := Set("research")))
    ensures s.currentStage.Some? ==> c.update == NoUpdate
    ensures forall i :: 0 <= i < |Stages| - 1 && s.currentStage == Some(Stages[i]) ==>
      c.goto == StageNode(Stages[i + 1])
    ensures s.currentStage.Some? ==>
      (c.goto == End <==> s.currentStage.value == "quality" || s.currentStage.value !in Stages)
  {
    match s.currentStage
    case None => Command(Research, NoUpdate.(currentStage := Set("research")))
    case Some(stage) =>
      var next :=
        if stage == "router" then Research
        else if stage == "research" then Generator
        else if stage == "generator" then Compiler
        else if stage == "compiler" then Lint
        else if stage == "lint" then Quality
        else End;
      Command(next, NoUpdate)
  }

  /** `research_node`: with no message there is nothing to analyse and the
      context is emptied; otherwise the context becomes exactly the one
      result the language model returns for the latest message. */
  function ResearchNode(s: WizardState, result: ResearchResult): (u: WizardUpdate)
    ensures u.contextAsset.Set?
    ensures |u.contextAsset.value| == (if |s.messages| == 0 then 0 else 1)
    ensures |s.messages| > 0 ==> u.contextAsset.value[0] == result
    ensures u.(contextAsset := Keep) == NoUpdate
  {
    if |s.messages| == 0 then NoUpdate.(contextAsset := Set([]))
    else NoUpdate.(contextAsset := Set([result]))
  }

  /** With no message the research node does not depend on the language
      model at all. */
  lemma ResearchWithoutMessages(s: WizardState, r1: ResearchResult, r2: ResearchResult)
    requires |s.messages| == 0
    ensures ResearchNode(s, r1) == ResearchNode(s, r2)
  {
  }

  /** `generator_node`: appends the new draft and clears the three checks. */
  function GeneratorNode(s: WizardState, draftMessage: Message): WizardUpdate
  {
    NoUpdate.(draft := [draftMessage], compileCheck := Set(None), lintCheck := Set(None), qualityCheck := Set(None))
  }

  /** After the generator, the three checks are `None`, exactly one draft
      has been added, and nothing else has changed. */
  lemma GeneratorResetsChecks(s: WizardState, draftMessage: Message)
    ensures var t := Apply(s, GeneratorNode(s, draftMessage));
      && t.compileCheck.None? && t.lintCheck.None? && t.qualityCheck.None?
      && t.draft == s.draft + [draftMessage]
      && t.messages == s.messages && t.contextAsset == s.contextAsset
      && t.verifyContent == s.verifyContent && t.publishedContent == s.publishedContent
      && t.currentStage == s.currentStage
  {
  }

  /** `compiler_node`: without a draft it returns to the router with a
      failed compile check; a failing verdict sends the run back to the
      generator carrying that verdict; a passing one moves on to lint and
      queues the latest draft for verification. */
  function CompilerNode(s: WizardState, verdict: Check): (c: Command)
    ensures c.goto == Router <==> |s.draft| == 0
    ensures c.goto == Generator <==> |s.draft| > 0 && verdict.status == Fail
    ensures c.goto == Lint <==> |s.draft| > 0 && verdict.status == Pass
    ensures c.goto == Router ==> c.update == NoUpdate.(compileCheck := Set(Some(Check(Fail, []))))
    ensures c.goto == Generator ==> c.update == NoUpdate.(compileCheck := Set(Some(verdict)))
    ensures c.goto == Lint ==> c.update == NoUpdate.(verifyContent := [s.draft[|s.draft| - 1]])
  {
    if |s.draft| == 0 then Command(Router, NoUpdate.(compileCheck := Set(Some(Check(Fail, [])))))
    else if verdict.status == Fail then Command(Generator, NoUpdate.(compileCheck := Set(Some(verdict))))
    else
      assert verdict.status == Pass;
      Command(Lint, NoUpdate.(verifyContent := [s.draft[|s.draft| - 1]]))
  }

  /** The exception a node raises by indexing the last element of an empty
      list. */
  datatype NodeError = IndexError

  /** The lint failure update when there is nothing to style. */
  const LintEmpty: WizardUpdate :=
    NoUpdate.(lintCheck := Set(Some(Check(Fail, ["待风格化内容为空"]))))

  /** `lint_node` as written: it reads the latest published content as a
      style example before styling, so with nothing published yet it raises
      even though there is content to style. */
  function LintNodeAsWritten(s: WizardState, styled: Message): (r: Result<Command, NodeError>)
    ensures r.Failure? <==> |s.verifyContent| > 0 && |s.publishedContent| == 0
  {
    if |s.verifyContent| == 0 then Success(Command(Router, LintEmpty))
    else if |s.publishedContent| == 0 then Failure(IndexError)
    else Success(Command(Quality, NoUpdate.(publishedContent := [styled], lintCheck := Set(Some(Check(Pass, []))))))
  }

  /** `lint_node` with the style example made optional: with nothing to
      style it returns to the router with a failed lint check and one error;
      otherwise it moves on to quality, publishes exactly the styled text
      and records a passing lint check. */
  function LintNode(s: WizardState, styled: Message): (c: Command)
    ensures c.goto == Router <==> |s.verifyContent| == 0
    ensures c.goto == Router ==> c.update == LintEmpty
    ensures c.goto != Router ==>
      c.goto == Quality && c.update == NoUpdate.(publishedContent := [styled], lintCheck := Set(Some(Check(Pass, []))))
    ensures LintNodeAsWritten(s, styled).Success? ==> LintNodeAsWritten(s, styled).value == c
  {
    if |s.verifyContent| == 0 then Command(Router, LintEmpty)
    else Command(Quality, NoUpdate.(publishedContent := [styled], lintCheck := Set(Some(Check(Pass, [])))))
  }

  /** The error text of a failed quality check: the reported errors joined
      by newlines, or a fixed text when that join is empty, which happens for
      no errors and for a single empty one. */
  function QualityErrorText(errors: seq<string>): (r: string)
    ensures r != ""
    ensures |errors| == 0 || errors == [""] ==> r == "质量检查未通过"
    ensures !(|errors| == 0 || errors == [""]) ==> r == Join("\n", errors)
  {
    JoinEmpty("\n", errors);
    var joined := Join("\n", errors);
    if joined == "" then "质量检查未通过" else joined
  }

  /** `quality_check_node` as written: it reads the latest published content
      before its emptiness guard, so with nothing published it raises and the
      guard's own failure update is never returned. */
  function QualityCheckNodeAsWritten(s: WizardState, verdict: Check): (r: Result<Command, NodeError>)
    ensures r.Failure? <==> |s.publishedContent| == 0
    ensures r.Success? ==> r.value.goto != Router || r.value.update.qualityCheck == Set(Some(Check(Pass, [])))
  {
    var published := s.publishedContent;
    if |published| == 0 then Failure(IndexError)
    else
      var latest := published[|published| - 1];
      if verdict.status == Fail then
        Success(Command(Generator, NoUpdate.(qualityCheck := Set(Some(Check(Fail, [QualityErrorText(verdict.errorMessages)]))))))
      else
        Success(Command(Router, NoUpdate.(qualityCheck := Set(Some(Check(Pass, []))), messages := [latest])))
  }

  /** `quality_check_node` with its guard ahead of the indexing: with nothing
      published it returns to the router with a failed check; a failing
      verdict goes back to the generator with one error text; a pass returns
      to the router and adds the latest published content to the history. */
  function QualityCheckNode(s: WizardState, verdict: Check): (c: Command)
    ensures |s.publishedContent| == 0 ==>
      c == Command(Router, NoUpdate.(qualityCheck := Set(Some(Check(Fail, ["无可检查的内容"])))))
    ensures |s.publishedContent| > 0 && verdict.status == Fail ==>
      c == Command(Generator, NoUpdate.(qualityCheck := Set(Some(Check(Fail, [QualityErrorText(verdict.errorMessages)])))))
    ensures |s.publishedContent| > 0 && verdict.status == Pass ==>
      c.goto == Router && c.update.qualityCheck == Set(Some(Check(Pass, [])))
      && c.update.messages == [s.publishedContent[|s.publishedContent| - 1]]
    ensures |s.publishedContent| > 0 ==> QualityCheckNodeAsWritten(s, verdict) == Success(c)
  {
    var published := s.publishedContent;
    if |published| == 0 then
      Command(Router, NoUpdate.(qualityCheck := Set(Some(Check(Fail, ["无可检查的内容"])))))
    else
      var latest := published[|published| - 1];
      if verdict.status == Fail then
        Command(Generator, NoUpdate.(qualityCheck := Set(Some(Check(Fail, [QualityErrorText(verdict.errorMessages)])))))
      else
        Command(Router, NoUpdate.(qualityCheck := Set(Some(Check(Pass, []))), messages := [latest]))
  }

  /** One node invocation with the language model's reply to it. */
  datatype Step =
    | RouterStep
    | ResearchStep(result: ResearchResult)
    | GeneratorStep(draftMessage: Message)
    | CompilerStep(verdict: Check)
    | LintStep(styled: Message)
    | QualityStep(verdict: Check)

  /** The update one node invocation returns with the nodes as written, or
      the error it raises. */
  function StepAsWritten(s: WizardState, step: Step): Result<WizardUpdate, NodeError>
  {
    match step
    case RouterStep => Success(RouterCondition(s).update)
    case ResearchStep(result) => Success(ResearchNode(s, result))
    case GeneratorStep(m) => Success(GeneratorNode(s, m))
    case CompilerStep(v) => Success(CompilerNode(s, v).update)
    case LintStep(m) =>
      var r := LintNodeAsWritten(s, m);
      if r.Success? then Success(r.value.update) else Failure(r.error)
    case QualityStep(v) =>
      var r := QualityCheckNodeAsWritten(s, v);
      if r.Success? then Success(r.value.update) else Failure(r.error)
  }

  /** With nothing published, no node as written publishes anything: lint is
      the only node that publishes, and it raises before it can. */
  lemma NoFirstPublication(s: WizardState, step: Step)
    requires s.publishedContent == []
    ensures StepAsWritten(s, step).Success? ==> StepAsWritten(s, step).value.publishedContent == []
  {
  }

  /** Runs any sequence of node invocations with the nodes as written,
      applying each update; a node that raises ends the run with its error.
      Every path the graph can take is such a sequence. */
  function RunAsWritten(s: WizardState, steps: seq<Step>): Result<WizardState, NodeError>
    decreases |steps|
  {
    if |steps| == 0 then Success(s)
    else
      var r := StepAsWritten(s, steps[0]);
      if r.Failure? then Failure(r.error)
      else RunAsWritten(Apply(s, r.value), steps[1..])
  }

  /** With the nodes as written, a run that starts with nothing published
      never publishes anything, so the quality stage can never see any
      content. */
  lemma {:induction false} NothingIsEverPublished(s: WizardState, steps: seq<Step>)
    requires s.publishedContent == []
    ensures RunAsWritten(s, steps).Success? ==> RunAsWritten(s, steps).value.publishedContent == []
    decreases |steps|
  {
    if |steps| > 0 {
      var r := StepAsWritten(s, steps[0]);
      if r.Success? {
        NoFirstPublication(s, steps[0]);
        NothingIsEverPublished(Apply(s, r.value), steps[1..]);
      }
    }
  }

  /** The only stage any node writes is `research`. */
  lemma StageWrites(s: WizardState, step: Step)
    ensures StepAsWritten(s, step).Success? ==>
      var w := StepAsWritten(s, step).value.currentStage;
      w == Keep || w == Set("research")
  {
  }

  /** `current_stage` is never anything but unset or `research`, so after
      its first call the router always sends the run to the generator: the
      stages that lead to compiler, lint, quality or the end are never
      recorded, and the router never ends the run. */
  lemma {:induction false} StageStaysResearch(s: WizardState, steps: seq<Step>)
    requires s.currentStage == None || s.currentStage == Some("research")
    ensures RunAsWritten(s, steps).Success? ==>
      var t := RunAsWritten(s, steps).value;
      && (t.currentStage == None || t.currentStage == Some("research"))
      && (RouterCondition(t).goto == Research || RouterCondition(t).goto == Generator)
    decreases |steps|
  {
    if |steps| > 0 {
      var r := StepAsWritten(s, steps[0]);
      if r.Success? {
        StageWrites(s, steps[0]);
        StageStaysResearch(Apply(s, r.value), steps[1..]);
      }
    }
  }

  /** The first pass through the pipeline as written: router, research,
      generator and a passing compiler check lead to lint, which raises
      instead of publishing; with the optional style example, lint moves on
      to quality. */
  lemma FirstLintPass(request: string, research: ResearchResult, draftMessage: Message,
                      verdict: Check, styled: Message)
    requires verdict.status == Pass
    ensures var s0 := WizardState([HumanMessage(request)], [], [], [], [], None, None, None, None);
      var s1 := Apply(s0, RouterCondition(s0).update);
      var s2 := Apply(s1, ResearchNode(s1, research));
      var s3 := Apply(s2, GeneratorNode(s2, draftMessage));
      var c := CompilerNode(s3, verdict);
      var s4 := Apply(s3, c.update);
      && RouterCondition(s0).goto == Research
      && c.goto == Lint
      && LintNodeAsWritten(s4, styled) == Failure(IndexError)
      && LintNode(s4, styled).goto == Quality
  {
  }

  /** With both nodes corrected, the first pass publishes the styled draft
      and a passing quality check hands it to the history. */
  lemma FirstPassPublishes(request: string, research: ResearchResult, draftMessage: Message,
                           styled: Message, quality: Check)
    requires quality.status == Pass
    ensures var s0 := WizardState([HumanMessage(request)], [], [], [], [], None, None, None, None);
      var s1 := Apply(s0, RouterCondition(s0).update);
      var s2 := Apply(s1, ResearchNode(s1, research));
      var s3 := Apply(s2, GeneratorNode(s2, draftMessage));
      var s4 := Apply(s3, CompilerNode(s3, Check(Pass, [])).update);
      var s5 := Apply(s4, LintNode(s4, styled).update);
      var c := QualityCheckNode(s5, quality);
      && s5.publishedContent == [styled]
      && c.goto == Router
      && Apply(s5, c.update).messages == [HumanMessage(request), styled]
  {
  }
}
