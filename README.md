# Intent-alignment agent graphs and filesystem request validator, in Dafny

This project models the deterministic core of a small LangGraph-based
assistant. It covers five parts:

- **The filesystem tool's request validator**: which fields each of the
  eight operation tags requires, and the error raised when one is missing
  (`filesystem.dfy`).
- **The questionnaire alignment graph** (`enhance_prompt.dfy`):
  - the questionnaire data and its renderings;
  - the two custom reducers (`Exam.merge`, `add_answers`);
  - the answer-collection loop between `human_answers_loop` and
    `human_answer`;
  - `compare_answers` and the entry `router_node`.
- **The quest/choice alignment graph** (`subagents.dfy`). Its quest list,
  its QA list and each QA item are objects the nodes change in place, so
  they are Dafny classes.
- **The novel-writing pipeline** (`wizard_v1.dfy`): the stage router and
  the routing and update logic of the research, generator, compiler, lint
  and quality nodes.
- **The human-in-the-loop demonstration** (`humaninloop.dfy`): the risky
  operation, the agent's suggestion, the human decision and the priority
  router.

The pipeline's router never ends a run. Only `research` is ever written to
`current_stage` (`wizard_v1.py:89`), so the stage stays unset or `research`
(`WizardV1.StageStaysResearch`). The router therefore only ever sends the
run to research or the generator. In particular, after a passing quality
check the run goes router → generator again instead of to the end state.
Compiler, lint and quality are reached only through the nodes' own `goto`
targets and the graph's static edges.

Two shared modules support the five parts:

- `common.dfy` holds `Option`, `Result` and the three chat message kinds.
- `text.dfy` holds the Python string operations the nodes rely on
  (`join`, `strip`, `in`, `replace`), plus a line splitter used to read
  rendered text back.

How the runtime is represented:

- Every language-model call and every human reply (`interrupt`) is a
  parameter of the node that makes it.
- A graph node is a function from a state snapshot and that reply to the
  update or routing command it returns.
- `Apply` merges an update with the reducers the state declares.
- Where the source mutates objects (subagents, `Exam.merge`), the node is a
  method over classes, with `modifies` clauses.

What the code does not do, and the model leaves out:

- The code has no pop-last re-verification of reconstructed answers.
- It does not guard against a resume appending the same answer twice.
- Its comparison verdict is a plain boolean.
- The `search` operation is not required to come without a path: the
  validator never rejects extra fields.

## Model

| member | source | states |
|---|---|---|
| FileSystem.ValidateRequiredFields | src/agent/tools/filesystem.py:70-98 | A request is accepted exactly when it meets its tag's requirements, and is then returned unchanged. Every rejection names a requirement the request really breaks, and no broken requirement comes earlier in the order path, read bounds, append flag, query, glob pattern, content, replace pattern. A missing or empty path is reported before anything else. |
| FileSystem.UnitTestRejections | tests/unit_tests/test_filesystem.py:13-46 | Each request the unit test expects to raise is rejected. |
| FileSystem.UnitTestAcceptances | tests/unit_tests/test_filesystem.py:48-77 | Each request the unit test builds is accepted. |
| FileSystem.EmptyValuesAccepted | src/agent/tools/filesystem.py:77-96 | Offsets of 0 are accepted. Empty content and an empty replace pattern are accepted: those fields are only checked against `None`. |
| EnhancePrompt.QuestionLines | src/agent/role_graph/enhance_prompt.py:190-193 | A rendered question reads back as the question text followed by each stripped option on its own line. |
| EnhancePrompt.AnswerListLines | src/agent/role_graph/enhance_prompt.py:201-203 | A rendered answer list reads back as the stripped answers, one per line. |
| EnhancePrompt.ExamTextMerge | src/agent/role_graph/enhance_prompt.py:211-219 | A merged exam renders as the left exam's text, a newline, then the right exam's text. |
| EnhancePrompt.Exam.Merge | src/agent/role_graph/enhance_prompt.py:211-215 | The right exam's questions are appended in order to the left exam's list. The left exam itself is returned, and a distinct right exam is untouched. |
| EnhancePrompt.AddAnswers | src/agent/role_graph/enhance_prompt.py:229-231 | The lengths add up, the existing answers keep their positions, and the new ones follow them in order. |
| EnhancePrompt.ApplyMessagesOnly | src/agent/role_graph/enhance_prompt.py:234-247 | Under the state's reducers, an update carrying only messages appends them and changes no other key. |
| EnhancePrompt.HumanAnswersLoop | src/agent/role_graph/enhance_prompt.py:280-286 | The run goes back to `human_answer` exactly while some question has no answer, and otherwise on to `update_user_goal`. Nothing is written. |
| EnhancePrompt.HumanAnswerRound | src/agent/role_graph/enhance_prompt.py:269-277 | One round appends exactly the reply as the next answer, and appends the rendered question and then the reply to the history. Nothing else changes. The question shown to the human when the run suspends is the one the history records. |
| EnhancePrompt.CollectAnswersSpec | src/agent/role_graph/enhance_prompt.py:269-286 | The collection loop runs one round per unanswered question and records the next replies, in order, after the existing answers. |
| EnhancePrompt.CollectAnswersExit | src/agent/role_graph/enhance_prompt.py:280-286 | The collection loop ends routing on to `update_user_goal`, and leaves the exam, the goal, the re-answers and the plan unchanged. |
| EnhancePrompt.CollectAnswersHistory | src/agent/role_graph/enhance_prompt.py:269-286 | The loop's history is each question it asks followed by the reply to it, in question order. |
| EnhancePrompt.AnswersMatchQuestions | src/agent/role_graph/enhance_prompt.py:269-277 | The loop adds one answer per unanswered question, and reply `j` becomes the answer to the `j`-th question that had no answer. |
| EnhancePrompt.HistoryMatchesQuestions | src/agent/role_graph/enhance_prompt.py:269-277 | The loop adds two history entries per unanswered question: the `j`-th question that had no answer, immediately followed by reply `j`. |
| EnhancePrompt.ThirdAnswerCompletesExam | src/agent/role_graph/enhance_prompt.py:280-286 | With two of three questions answered, one more reply completes the answers, and the loop routes on. |
| EnhancePrompt.BuildDiffInfo | src/agent/role_graph/enhance_prompt.py:314-320 | One comparison line per index, up to the shortest of the three lists. Line `i` shows question `i`, its re-answer and the human's answer. |
| EnhancePrompt.CompareAnswers | src/agent/role_graph/enhance_prompt.py:311-335 | Builds the comparison lines. The run ends exactly when the verdict is "same"; otherwise it routes to `update_user_goal` with exactly one `差异:` message. The target is always a real node or the terminal node. |
| EnhancePrompt.CompareAnswersGotoAsWritten | src/agent/role_graph/enhance_prompt.py:330-331 | On a "same" verdict, the target named in the code is neither the terminal node nor any registered node. |
| EnhancePrompt.RouterNode | src/agent/role_graph/enhance_prompt.py:349-355 | The run goes to `analyze_user_goal` exactly when no goal was ever written. Any goal, the empty string included, goes to `test_user_goal`. |
| SubAgents.QuestAndAnswerLines | src/agent/role_graph/subagents.py:121-123 | A rendered QA item reads back as six labelled lines: quest, three choices, agent answer, user answer. |
| SubAgents.ItemTexts | src/agent/role_graph/subagents.py:133 | One rendered part per QA item, and part `i` is item `i` rendered. |
| SubAgents.QAListLines | src/agent/role_graph/subagents.py:131-133 | A rendered QA list reads back as six labelled lines per item, with the items in list order. |
| SubAgents.ExtractGoal | src/agent/role_graph/subagents.py:163-171 | The goal is the model's text, and the QA list and quest list are new, empty objects. |
| SubAgents.GenerateQA | src/agent/role_graph/subagents.py:175-193 | The generated quests are appended in order to the same quest list, which is returned. |
| SubAgents.GenerateChoice | src/agent/role_graph/subagents.py:196-227 | Exactly one new item is appended, for the quest whose index is the item count, with the model's choices and guess and an empty user answer. Existing items are kept and stay distinct. |
| SubAgents.UserAnswerConfirm | src/agent/role_graph/subagents.py:230-235 | Only the last item's user answer changes, to the reply. The list and all earlier answers are unchanged. The prompt shows the last item as it was. |
| SubAgents.RouterConfirm | src/agent/role_graph/subagents.py:238-242 | The run ends exactly when there is one item per quest. |
| SubAgents.RunConfirmLoop | src/agent/role_graph/subagents.py:238-257 | The confirmation cycle terminates with one item per quest. Item `i` is about quest `i` and holds that round's choices, guess and reply. Earlier items keep their answers. |
| SubAgents.Run | src/agent/role_graph/subagents.py:246-257 | A whole run ends with exactly one confirmed item per generated quest, in generation order. |
| WizardV1.RouterCondition | src/agent/role_graph/wizard_v1.py:86-103 | A missing stage starts at `research` and records it. Each known stage moves to the next stage in pipeline order. `quality` and unknown stages end the run. Only the missing-stage case writes anything. |
| WizardV1.ResearchNode | src/agent/role_graph/wizard_v1.py:106-129 | With no message the context becomes empty; otherwise it becomes exactly the model's one result. No other key is written. |
| WizardV1.ResearchWithoutMessages | src/agent/role_graph/wizard_v1.py:108-110 | With no message, the result does not depend on the language model. |
| WizardV1.GeneratorResetsChecks | src/agent/role_graph/wizard_v1.py:132-160 | All three checks become `None`, exactly one draft is appended, and nothing else changes. |
| WizardV1.CompilerNode | src/agent/role_graph/wizard_v1.py:163-200 | No draft: to the router with a failed compile check. Failing verdict: to the generator carrying it. Otherwise to lint, queueing the latest draft. |
| WizardV1.LintNodeAsWritten | src/agent/role_graph/wizard_v1.py:203-251 | The node raises exactly when there is content to style but nothing has been published yet. |
| WizardV1.LintNode | src/agent/role_graph/wizard_v1.py:203-251 | Nothing to style: to the router with a failed lint check and one error. Otherwise to quality, publishing exactly the styled text with a passing check. Agrees with the code wherever the code does not raise. |
| WizardV1.QualityErrorText | src/agent/role_graph/wizard_v1.py:297-298 | The error text is never empty. It is the fixed fallback exactly when the join of the errors is empty, and the newline join otherwise. |
| WizardV1.QualityCheckNodeAsWritten | src/agent/role_graph/wizard_v1.py:254-315 | The node raises exactly when nothing is published, so its own emptiness guard is never reached. |
| WizardV1.QualityCheckNode | src/agent/role_graph/wizard_v1.py:254-315 | Nothing published: to the router with a failed check. Failing verdict: to the generator with one error text. Pass: to the router, adding the latest published content to the history. Agrees with the code when something is published. |
| WizardV1.NoFirstPublication | src/agent/role_graph/wizard_v1.py:203-251 | With nothing published, no node as written publishes anything. |
| WizardV1.NothingIsEverPublished | src/agent/role_graph/wizard_v1.py:318-331 | Along any sequence of node calls as written, a run that starts with nothing published never publishes anything. |
| WizardV1.StageWrites | src/agent/role_graph/wizard_v1.py:88-89 | The only stage any node records is `research`. |
| WizardV1.StageStaysResearch | src/agent/role_graph/wizard_v1.py:86-103 | The stage is only ever unset or `research`. The router therefore only ever sends the run to research or the generator, and never ends it. |
| WizardV1.FirstLintPass | src/agent/role_graph/wizard_v1.py:318-331 | The first pass, through router, research, generator and a passing compiler, reaches lint, which raises as written and moves on to quality when corrected. |
| WizardV1.FirstPassPublishes | src/agent/role_graph/wizard_v1.py:318-331 | With the corrected nodes, the first pass publishes the styled draft, and a passing quality check adds it to the history. |
| HumanInLoop.RiskyOperationNode | src/agent/role_graph/humaninlooptest.py:16-36 | The error path is taken exactly when the task contains `delete_all`. It suspends with task, error and summary, and on resume records the exception text. Any other task yields exactly one success message. |
| HumanInLoop.SuccessNamesTask | src/agent/role_graph/humaninlooptest.py:22-24 | The success message names the task. |
| HumanInLoop.Router | src/agent/role_graph/humaninlooptest.py:68-73 | A truthy exception goes to the suggestion; otherwise a truthy decision goes to the decision; otherwise the run ends. |
| HumanInLoop.ResumedDangerGoesToSuggestion | src/agent/role_graph/humaninlooptest.py:25-36 | After a dangerous task is resumed, the router goes to the suggestion whatever decision is already held. |
| HumanInLoop.AgentSuggestionNode | src/agent/role_graph/humaninlooptest.py:39-53 | Records the suggestion and returns it as exactly one message. The text shows the exception and the quoted `modify_safe` task. |
| HumanInLoop.SafeTaskShape | src/agent/role_graph/humaninlooptest.py:46 | A task without `delete_all` is proposed unchanged; a task with it shows `delete_safe`. |
| HumanInLoop.SafeTaskIsSafe | src/agent/role_graph/humaninlooptest.py:46 | The proposed `modify_safe` task never contains `delete_all`. |
| HumanInLoop.ModifySafeSucceeds | src/agent/role_graph/humaninlooptest.py:16-46 | Running the risky operation on the proposed `modify_safe` task always succeeds with one success message. |
| HumanInLoop.HumanDecisionNode | src/agent/role_graph/humaninlooptest.py:56-64 | A `None` decision raises. A decision containing `custom` suspends again and returns whatever the run is resumed with. Any other decision yields exactly one `执行用户决策:` message. |
| HumanInLoop.DecisionNamed | src/agent/role_graph/humaninlooptest.py:64 | The decision message names the decision. |

## Left out

- Language-model calls, prompt construction and the prompt texts are parameters or are not modelled. This covers `create_custom_agent`, `ChatPromptTemplate`, `goal_prompt`, `exam_prompt`, `meta_prompt`, `qa_prompt` and the system prompt template. Only these strings are modelled: the ones a node returns, routes on or shows at an interrupt, and the comparison lines `compare_answers` sends to the model.
- Four enhance_prompt nodes only forward a language-model reply into one key: `analyze_user_goal`, `generate_exam`, `test_user_goal` and `update_user_goal`. `generate_plan_prompt` writes the reply's text to `plan_prompt` and appends the reply itself to `messages`. None of the five is a separate member; their effect is an `Update` passed to `Apply`.
- `interrupt` suspension and resume, checkpointing, and the `StateGraph` wiring are runtime machinery and are not modelled. That wiring includes graphs that register both a `Command` target and a static edge from the same node, as wizard_v1 and compare_answers do. The routing functions and the edge sequences are modelled instead, and the human's reply is an input.
- The `add_messages` reducer is modelled as plain appending. It replaces a message when an incoming message has the same ID as one already in the list, and that is left out. Some nodes do re-append messages that already carry IDs: `compiler_node` queues `draft[-1]`, and `quality_check_node` appends `published_content[-1]` to `messages`. But no list receives the same message object twice, so replacement never fires.
- HumanInLoop: no state merge is modelled. The state's `messages` key carries the string `"add"` as annotation, which is not a reducer function, so how the runtime merges that key is library behaviour outside this model.
- HumanInLoop.State: `current_task` is taken to be a string, as its type hint says. A `None` task, which would make the `in` test raise `TypeError` inside the `try` and take the error path with a different exception text, is not modelled. A missing key and a key holding `None` are the same value, so the `KeyError` a missing `user_decision` would raise is not distinguished from the `None` case.
- WizardV1.CompilerNode: the failed compile check written for an empty draft has no `error_messages` key in the source. It is modelled with an empty error list.
- WizardV1: the `KeyError` raised when `context_asset` is read before research has run is not modelled. The context is an empty list until written.
- WizardV1.Check: lint and quality checks hold their error messages as chat messages in the source. They are modelled by their text.
- `QAList.to_prompt` is not part of the core nodes and is not modelled.
- `src/agent/agent.py`, `src/agent/role_graph/wizard.py`, `src/agent/role_graph/jokepoemstory.py`, `src/agent/fake_llm.py` and the tool wrappers are not part of this model. The same goes for the filesystem I/O functions (`read_file`, `write_file`, …): they do disk I/O.
- Text.IsSpace follows Python's whitespace set for `str.strip`. Text.Split splits at a single character only, which is all the rendering lemmas need.

## Findings

| source | as written | input that shows it | evidently intended | confidence | as-written member | corrected member |
|---|---|---|---|---|---|---|
| src/agent/role_graph/wizard_v1.py:258-260 | `quality_check_node` reads `published_content[-1]` before testing whether the list is empty. An empty list raises `IndexError`, so the guard's failure update is unreachable. | a state with `published_content == []` | With nothing published, return to the router with a failed quality check ("无可检查的内容"). | high; not executed | WizardV1.QualityCheckNodeAsWritten | WizardV1.QualityCheckNode |
| src/agent/role_graph/wizard_v1.py:220 | `lint_node` reads `published_content[-1]` as a style example. Only `lint_node` itself publishes, so on the first pass the list is empty and the node raises. No run from an empty state ever publishes (WizardV1.NothingIsEverPublished). | the first pass: router, research, generator, compiler with a passing verdict, then lint | Use the latest published content as an example only when there is one, and style the draft either way. | high; not executed | WizardV1.LintNodeAsWritten | WizardV1.LintNode |
| src/agent/role_graph/enhance_prompt.py:331 | `compare_answers` routes to the string `"END"` on a "same" verdict. The runtime's terminal node is named `"__end__"`, and no node is called `"END"`. | a `Diff` verdict with `is_same == True` | Route to the terminal node `END`, ending the run. | medium; not executed | EnhancePrompt.CompareAnswersGotoAsWritten | EnhancePrompt.CompareAnswers |
