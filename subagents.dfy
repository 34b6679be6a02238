/** The quest/choice alignment graph (src/agent/role_graph/subagents.py):
    a goal is extracted, a list of quests is generated, and then, one quest
    at a time, the language model proposes three choices and a guessed
    answer and the human confirms the answer. The quest list, the QA list and
    each QA item are objects the nodes change in place, so they are classes
    here; the language model's and the human's replies are parameters. */
module SubAgents {
  import opened Text

  /** The language model's three proposed choices for one quest. */
  datatype ChoiceList = ChoiceList(choice1: string, choice2: string, choice3: string)

  /** The growing list of quests. */
  class QuestList {
    var quests: seq<string>

    constructor ()
      ensures quests == []
    {
      quests := [];
    }
  }

  /** One quest with its choices, the guessed answer and the human's answer,
      which is the one field a node assigns after creation. */
  class QuestAndAnswer {
    const quest: string
    const choice1: string
    const choice2: string
    const choice3: string
    const agentAnswer: string
    var userAnswer: string

    constructor (quest: string, choices: ChoiceList, agentAnswer: string, userAnswer: string)
      ensures this.quest == quest && this.agentAnswer == agentAnswer && this.userAnswer == userAnswer
      ensures choice1 == choices.choice1 && choice2 == choices.choice2 && choice3 == choices.choice3
    {
      this.quest := quest;
      this.choice1 := choices.choice1;
      this.choice2 := choices.choice2;
      this.choice3 := choices.choice3;
      this.agentAnswer := agentAnswer;
      this.userAnswer := userAnswer;
    }

    /** `QuestAndAnswer.__str__`: the six labelled fields separated by
        newlines. */
    function ToString(): string
      reads this
    {
      Join("\n", Lines())
    }

    /** The six labelled fields, in the order they are rendered. */
    function Lines(): seq<string>
      reads this
    {
      ["Quest: " + quest, "Choice 1: " + choice1, "Choice 2: " + choice2,
       "Choice 3: " + choice3, "Agent Answer: " + agentAnswer, "User Answer: " + userAnswer]
    }

    predicate SingleLineFields()
      reads this
    {
      && '\n' !in quest && '\n' !in choice1 && '\n' !in choice2
      && '\n' !in choice3 && '\n' !in agentAnswer && '\n' !in userAnswer
    }
  }

  /** `QuestAndAnswer.__str__` read back line by line: quest, the three
      choices, the guessed answer and the human's answer, in that order, one
      labelled field per line. */
  lemma QuestAndAnswerLines(qa: QuestAndAnswer)
    requires qa.SingleLineFields()
    ensures Split(qa.ToString(), '\n') == qa.Lines()
  {
    var l := qa.Lines();
    assert forall k :: 0 <= k < 6 ==> '\n' !in l[k];
    SplitJoin(l, '\n');
  }

  /** The rendering of every item, in order. */
  function ItemTexts(items: seq<QuestAndAnswer>): (r: seq<string>)
    reads items
    ensures |r| == |items|
    ensures forall i :: 0 <= i < |items| ==> r[i] == items[i].ToString()
  {
    if |items| == 0 then [] else [items[0].ToString()] + ItemTexts(items[1..])
  }

  /** The labelled lines of every item, item after item. */
  function AllLines(items: seq<QuestAndAnswer>): seq<string>
    reads items
  {
    if |items| == 0 then [] else items[0].Lines() + AllLines(items[1..])
  }

  /** The list of confirmed and pending QA items. */
  class QAList {
    var items: seq<QuestAndAnswer>

    constructor ()
      ensures items == []
    {
      items := [];
    }

    /** No item object appears twice, so changing one item changes no other. */
    ghost predicate Valid()
      reads this
    {
      forall i, j :: 0 <= i < j < |items| ==> items[i] != items[j]
    }

    /** `QAList.__str__`: the rendered items joined by newlines. */
    function ToString(): string
      reads this, items
    {
      Join("\n", ItemTexts(items))
    }
  }

  /** `QAList.__str__` read back line by line: six labelled lines per item,
      the items in list order. */
  lemma {:induction false} QAListLines(items: seq<QuestAndAnswer>)
    requires |items| > 0
    requires forall i :: 0 <= i < |items| ==> items[i].SingleLineFields()
    ensures Split(Join("\n", ItemTexts(items)), '\n') == AllLines(items)
  {
    QuestAndAnswerLines(items[0]);
    if |items| == 1 {
      assert AllLines(items[1..]) == [];
    } else {
      QAListLines(items[1..]);
      SplitConcat(items[0].ToString(), '\n', Join("\n", ItemTexts(items[1..])));
    }
  }

  /** `extract_goal`: the goal becomes the language model's text, and the
      QA list and the quest list are replaced by new, empty ones. */
  method ExtractGoal(extracted: string) returns (goal: string, qaList: QAList, questList: QuestList)
    ensures goal == extracted
    ensures fresh(qaList) && fresh(questList)
    ensures qaList.items == [] && questList.quests == []
  {
    goal := extracted;
    qaList := new QAList();
    questList := new QuestList();
  }

  /** `generate_qa`: the generated quests are appended, in order, after the
      existing ones, and the same quest list object is returned. */
  method GenerateQA(questList: QuestList, generated: seq<string>) returns (r: QuestList)
    modifies questList
    ensures r == questList
    ensures questList.quests == old(questList.quests) + generated
  {
    questList.quests := questList.quests + generated;
    r := questList;
  }

  /** `generate_choice`: takes the quest whose index is the number of QA
      items so far and appends exactly one new item for it, holding the
      language model's choices and guess and an empty human answer. The
      existing items are left as they were. */
  method GenerateChoice(questList: QuestList, qaList: QAList, choices: ChoiceList, agentAnswer: string)
    returns (r: QAList)
    requires qaList.Valid()
    requires |qaList.items| < |questList.quests|
    modifies qaList
    ensures r == qaList && qaList.Valid()
    ensures |qaList.items| == |old(qaList.items)| + 1
    ensures qaList.items[..|old(qaList.items)|] == old(qaList.items)
    ensures fresh(qaList.items[|old(qaList.items)|])
    ensures var qa := qaList.items[|old(qaList.items)|];
      && qa.quest == questList.quests[|old(qaList.items)|]
      && qa.choice1 == choices.choice1 && qa.choice2 == choices.choice2 && qa.choice3 == choices.choice3
      && qa.agentAnswer == agentAnswer && qa.userAnswer == ""
  {
    var index := |qaList.items|;
    var latestQuest := questList.quests[index];
    var qa := new QuestAndAnswer(latestQuest, choices, agentAnswer, "");
    qaList.items := qaList.items + [qa];
    r := qaList;
  }

  /** `user_anwser_confirm`: shows the latest item (the returned prompt) and
      sets that item's human answer to the reply. The list and every earlier
      item are left as they were. */
  method UserAnswerConfirm(qaList: QAList, answer: string) returns (r: QAList, prompt: string)
    requires qaList.Valid() && |qaList.items| > 0
    modifies qaList.items[|qaList.items| - 1]
    ensures r == qaList && qaList.items == old(qaList.items) && qaList.Valid()
    ensures qaList.items[|qaList.items| - 1].userAnswer == answer
    ensures forall i :: 0 <= i < |qaList.items| - 1 ==>
      qaList.items[i].userAnswer == old(qaList.items[i].userAnswer)
    ensures prompt == "从中选择一个最符合的答案或者提供新答案\n" + old(qaList.items[|qaList.items| - 1].ToString())
  {
    var latest := qaList.items[|qaList.items| - 1];
    prompt := "从中选择一个最符合的答案或者提供新答案\n" + latest.ToString();
    latest.userAnswer := answer;
    r := qaList;
  }

  /** Where `router_confirm` sends the run. */
  datatype Target = ToGenerateChoice | ToEnd

  /** `router_confirm`: the run ends exactly when there is one QA item per
      quest, and asks for the next choice otherwise. */
  function RouterConfirm(qaList: QAList, questList: QuestList): (t: Target)
    reads qaList, questList
    ensures t == ToEnd <==> |qaList.items| == |questList.quests|
  {
    if |qaList.items| == |questList.quests| then ToEnd else ToGenerateChoice
  }

  /** The cycle `router_confirm` -> `generate_choice` -> `user_anwser_confirm`
      as the graph's edges run it. While there are fewer items than quests
      each round adds exactly one, so the gap is a termination measure and
      the run ends with one item per quest: item `i` is about quest `i` and
      holds the round's choices, guess and human answer, and the items that
      were there before keep their answers. */
  method RunConfirmLoop(questList: QuestList, qaList: QAList,
                        choices: seq<ChoiceList>, agentAnswers: seq<string>, userAnswers: seq<string>)
    requires qaList.Valid()
    requires |qaList.items| <= |questList.quests|
    requires |choices| == |agentAnswers| == |userAnswers| == |questList.quests| - |qaList.items|
    modifies qaList
    ensures qaList.Valid() && RouterConfirm(qaList, questList) == ToEnd
    ensures |qaList.items| == |questList.quests|
    ensures qaList.items[..|old(qaList.items)|] == old(qaList.items)
    ensures forall i :: 0 <= i < |old(qaList.items)| ==>
      qaList.items[i].userAnswer == old(qaList.items[i].userAnswer)
    ensures forall i :: |old(qaList.items)| <= i < |qaList.items| ==>
      var k := i - |old(qaList.items)|;
      && qaList.items[i].quest == questList.quests[i]
      && qaList.items[i].choice1 == choices[k].choice1
      && qaList.items[i].choice2 == choices[k].choice2
      && qaList.items[i].choice3 == choices[k].choice3
      && qaList.items[i].agentAnswer == agentAnswers[k]
      && qaList.items[i].userAnswer == userAnswers[k]
  {
    var n0 := |qaList.items|;
    var k := 0;
    while RouterConfirm(qaList, questList) == ToGenerateChoice
      invariant qaList.Valid()
      invariant |qaList.items| == n0 + k <= |questList.quests|
      invariant qaList.items[..n0] == old(qaList.items)
      invariant forall i :: 0 <= i < n0 ==> qaList.items[i].userAnswer == old(qaList.items[i].userAnswer)
      invariant forall i :: n0 <= i < |qaList.items| ==> fresh(qaList.items[i])
      invariant forall i :: n0 <= i < |qaList.items| ==>
        && qaList.items[i].quest == questList.quests[i]
        && qaList.items[i].choice1 == choices[i - n0].choice1
        && qaList.items[i].choice2 == choices[i - n0].choice2
        && qaList.items[i].choice3 == choices[i - n0].choice3
        && qaList.items[i].agentAnswer == agentAnswers[i - n0]
        && qaList.items[i].userAnswer == userAnswers[i - n0]
      decreases |questList.quests| - |qaList.items|
    {
      var _ := GenerateChoice(questList, qaList, choices[k], agentAnswers[k]);
      var _, _ := UserAnswerConfirm(qaList, userAnswers[k]);
      k := k + 1;
    }
  }

  /** The whole graph: `extract_goal`, then `generate_qa`, then the
      confirmation cycle. It ends with exactly one confirmed item per
      generated quest, in the order the quests were generated. */
  method Run(extracted: string, generated: seq<string>,
             choices: seq<ChoiceList>, agentAnswers: seq<string>, userAnswers: seq<string>)
    returns (goal: string, questList: QuestList, qaList: QAList)
    requires |choices| == |agentAnswers| == |userAnswers| == |generated|
    ensures goal == extracted && questList.quests == generated
    ensures |qaList.items| == |generated|
    ensures forall i :: 0 <= i < |generated| ==>
      qaList.items[i].quest == generated[i] && qaList.items[i].userAnswer == userAnswers[i]
  {
    goal, qaList, questList := ExtractGoal(extracted);
    var _ := GenerateQA(questList, generated);
    RunConfirmLoop(questList, qaList, choices, agentAnswers, userAnswers);
  }
}
