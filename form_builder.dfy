/**
 * The form builder of the trainer assessment form creator: collecting the
 * questions from the questionnaire widgets, composing the form title, and
 * serialising the questions into the ordered list of `createItem` requests.
 */
module FormBuilder {
  import opened Wrappers
  import opened FormsApi

  /** Bounds of the "Number of Questions" input. */
  const MinQuestions := 1
  const MaxQuestions := 50

  type QuestionCount = n: int | MinQuestions <= n <= MaxQuestions witness 1

  /** Which of the four option fields the "Correct Answer" selector holds. */
  type OptionSlot = i: int | 0 <= i < 4

  /** What the widgets keyed `q{i}`, `q{i}opt1`..`q{i}opt4` and `q{i}ans` hold. */
  datatype QuestionWidgets = QuestionWidgets(
    prompt: string,
    opt1: string, opt2: string, opt3: string, opt4: string,
    selected: OptionSlot)

  /** One entered question: its prompt, its four options and its correct answer. */
  datatype Question = Question(prompt: string, options: seq<string>, answer: string)

  /** A question as collected: four options, the answer one of them. */
  predicate WellFormed(q: Question)
  {
    |q.options| == 4 && q.answer in q.options
  }

  /**
   * The questionnaire loop: one question per index below `count`, read from
   * that index's widgets, the answer being the option value currently selected.
   */
  method CollectQuestions(count: QuestionCount, widgets: nat -> QuestionWidgets)
    returns (questions: seq<Question>)
    ensures |questions| == count
    ensures forall k :: 0 <= k < count ==>
      questions[k].prompt == widgets(k).prompt &&
      questions[k].options == [widgets(k).opt1, widgets(k).opt2, widgets(k).opt3, widgets(k).opt4] &&
      questions[k].answer == questions[k].options[widgets(k).selected]
    ensures forall k :: 0 <= k < count ==> WellFormed(questions[k])
  {
    questions := [];
    for i := 0 to count
      invariant |questions| == i
      invariant forall k :: 0 <= k < i ==>
        questions[k].prompt == widgets(k).prompt &&
        questions[k].options == [widgets(k).opt1, widgets(k).opt2, widgets(k).opt3, widgets(k).opt4] &&
        questions[k].answer == questions[k].options[widgets(k).selected]
    {
      var w := widgets(i);
      var options := [w.opt1, w.opt2, w.opt3, w.opt4];
      var ans := options[w.selected];
      questions := questions + [Question(w.prompt, options, ans)];
    }
  }

  const TitleSeparator := " - "

  /** The form title: the test title, the separator, then the college name. */
  function FormTitle(testTitle: string, collegeName: string): (r: string)
    ensures |r| == |testTitle| + |TitleSeparator| + |collegeName|
    ensures r[..|testTitle|] == testTitle
    ensures r[|testTitle|..|testTitle| + |TitleSeparator|] == TitleSeparator
    ensures r[|testTitle| + |TitleSeparator|..] == collegeName
  {
    testTitle + TitleSeparator + collegeName
  }

  /** Two titles with test titles of the same length agree only if both parts agree. */
  lemma FormTitleInjective(t1: string, c1: string, t2: string, c2: string)
    requires |t1| == |t2|
    requires FormTitle(t1, c1) == FormTitle(t2, c2)
    ensures t1 == t2 && c1 == c2
  {
  }

  /** The body of `forms().create`: title and document title are both the form title. */
  function NewForm(testTitle: string, collegeName: string): (r: FormInfo)
    ensures r.title == FormTitle(testTitle, collegeName)
    ensures r.documentTitle == r.title
  {
    var title := FormTitle(testTitle, collegeName);
    FormInfo(title, title)
  }

  /** The two free-text items every form starts with. */
  const StudentNameItem := Item(
    "Student Full Name", Some("Enter your full name as per Aadhar."),
    FormQuestion(true, TextQuestion))
  const BatchItem := Item(
    "Batch & Specialization", None,
    FormQuestion(true, TextQuestion))
  const LeadInItems := [StudentNameItem, BatchItem]

  /** The required radio item for one question; the answer is not part of it. */
  function QuestionItem(q: Question): (r: Item)
    ensures r.title == q.prompt && r.description == None
    ensures r.question.required
    ensures r.question.kind.ChoiceQuestion?
    ensures r.question.kind.choiceType == Radio && !r.question.kind.shuffle
    ensures Values(r.question.kind.options) == q.options
  {
    ValuesOfChoiceOptions(q.options);
    Item(q.prompt, None,
      FormQuestion(true, ChoiceQuestion(Radio, ChoiceOptions(q.options), false)))
  }

  /** The question items, in entry order. */
  function QuestionItems(qs: seq<Question>): (r: seq<Item>)
    ensures |r| == |qs|
  {
    if qs == [] then [] else [QuestionItem(qs[0])] + QuestionItems(qs[1..])
  }

  /** `createItem` requests for `items`, the first placed at index `from`. */
  function Placed(items: seq<Item>, from: int): (r: seq<Request>)
    ensures |r| == |items|
  {
    if items == [] then [] else [CreateItem(items[0], from)] + Placed(items[1..], from + 1)
  }

  /** The `requests` of the `batchUpdate`: the lead-in items, then the questions. */
  function RequestsFor(qs: seq<Question>): (r: seq<Request>)
    ensures |r| == |qs| + 2
  {
    Placed(LeadInItems + QuestionItems(qs), 0)
  }

  lemma {:induction false} QuestionItemsAt(qs: seq<Question>, k: int)
    requires 0 <= k < |qs|
    ensures QuestionItems(qs)[k] == QuestionItem(qs[k])
  {
    if k > 0 {
      QuestionItemsAt(qs[1..], k - 1);
    }
  }

  lemma {:induction false} PlacedAt(items: seq<Item>, from: int, k: int)
    requires 0 <= k < |items|
    ensures Placed(items, from)[k] == CreateItem(items[k], from + k)
  {
    if k > 0 {
      PlacedAt(items[1..], from + 1, k - 1);
    }
  }

  /** Request k is the k-th item placed at index k: lead-ins first, then question k - 2. */
  lemma RequestAt(qs: seq<Question>, k: int)
    requires 0 <= k < |qs| + 2
    ensures RequestsFor(qs)[k] ==
      CreateItem(if k < 2 then LeadInItems[k] else QuestionItem(qs[k - 2]), k)
  {
    var items := LeadInItems + QuestionItems(qs);
    PlacedAt(items, 0, k);
    if k >= 2 {
      QuestionItemsAt(qs, k - 2);
    }
  }

  /** Every request's location index is its position in the list. */
  lemma IndexIsPosition(qs: seq<Question>)
    ensures forall k :: 0 <= k < |RequestsFor(qs)| ==> RequestsFor(qs)[k].index == k
  {
    forall k | 0 <= k < |RequestsFor(qs)|
      ensures RequestsFor(qs)[k].index == k
    {
      RequestAt(qs, k);
    }
  }

  /** The first two requests are the required free-text lead-ins, whatever the questions. */
  lemma LeadInsFirst(qs: seq<Question>)
    ensures RequestsFor(qs)[0] == CreateItem(StudentNameItem, 0)
    ensures RequestsFor(qs)[1] == CreateItem(BatchItem, 1)
    ensures RequestsFor(qs)[0].item.title == "Student Full Name"
    ensures RequestsFor(qs)[1].item.title == "Batch & Specialization"
    ensures RequestsFor(qs)[0].item.question == FormQuestion(true, TextQuestion)
    ensures RequestsFor(qs)[1].item.question == FormQuestion(true, TextQuestion)
  {
    RequestAt(qs, 0);
    RequestAt(qs, 1);
  }

  /**
   * Request k + 2 carries question k: its prompt as title, its four options
   * in order, as a required radio choice with shuffling off.
   */
  lemma QuestionRequest(qs: seq<Question>, k: int)
    requires 0 <= k < |qs|
    requires |qs[k].options| == 4
    ensures RequestsFor(qs)[k + 2].index == k + 2
    ensures RequestsFor(qs)[k + 2].item.title == qs[k].prompt
    ensures RequestsFor(qs)[k + 2].item.question ==
      FormQuestion(true, ChoiceQuestion(Radio, ChoiceOptions(qs[k].options), false))
    ensures Values(RequestsFor(qs)[k + 2].item.question.kind.options) == qs[k].options
    ensures |RequestsFor(qs)[k + 2].item.question.kind.options| == 4
  {
    RequestAt(qs, k + 2);
  }

  /** Two question lists that differ at most in their answers. */
  predicate SameButAnswers(qs1: seq<Question>, qs2: seq<Question>)
  {
    |qs1| == |qs2| &&
    forall k :: 0 <= k < |qs1| ==>
      qs1[k].prompt == qs2[k].prompt && qs1[k].options == qs2[k].options
  }

  lemma {:induction false} QuestionItemsIgnoreAnswers(qs1: seq<Question>, qs2: seq<Question>)
    requires SameButAnswers(qs1, qs2)
    ensures QuestionItems(qs1) == QuestionItems(qs2)
  {
    if qs1 != [] {
      assert SameButAnswers(qs1[1..], qs2[1..]);
      QuestionItemsIgnoreAnswers(qs1[1..], qs2[1..]);
    }
  }

  /** The correct answers are never transmitted: the requests do not depend on them. */
  lemma AnswersNotTransmitted(qs1: seq<Question>, qs2: seq<Question>)
    requires SameButAnswers(qs1, qs2)
    ensures RequestsFor(qs1) == RequestsFor(qs2)
  {
    QuestionItemsIgnoreAnswers(qs1, qs2);
  }

  /**
   * Builds the request list as the creator does: the lead-in items placed at
   * their enumeration index, then each question placed at the current length.
   */
  method BuildRequests(questions: seq<Question>) returns (requests: seq<Request>)
    ensures requests == RequestsFor(questions)
  {
    var infoQuestions := LeadInItems;
    requests := [];
    for i := 0 to |infoQuestions|
      invariant |requests| == i
      invariant forall k :: 0 <= k < i ==> requests[k] == CreateItem(infoQuestions[k], k)
    {
      requests := requests + [CreateItem(infoQuestions[i], i)];
    }
    for j := 0 to |questions|
      invariant |requests| == 2 + j
      invariant forall k :: 0 <= k < 2 ==> requests[k] == CreateItem(LeadInItems[k], k)
      invariant forall k :: 0 <= k < j ==>
        requests[k + 2] == CreateItem(QuestionItem(questions[k]), k + 2)
    {
      requests := requests + [CreateItem(QuestionItem(questions[j]), |requests|)];
    }
    forall k | 0 <= k < |requests|
      ensures requests[k] == RequestsFor(questions)[k]
    {
      RequestAt(questions, k);
      if k >= 2 {
        assert requests[(k - 2) + 2] == CreateItem(QuestionItem(questions[k - 2]), k);
      }
    }
  }
}
