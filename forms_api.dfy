/**
 * The part of the Google Forms API v1 payload that the form creator sends:
 * form metadata and `createItem` requests of a `batchUpdate`.
 */
module FormsApi {
  import opened Wrappers

  /** The `info` object of a new form. */
  datatype FormInfo = FormInfo(title: string, documentTitle: string)

  /** The `choiceQuestion.type` values the creator uses (only RADIO). */
  datatype ChoiceType = Radio

  /** One `{"value": ...}` entry of a choice question's `options`. */
  datatype ChoiceOption = ChoiceOption(value: string)

  /** The body of `questionItem.question`: a free-text or a choice question. */
  datatype QuestionKind =
    | TextQuestion
    | ChoiceQuestion(choiceType: ChoiceType, options: seq<ChoiceOption>, shuffle: bool)

  datatype FormQuestion = FormQuestion(required: bool, kind: QuestionKind)

  /** A form item; `description` is absent unless the item sets one. */
  datatype Item = Item(title: string, description: Option<string>, question: FormQuestion)

  /** `{"createItem": {"item": item, "location": {"index": index}}}` */
  datatype Request = CreateItem(item: Item, index: int)

  /** Wraps each option text as a choice option, keeping the order. */
  function ChoiceOptions(values: seq<string>): (r: seq<ChoiceOption>)
    ensures |r| == |values|
  {
    if values == [] then [] else [ChoiceOption(values[0])] + ChoiceOptions(values[1..])
  }

  /** The option texts a choice question carries, in order. */
  function Values(options: seq<ChoiceOption>): (r: seq<string>)
    ensures |r| == |options|
  {
    if options == [] then [] else [options[0].value] + Values(options[1..])
  }

  /** The k-th choice option holds the k-th option text. */
  lemma {:induction false} ChoiceOptionsAt(values: seq<string>, k: int)
    requires 0 <= k < |values|
    ensures ChoiceOptions(values)[k] == ChoiceOption(values[k])
  {
    if k > 0 {
      ChoiceOptionsAt(values[1..], k - 1);
    }
  }

  /** Reading the texts back from the choice options gives the original list. */
  lemma {:induction false} ValuesOfChoiceOptions(values: seq<string>)
    ensures Values(ChoiceOptions(values)) == values
  {
    if values != [] {
      ValuesOfChoiceOptions(values[1..]);
      assert ChoiceOptions(values)[1..] == ChoiceOptions(values[1..]);
    }
  }
}
