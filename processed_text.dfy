/** The structured result of one simplification request. */
module ProcessedTextModel {
  import opened Wrappers

  /** One checklist entry; `completed` is display state only. */
  datatype Step = Step(text: string, completed: bool)

  /**
   * The result record: `title` and `keyPoints` are always there, the other six
   * fields are optional. List fields keep their order.
   */
  datatype ProcessedText = ProcessedText(
    title: string,
    summary: Option<string>,
    keyPoints: seq<string>,
    requirements: Option<seq<string>>,
    steps: Option<seq<Step>>,
    nextStep: Option<string>,
    uncertaintyNote: Option<string>,
    explanation: Option<string>)

  /** JavaScript truthiness of an optional string field: present and not empty. */
  predicate Given(field: Option<string>) {
    field.Some? && field.value != ""
  }

  /** An optional list field that is present and has at least one element. */
  predicate NonEmpty<T>(field: Option<seq<T>>) {
    field.Some? && |field.value| > 0
  }

  /** The texts of a list of steps, in order. */
  function StepTexts(steps: seq<Step>): (r: seq<string>)
    ensures |r| == |steps|
    ensures forall i :: 0 <= i < |steps| ==> r[i] == steps[i].text
  {
    seq(|steps|, i requires 0 <= i < |steps| => steps[i].text)
  }
}
