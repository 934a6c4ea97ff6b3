/**
 * The result view: the two flattenings of a record (clipboard text and
 * narration text), the playback-rate cycle, and the narration state machine
 * that follows the speech platform's callbacks.
 */
module OutputDisplay {
  import opened Wrappers
  import opened JsText
  import opened ProcessedTextModel
  import GeminiService

  // ---------------------------------------------------------------- sections

  /** The sections of a flattened record, in the order both flattenings use. */
  datatype Section =
    | NoteSection | TitleSection | SummarySection | ExplanationSection
    | KeyPointsSection | RequirementsSection | StepsSection | NextStepSection

  const AllSections := [NoteSection, TitleSection, SummarySection, ExplanationSection,
                        KeyPointsSection, RequirementsSection, StepsSection, NextStepSection]

  function Rank(s: Section): nat {
    match s
    case NoteSection => 0
    case TitleSection => 1
    case SummarySection => 2
    case ExplanationSection => 3
    case KeyPointsSection => 4
    case RequirementsSection => 5
    case StepsSection => 6
    case NextStepSection => 7
  }

  /**
   * Whether a section is emitted: title and key points always; an optional
   * string only when present and not empty; an optional list only when present
   * and not empty.
   */
  predicate Emitted(o: ProcessedText, s: Section) {
    match s
    case NoteSection => Given(o.uncertaintyNote)
    case TitleSection => true
    case SummarySection => Given(o.summary)
    case ExplanationSection => Given(o.explanation)
    case KeyPointsSection => true
    case RequirementsSection => NonEmpty(o.requirements)
    case StepsSection => NonEmpty(o.steps)
    case NextStepSection => Given(o.nextStep)
  }

  predicate RankSorted(secs: seq<Section>) {
    forall i, j :: 0 <= i < j < |secs| ==> Rank(secs[i]) < Rank(secs[j])
  }

  /** The sections of `secs` that `keep` accepts, in their order. */
  function Filter(keep: Section -> bool, secs: seq<Section>): (r: seq<Section>)
    ensures forall s :: s in r <==> s in secs && keep(s)
  {
    if secs == [] then []
    else
      var last := secs[|secs| - 1];
      Filter(keep, secs[..|secs| - 1]) + (if keep(last) then [last] else [])
  }

  /** Filtering keeps the relative order of what it keeps. */
  lemma {:induction false} FilterSorted(keep: Section -> bool, secs: seq<Section>)
    requires RankSorted(secs)
    ensures RankSorted(Filter(keep, secs))
  {
    if secs != [] {
      var init, last := secs[..|secs| - 1], secs[|secs| - 1];
      FilterSorted(keep, init);
      forall x | x in Filter(keep, init) ensures Rank(x) < Rank(last) {
        var k :| 0 <= k < |init| && init[k] == x;
      }
    }
  }

  function Emitting(o: ProcessedText): Section -> bool {
    s => Emitted(o, s)
  }

  /**
   * The sections a record is flattened into: exactly the emitted ones, each
   * once, in the fixed order; the title and the key points are always there.
   */
  function Outline(o: ProcessedText): (r: seq<Section>)
    ensures forall s :: s in r <==> Emitted(o, s)
    ensures RankSorted(r)
    ensures TitleSection in r && KeyPointsSection in r
  {
    FilterSorted(Emitting(o), AllSections);
    Filter(Emitting(o), AllSections)
  }

  /** The texts `f` gives the sections of `secs`, concatenated in order. */
  function Concat(f: Section -> string, secs: seq<Section>): string {
    if secs == [] then "" else Concat(f, secs[..|secs| - 1]) + f(secs[|secs| - 1])
  }

  lemma ConcatSnoc(f: Section -> string, init: seq<Section>, x: Section)
    ensures Concat(f, init + [x]) == Concat(f, init) + f(x)
  {
    assert (init + [x])[..|init|] == init;
  }

  /**
   * Concatenating the texts of the accepted sections is concatenating, over
   * all sections, the text of each accepted one and nothing for the others.
   */
  lemma {:induction false} ConcatFilter(f: Section -> string, keep: Section -> bool, g: Section -> string, secs: seq<Section>)
    requires forall s :: g(s) == if keep(s) then f(s) else ""
    ensures Concat(f, Filter(keep, secs)) == Concat(g, secs)
  {
    if secs != [] {
      var init, last := secs[..|secs| - 1], secs[|secs| - 1];
      ConcatFilter(f, keep, g, init);
      var chosen := Filter(keep, init);
      if keep(last) {
        ConcatSnoc(f, chosen, last);
      } else {
        assert chosen + [] == chosen;
      }
    }
  }

  /** A list of eight sections, concatenated, is the eight texts in a row. */
  lemma ConcatEight(f: Section -> string, s1: Section, s2: Section, s3: Section, s4: Section,
                    s5: Section, s6: Section, s7: Section, s8: Section)
    ensures Concat(f, [s1, s2, s3, s4, s5, s6, s7, s8])
         == f(s1) + f(s2) + f(s3) + f(s4) + f(s5) + f(s6) + f(s7) + f(s8)
  {
    assert Concat(f, [s1]) == f(s1);
    assert [s1, s2][..1] == [s1];
    assert Concat(f, [s1, s2]) == Concat(f, [s1]) + f(s2);
    assert [s1, s2, s3][..2] == [s1, s2];
    assert Concat(f, [s1, s2, s3]) == Concat(f, [s1, s2]) + f(s3);
    assert [s1, s2, s3, s4][..3] == [s1, s2, s3];
    assert Concat(f, [s1, s2, s3, s4]) == Concat(f, [s1, s2, s3]) + f(s4);
    assert [s1, s2, s3, s4, s5][..4] == [s1, s2, s3, s4];
    assert Concat(f, [s1, s2, s3, s4, s5]) == Concat(f, [s1, s2, s3, s4]) + f(s5);
    assert [s1, s2, s3, s4, s5, s6][..5] == [s1, s2, s3, s4, s5];
    assert Concat(f, [s1, s2, s3, s4, s5, s6]) == Concat(f, [s1, s2, s3, s4, s5]) + f(s6);
    assert [s1, s2, s3, s4, s5, s6, s7][..6] == [s1, s2, s3, s4, s5, s6];
    assert Concat(f, [s1, s2, s3, s4, s5, s6, s7]) == Concat(f, [s1, s2, s3, s4, s5, s6]) + f(s7);
    assert [s1, s2, s3, s4, s5, s6, s7, s8][..7] == [s1, s2, s3, s4, s5, s6, s7];
  }

  // ---------------------------------------------------------------- the two flattenings

  /** The two flattenings: the clipboard export and the narration script. */
  datatype Flattening = Clipboard | Speech

  function Value(field: Option<string>): string {
    if field.Some? then field.value else ""
  }

  function Items<T>(field: Option<seq<T>>): seq<T> {
    if field.Some? then field.value else []
  }

  const CheckBox := "\U{25FB}\U{FE0F} "

  /** One line per item, each made of `marker`, the item and a newline. */
  function Lines(marker: string, xs: seq<string>): (r: string)
    ensures xs == [] <==> r == ""
    ensures xs != [] ==> r[|r| - 1] == '\n'
  {
    if xs == [] then "" else Lines(marker, xs[..|xs| - 1]) + marker + xs[|xs| - 1] + "\n"
  }

  function EndsWith(s: string, suffix: string): bool {
    |suffix| <= |s| && s[|s| - |suffix|..] == suffix
  }

  /** The text of one section, in either flattening. */
  function Block(kind: Flattening, o: ProcessedText, s: Section): string {
    match kind
    case Clipboard => CopyBlock(o, s)
    case Speech => SpeechBlock(o, s)
  }

  /** A section as a paragraph of the exported text. */
  function CopyBlock(o: ProcessedText, s: Section): string {
    match s
    case NoteSection => "NOTE: " + Value(o.uncertaintyNote) + "\n\n"
    case TitleSection => o.title + "\n\n"
    case SummarySection => Value(o.summary) + "\n\n"
    case ExplanationSection => "EXPLANATION\n" + Value(o.explanation) + "\n\n"
    case KeyPointsSection => "KEY POINTS\n" + Lines("- ", o.keyPoints) + "\n"
    case RequirementsSection => "REQUIREMENTS\n" + Lines("- ", Items(o.requirements)) + "\n"
    case StepsSection => "STEP-BY-STEP\n" + Lines(CheckBox, StepTexts(Items(o.steps))) + "\n"
    case NextStepSection => "OPTIONAL NEXT STEP\n" + Value(o.nextStep) + "\n"
  }

  /** A section as spoken prose. */
  function SpeechBlock(o: ProcessedText, s: Section): string {
    match s
    case NoteSection => "Please note: " + Value(o.uncertaintyNote) + ". "
    case TitleSection => o.title + ". "
    case SummarySection => Value(o.summary) + ". "
    case ExplanationSection => "Explanation: " + Value(o.explanation) + ". "
    case KeyPointsSection => "Key Points: " + Join(o.keyPoints, ". ") + ". "
    case RequirementsSection => "Requirements: " + Join(Items(o.requirements), ". ") + ". "
    case StepsSection => "Steps: " + Join(StepTexts(Items(o.steps)), ". ") + ". "
    case NextStepSection => "Optional Next Step: " + Value(o.nextStep) + "."
  }

  /**
   * On the clipboard every section but the last ends in a blank line and the
   * last in a newline; spoken, every section but the last ends in ". " and the
   * last in ".".
   */
  lemma BlockEnding(kind: Flattening, o: ProcessedText, s: Section)
    ensures kind == Clipboard && s != NextStepSection ==> EndsWith(Block(kind, o, s), "\n\n")
    ensures kind == Clipboard && s == NextStepSection ==> EndsWith(Block(kind, o, s), "\n")
    ensures kind == Speech && s != NextStepSection ==> EndsWith(Block(kind, o, s), ". ")
    ensures kind == Speech && s == NextStepSection ==> EndsWith(Block(kind, o, s), ".")
  {
  }

  /** A section's text when it is emitted, nothing otherwise. */
  function Part(kind: Flattening, o: ProcessedText, s: Section): string {
    if Emitted(o, s) then Block(kind, o, s) else ""
  }

  /** The flattening as the component builds it, one guarded append per section. */
  function Document(kind: Flattening, o: ProcessedText): string {
    Part(kind, o, NoteSection) + Part(kind, o, TitleSection) + Part(kind, o, SummarySection)
    + Part(kind, o, ExplanationSection) + Part(kind, o, KeyPointsSection)
    + Part(kind, o, RequirementsSection) + Part(kind, o, StepsSection) + Part(kind, o, NextStepSection)
  }

  /** The text handed to the clipboard: the clipboard flattening, trimmed. */
  function ClipboardText(o: ProcessedText): string {
    Trim(Document(Clipboard, o))
  }

  /** The text handed to the speech synthesizer. */
  function SpeechText(o: ProcessedText): string {
    Document(Speech, o)
  }

  function BlockOf(kind: Flattening, o: ProcessedText): Section -> string {
    s => Block(kind, o, s)
  }

  function PartOf(kind: Flattening, o: ProcessedText): Section -> string {
    s => Part(kind, o, s)
  }

  /**
   * Both flattenings are the blocks of the outline, in the outline's order and
   * nothing else: same sections, same order, same omission of absent or empty
   * fields.
   */
  lemma FlatteningFollowsOutline(kind: Flattening, o: ProcessedText)
    ensures Document(kind, o) == Concat(BlockOf(kind, o), Outline(o))
  {
    ConcatFilter(BlockOf(kind, o), Emitting(o), PartOf(kind, o), AllSections);
    ConcatEight(PartOf(kind, o), NoteSection, TitleSection, SummarySection, ExplanationSection,
                KeyPointsSection, RequirementsSection, StepsSection, NextStepSection);
  }

  /**
   * Neither flattening looks at the `completed` flags: records that differ only
   * in them flatten alike, so the clean-up of a response never changes them.
   */
  lemma FlatteningIgnoresCompletion(kind: Flattening, o: ProcessedText, o': ProcessedText)
    requires o'.(steps := o.steps) == o
    requires o.steps.Some? <==> o'.steps.Some?
    requires o.steps.Some? ==> StepTexts(o.steps.value) == StepTexts(o'.steps.value)
    ensures Document(kind, o) == Document(kind, o')
  {
    forall s ensures Part(kind, o, s) == Part(kind, o', s) {
      PartIgnoresCompletion(kind, o, o', s);
    }
  }

  /** The service's clean-up of a response never changes how it is flattened. */
  lemma CleanUpIsInvisible(kind: Flattening, parsed: ProcessedText)
    ensures Document(kind, GeminiService.PrepareOutput(parsed)) == Document(kind, parsed)
  {
    FlatteningIgnoresCompletion(kind, parsed, GeminiService.PrepareOutput(parsed));
  }

  lemma PartIgnoresCompletion(kind: Flattening, o: ProcessedText, o': ProcessedText, s: Section)
    requires o'.(steps := o.steps) == o
    requires o.steps.Some? <==> o'.steps.Some?
    requires o.steps.Some? ==> StepTexts(o.steps.value) == StepTexts(o'.steps.value)
    ensures Part(kind, o, s) == Part(kind, o', s)
  {
    if s == StepsSection {
      assert NonEmpty(o.steps) <==> NonEmpty(o'.steps);
      assert StepTexts(Items(o.steps)) == StepTexts(Items(o'.steps));
    }
  }

  // ---------------------------------------------------------------- playback rate

  const Rates: seq<real> := [0.7, 0.9, 1.1, 1.3]
  const DefaultRate: real := 0.9

  /** `xs.indexOf(x)`: the first index holding `x`, or -1. */
  function IndexOf(xs: seq<real>, x: real): (i: int)
    ensures -1 <= i < |xs|
    ensures i >= 0 ==> xs[i] == x && forall j :: 0 <= j < i ==> xs[j] != x
    ensures i == -1 <==> x !in xs
  {
    if xs == [] then -1
    else if xs[0] == x then 0
    else var k := IndexOf(xs[1..], x); if k == -1 then -1 else k + 1
  }

  /**
   * The rate after one press of the rate button: the next entry of the list,
   * wrapping after the last; a rate not in the list moves to the first entry.
   */
  function NextRate(rate: real): (r: real)
    ensures r in Rates
    ensures rate == 0.7 ==> r == 0.9
    ensures rate == 0.9 ==> r == 1.1
    ensures rate == 1.1 ==> r == 1.3
    ensures rate == 1.3 ==> r == 0.7
    ensures rate !in Rates ==> r == 0.7
  {
    Rates[(IndexOf(Rates, rate) + 1) % |Rates|]
  }

  /** Four presses bring any listed rate back to itself, and no fewer do. */
  lemma RateCycle(rate: real)
    requires rate in Rates
    ensures NextRate(NextRate(NextRate(NextRate(rate)))) == rate
    ensures NextRate(rate) != rate && NextRate(NextRate(rate)) != rate
    ensures NextRate(NextRate(NextRate(rate))) != rate
  {
  }

  // ---------------------------------------------------------------- narration

  datatype PlaybackState = Stopped | Playing | Paused

  /** The callbacks a speech utterance can fire. */
  datatype SpeechEvent = OnStart | OnPause | OnResume | OnEnd | OnError

  /** The state each callback sets. */
  function StateAfter(e: SpeechEvent): PlaybackState {
    match e
    case OnStart => Playing
    case OnPause => Paused
    case OnResume => Playing
    case OnEnd => Stopped
    case OnError => Stopped
  }

  /** A request made to the speech platform. */
  datatype SpeechRequest = SpeakRequest(id: nat, text: string, rate: real) | PauseRequest | ResumeRequest

  /** The last utterance created; `attached` says whether its callbacks are still hooked up. */
  datatype Utterance = Utterance(id: nat, text: string, rate: real, attached: bool)

  /** The output view: the record shown, the narration state and the rate. */
  class Narrator {
    var data: Option<ProcessedText>
    var playbackState: PlaybackState
    var playbackRate: real
    var utterance: Option<Utterance>
    var nextId: nat
    /** The requests made to the speech platform so far, oldest first. */
    var requests: seq<SpeechRequest>
    /** Whether the platform offers speech synthesis at all. */
    const speechSupported: bool

    /**
     * Only the current utterance can have callbacks attached, and only while
     * the record it reads is still the one shown; playing or paused implies
     * such an utterance; the rate is always one of the listed rates.
     */
    ghost predicate Valid() reads this {
      && Wellformed()
      && (utterance.Some? && utterance.value.attached ==>
            data.Some? && speechSupported && utterance.value.text == SpeechText(data.value))
      && (playbackState != Stopped ==> utterance.Some? && utterance.value.attached)
    }

    /** Utterance ids are handed out in order and the rate is one of the listed rates. */
    ghost predicate Wellformed() reads this {
      && (utterance.Some? ==> utterance.value.id < nextId)
      && playbackRate in Rates
    }

    /** The component is created with its first record, stopped, at the default rate. */
    constructor (speechSupported: bool, data: Option<ProcessedText>)
      ensures Valid()
      ensures this.speechSupported == speechSupported && this.data == data
      ensures playbackState == Stopped && playbackRate == DefaultRate
      ensures utterance.None? && requests == []
    {
      this.speechSupported := speechSupported;
      this.data := data;
      playbackState := Stopped;
      playbackRate := DefaultRate;
      utterance := None;
      nextId := 0;
      requests := [];
    }

    /** Detaches the callbacks of the current utterance and stops. */
    method CancelAudio()
      requires Wellformed()
      modifies this
      ensures Valid()
      ensures playbackState == Stopped
      ensures utterance == if old(utterance).Some? then Some(old(utterance).value.(attached := false)) else None
      ensures data == old(data) && playbackRate == old(playbackRate)
      ensures nextId == old(nextId) && requests == old(requests)
    {
      if utterance.Some? {
        utterance := Some(utterance.value.(attached := false));
      }
      playbackState := Stopped;
    }

    /** A new record (or none) is shown: any narration of the old one is cancelled. */
    method DataChanged(d: Option<ProcessedText>)
      requires Valid()
      modifies this
      ensures Valid()
      ensures data == d && playbackState == Stopped
      ensures utterance == if old(utterance).Some? then Some(old(utterance).value.(attached := false)) else None
      ensures nextId == old(nextId)
      ensures playbackRate == old(playbackRate) && requests == old(requests)
    {
      data := d;
      CancelAudio();
    }

    /** The component is torn down: narration is cancelled. */
    method Destroy()
      requires Valid()
      modifies this
      ensures Valid()
      ensures playbackState == Stopped
      ensures utterance == if old(utterance).Some? then Some(old(utterance).value.(attached := false)) else None
      ensures nextId == old(nextId)
      ensures data == old(data) && playbackRate == old(playbackRate) && requests == old(requests)
    {
      CancelAudio();
    }

    /**
     * Starts narrating the shown record at the current rate, after cancelling
     * any earlier utterance; the state stays stopped until the platform
     * reports the start. Without a record or without speech support, nothing happens.
     */
    method Speak()
      requires Valid()
      modifies this
      ensures Valid()
      ensures old(data).None? || !speechSupported ==> unchanged(this)
      ensures old(data).Some? && speechSupported ==>
        && playbackState == Stopped
        && utterance == Some(Utterance(old(nextId), SpeechText(old(data).value), old(playbackRate), true))
        && requests == old(requests) + [SpeakRequest(old(nextId), SpeechText(old(data).value), old(playbackRate))]
        && nextId == old(nextId) + 1
        && data == old(data) && playbackRate == old(playbackRate)
    {
      if data.None? || !speechSupported {
        return;
      }
      CancelAudio();
      var text := SpeechText(data.value);
      utterance := Some(Utterance(nextId, text, playbackRate, true));
      requests := requests + [SpeakRequest(nextId, text, playbackRate)];
      nextId := nextId + 1;
    }

    /**
     * The play/pause button: playing asks the platform to pause, paused asks
     * it to resume, stopped starts narration. The state itself only changes
     * when the platform calls back.
     */
    method ToggleAudio()
      requires Valid()
      modifies this
      ensures Valid()
      ensures old(playbackState) == Playing ==>
        requests == old(requests) + [PauseRequest] && playbackState == Playing
        && utterance == old(utterance) && nextId == old(nextId)
      ensures old(playbackState) == Paused ==>
        requests == old(requests) + [ResumeRequest] && playbackState == Paused
        && utterance == old(utterance) && nextId == old(nextId)
      ensures old(playbackState) == Stopped && old(data).Some? && speechSupported ==>
        && playbackState == Stopped
        && utterance == Some(Utterance(old(nextId), SpeechText(old(data).value), old(playbackRate), true))
        && requests == old(requests) + [SpeakRequest(old(nextId), SpeechText(old(data).value), old(playbackRate))]
        && nextId == old(nextId) + 1
      ensures old(playbackState) == Stopped && (old(data).None? || !speechSupported) ==> unchanged(this)
      ensures data == old(data) && playbackRate == old(playbackRate)
    {
      if playbackState == Playing {
        requests := requests + [PauseRequest];
      } else if playbackState == Paused {
        requests := requests + [ResumeRequest];
      } else {
        Speak();
      }
    }

    /**
     * The rate button: moves to the next rate. Stopped, nothing else changes;
     * playing or paused, narration restarts from the beginning at the new rate,
     * passing through stopped.
     */
    method ChangePlaybackRate()
      requires Valid()
      modifies this
      ensures Valid()
      ensures playbackRate == NextRate(old(playbackRate))
      ensures old(playbackState) == Stopped ==>
        playbackState == Stopped && utterance == old(utterance) && requests == old(requests) && nextId == old(nextId)
      ensures old(playbackState) != Stopped ==>
        && old(data).Some?
        && playbackState == Stopped
        && utterance == Some(Utterance(old(nextId), SpeechText(old(data).value), playbackRate, true))
        && requests == old(requests) + [SpeakRequest(old(nextId), SpeechText(old(data).value), playbackRate)]
        && nextId == old(nextId) + 1
      ensures data == old(data)
    {
      playbackRate := NextRate(playbackRate);
      if playbackState != Stopped {
        Speak();
      }
    }

    /**
     * A callback from the platform for utterance `id`: it sets the state its
     * handler sets when it belongs to the current utterance and its callbacks
     * are still attached, and is ignored otherwise.
     */
    method HandleEvent(id: nat, e: SpeechEvent)
      requires Valid()
      modifies this`playbackState
      ensures Valid()
      ensures old(utterance).Some? && old(utterance).value.id == id && old(utterance).value.attached ==>
        playbackState == StateAfter(e)
      ensures !(old(utterance).Some? && old(utterance).value.id == id && old(utterance).value.attached) ==>
        playbackState == old(playbackState)
    {
      if utterance.Some? && utterance.value.id == id && utterance.value.attached {
        playbackState := StateAfter(e);
      }
    }

    /**
     * The copy button: the text handed to the clipboard, built section by
     * section and list item by list item; nothing when no record is shown.
     */
    method CopyToClipboard() returns (copied: Option<string>)
      ensures data.None? ==> copied.None?
      ensures data.Some? ==> copied == Some(ClipboardText(data.value))
    {
      if data.None? {
        return None;
      }
      var o := data.value;
      var text := AppendSection("", o, NoteSection);
      assert text == Part(Clipboard, o, NoteSection);
      text := AppendSection(text, o, TitleSection);
      text := AppendSection(text, o, SummarySection);
      text := AppendSection(text, o, ExplanationSection);
      text := AppendSection(text, o, KeyPointsSection);
      text := AppendSection(text, o, RequirementsSection);
      text := AppendSection(text, o, StepsSection);
      text := AppendSection(text, o, NextStepSection);
      copied := Some(Trim(text));
    }
  }

  /** Appends the clipboard paragraph of section `s` when the record has that section. */
  method AppendSection(text: string, o: ProcessedText, s: Section) returns (r: string)
    ensures r == text + Part(Clipboard, o, s)
  {
    r := text;
    match s {
      case NoteSection =>
        if Given(o.uncertaintyNote) {
          r := r + ("NOTE: " + o.uncertaintyNote.value + "\n\n");
        }
      case TitleSection =>
        r := r + (o.title + "\n\n");
      case SummarySection =>
        if Given(o.summary) {
          r := r + (o.summary.value + "\n\n");
        }
      case ExplanationSection =>
        if Given(o.explanation) {
          r := r + ("EXPLANATION\n" + o.explanation.value + "\n\n");
        }
      case KeyPointsSection =>
        var keyPoints := AppendLines("KEY POINTS\n", "- ", o.keyPoints);
        r := r + (keyPoints + "\n");
      case RequirementsSection =>
        if o.requirements.Some? && |o.requirements.value| > 0 {
          var requirements := AppendLines("REQUIREMENTS\n", "- ", o.requirements.value);
          r := r + (requirements + "\n");
        }
      case StepsSection =>
        if o.steps.Some? && |o.steps.value| > 0 {
          var steps := AppendLines("STEP-BY-STEP\n", CheckBox, StepTexts(o.steps.value));
          r := r + (steps + "\n");
        }
      case NextStepSection =>
        if Given(o.nextStep) {
          r := r + ("OPTIONAL NEXT STEP\n" + o.nextStep.value + "\n");
        }
    }
  }

  /** Appends one line per item, each made of `marker`, the item and a newline. */
  method AppendLines(text: string, marker: string, xs: seq<string>) returns (r: string)
    ensures r == text + Lines(marker, xs)
  {
    r := text;
    var i := 0;
    while i < |xs|
      invariant 0 <= i <= |xs|
      invariant r == text + Lines(marker, xs[..i])
    {
      assert xs[..i + 1][..i] == xs[..i];
      r := r + marker + xs[i] + "\n";
      i := i + 1;
    }
    assert xs[..i] == xs;
  }
}
