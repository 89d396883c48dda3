/**
 * One question-answer node of a workflow, as its tests drive it: the first
 * run records the question (and its choices) in the checkpointed state and
 * interrupts; each resume reads the answer a state modifier wrote into the
 * resume data, and either completes or, when extracting fields from the
 * answer, may ask again up to the configured number of answers. The LLM
 * calls behind choice matching and field extraction are parameters.
 */
module QuestionAnswer {
  import opened Wrappers

  datatype AnswerType = AnswerDirectly | AnswerByChoices

  /** The node's configuration, with the choices (fixed or dynamic) already rendered. */
  datatype Config = Config(answerType: AnswerType, choices: seq<string>, extractFromAnswer: bool, maxAnswerCount: nat)

  /** One entry of the node's `questions` list in the intermediate result. */
  datatype Question = Question(question: string, choices: seq<string>)

  /** What the extraction model makes of the answers so far: another question, or the fields. */
  datatype Extraction = AskAgain(question: string) | Extracted(fields: map<string, string>)

  /** The node's output. */
  datatype Output =
    | DirectAnswer(userResponse: string)
    | ChoiceAnswer(optionID: string, optionContent: string)
    | ExtractedAnswer(userResponse: string, fields: map<string, string>)

  datatype Phase = NotStarted | Interrupted | Completed(output: Output) | Failed

  /** The option ID of an answer that matches no choice. */
  const OtherOptionID := "other"

  /** The most choices that get a letter. */
  const MaxChoices := 26

  /** The option ID of choice `i`: `A` for the first, `B` for the second, and so on. */
  function OptionID(i: nat): (id: string)
    requires i < MaxChoices
    ensures |id| == 1 && id[0] as int == 'A' as int + i
    ensures id != OtherOptionID
  {
    [('A' as int + i) as char]
  }

  /** The index of the first choice equal to the answer. */
  function FirstMatch(choices: seq<string>, answer: string): (r: Option<nat>)
    ensures r.None? <==> answer !in choices
    ensures r.Some? ==> r.value < |choices| && choices[r.value] == answer && answer !in choices[..r.value]
  {
    if |choices| == 0 then None
    else if choices[0] == answer then Some(0)
    else match FirstMatch(choices[1..], answer)
      case None => None
      case Some(i) =>
        assert choices[..i + 1] == [choices[0]] + choices[1..][..i];
        Some(i + 1)
  }

  /**
   * The answer against the choices: an exact match takes that choice's
   * letter; otherwise the model's pick `llmPick` decides, and a pick that is
   * no choice's index (the model answers `-1`) is the `other` option with the
   * answer verbatim.
   */
  function ResolveChoice(choices: seq<string>, answer: string, llmPick: int): (r: Output)
    requires |choices| <= MaxChoices
    ensures r.ChoiceAnswer?
    ensures answer in choices ==> r == ChoiceAnswer(OptionID(FirstMatch(choices, answer).value), answer)
    ensures answer !in choices && !(0 <= llmPick < |choices|) ==> r == ChoiceAnswer(OtherOptionID, answer)
    ensures answer !in choices && 0 <= llmPick < |choices| ==> r == ChoiceAnswer(OptionID(llmPick), choices[llmPick])
  {
    match FirstMatch(choices, answer)
    case Some(i) => ChoiceAnswer(OptionID(i), answer)
    case None =>
      if 0 <= llmPick < |choices| then ChoiceAnswer(OptionID(llmPick), choices[llmPick])
      else ChoiceAnswer(OtherOptionID, answer)
  }

  /** The checkpointed state of one question-answer node. */
  class QANode {
    const config: Config
    /** The rendered question template. */
    const question: string
    /** `IntermediateResult[key][questions]`: every question asked, in order. */
    var questions: seq<Question>
    /** The answers an extracting node has received. */
    var answers: seq<string>
    /** `ResumeData[key]`: the answer written before the next resume. */
    var resumeData: Option<string>
    var phase: Phase

    ghost predicate Valid()
      reads this
    {
      && |config.choices| <= MaxChoices
      && (phase.NotStarted? ==> questions == [] && answers == [])
      && (phase.Interrupted? ==> |questions| == |answers| + 1)
      && (phase.Interrupted? && |answers| > 0 ==> config.extractFromAnswer && |answers| < config.maxAnswerCount)
    }

    constructor(config: Config, question: string)
      requires |config.choices| <= MaxChoices
      ensures Valid()
      ensures this.config == config && this.question == question
      ensures questions == [] && answers == [] && resumeData.None? && phase == NotStarted
    {
      this.config := config;
      this.question := question;
      questions := [];
      answers := [];
      resumeData := None;
      phase := NotStarted;
    }

    /** The first question as recorded: with the choices when answering by choices. */
    function FirstQuestion(): Question
      reads this
    {
      Question(question, if config.answerType == AnswerByChoices then config.choices else [])
    }

    /** The state modifier of a resume: it writes the answer into the resume data. */
    method SetResumeData(answer: string)
      modifies this
      ensures resumeData == Some(answer)
      ensures questions == old(questions) && answers == old(answers) && phase == old(phase)
    {
      resumeData := Some(answer);
    }

    /**
     * One run of the node. `extraction` is what the extraction model returns
     * and `llmPick` the choice the matching model picks, each read only on
     * the path that asks that model. `interrupted` is whether the run ends
     * in an interrupt.
     */
    method Invoke(extraction: Extraction, llmPick: int) returns (interrupted: bool)
      requires Valid()
      modifies this
      ensures Valid()
      ensures interrupted <==> phase.Interrupted?
      ensures old(phase).NotStarted? ==>
        phase == Interrupted && questions == [FirstQuestion()] && answers == [] && resumeData == old(resumeData)
      ensures old(phase).Interrupted? && old(resumeData).None? ==>
        phase == Interrupted && questions == old(questions) && answers == old(answers) && resumeData.None?
      ensures (old(phase).Completed? || old(phase).Failed?) ==>
        phase == old(phase) && questions == old(questions) && answers == old(answers) && resumeData == old(resumeData)
      ensures old(phase).Interrupted? && old(resumeData).Some? ==>
        resumeData.None? && ResumeOutcome(old(resumeData).value, old(questions), old(answers), extraction, llmPick)
    {
      match phase {
        case NotStarted =>
          questions := [FirstQuestion()];
          phase := Interrupted;
          return true;
        case Interrupted =>
          if resumeData.None? {
            return true;
          }
          var answer := resumeData.value;
          resumeData := None;
          if config.answerType == AnswerByChoices {
            phase := Completed(ResolveChoice(config.choices, answer, llmPick));
          } else if !config.extractFromAnswer {
            phase := Completed(DirectAnswer(answer));
          } else {
            answers := answers + [answer];
            match extraction {
              case Extracted(fields) =>
                phase := Completed(ExtractedAnswer(answer, fields));
              case AskAgain(next) =>
                if |answers| < config.maxAnswerCount {
                  questions := questions + [Question(next, [])];
                  phase := Interrupted;
                } else {
                  phase := Failed;
                }
            }
          }
          return phase.Interrupted?;
        case Completed(_) =>
          return false;
        case Failed =>
          return false;
      }
    }

    /** The state after a resume with `answer`, from the questions and answers before it. */
    ghost predicate ResumeOutcome(answer: string, questions0: seq<Question>, answers0: seq<string>, extraction: Extraction, llmPick: int)
      reads this
      requires |config.choices| <= MaxChoices
    {
      if config.answerType == AnswerByChoices then
        phase == Completed(ResolveChoice(config.choices, answer, llmPick)) && questions == questions0 && answers == answers0
      else if !config.extractFromAnswer then
        phase == Completed(DirectAnswer(answer)) && questions == questions0 && answers == answers0
      else
        answers == answers0 + [answer]
        && match extraction
           case Extracted(fields) => phase == Completed(ExtractedAnswer(answer, fields)) && questions == questions0
           case AskAgain(next) =>
             if |answers0| + 1 < config.maxAnswerCount
             then phase == Interrupted && questions == questions0 + [Question(next, [])]
             else phase == Failed && questions == questions0
    }
  }

  // ---------------------------------------------------------------------
  // The test scenarios
  // ---------------------------------------------------------------------

  /** Answer directly: the first run interrupts with the question; the resume completes with the answer. */
  method AnswerDirectlyScenario() returns (first: bool, asked: string, out: Phase)
    ensures first && asked == "what's your name?"
    ensures out == Completed(DirectAnswer("my name is eino"))
  {
    var node := new QANode(Config(AnswerDirectly, [], false, 0), "what's your name?");
    first := node.Invoke(AskAgain(""), -1);
    asked := node.questions[0].question;
    node.SetResumeData("my name is eino");
    var again := node.Invoke(AskAgain(""), -1);
    out := node.phase;
  }

  /** Fixed choices: the choices are recorded in order; an answer matching none, which the model rejects, is `other`. */
  method FixedChoicesScenario() returns (first: bool, recorded: seq<string>, out: Phase)
    ensures first && recorded == ["make agent", "make workflow"]
    ensures out == Completed(ChoiceAnswer(OtherOptionID, "I would make all kinds of stuff"))
  {
    var node := new QANode(Config(AnswerByChoices, ["make agent", "make workflow"], false, 0), "what's would you make in Coze?");
    first := node.Invoke(AskAgain(""), -1);
    recorded := node.questions[0].choices;
    node.SetResumeData("I would make all kinds of stuff");
    var again := node.Invoke(AskAgain(""), -1);
    out := node.phase;
  }

  /** Dynamic choices: an answer equal to the first choice is option `A`. */
  method DynamicChoicesScenario() returns (first: bool, out: Phase)
    ensures first
    ensures out == Completed(ChoiceAnswer("A", "beijing"))
  {
    var node := new QANode(Config(AnswerByChoices, ["beijing", "shanghai"], false, 0), "what's the capital city of China?");
    first := node.Invoke(AskAgain(""), -1);
    node.SetResumeData("beijing");
    var again := node.Invoke(AskAgain(""), -1);
    out := node.phase;
  }

  /** Extraction with at most two answers: the first resume asks again, the second completes with the fields. */
  method ExtractionScenario(fields: map<string, string>) returns (first: bool, second: bool, out: Phase)
    ensures first && second
    ensures out == Completed(ExtractedAnswer("my age is 1 years old", fields))
  {
    var node := new QANode(Config(AnswerDirectly, [], true, 2), "what's your name?");
    first := node.Invoke(AskAgain(""), -1);
    node.SetResumeData("my name is eino");
    second := node.Invoke(AskAgain("what's your age?"), -1);
    node.SetResumeData("my age is 1 years old");
    var third := node.Invoke(Extracted(fields), -1);
    out := node.phase;
  }
}
