/** The advocate's AI research hub: a three-stage pipeline (similar cases,
    then a RAG search, then a final summary) with a stage counter shown while
    it runs. */
module AIResearchHub {
  import opened Core
  import opened Types
  import opened Lifecycle

  const GuardMessage := "Please provide detailed case facts to run the pipeline."
  const FailureMessage := "The AI research pipeline failed. Please check the details and try again."
  const RagQuery := "Find relevant statutes for this case."

  /** The progress labels, indexed by the stage counter. */
  const PipelineStages: seq<string> := [
    "Analyzing Case Facts...",
    "Finding Similar Judgments...",
    "Retrieving Legal Precedents (RAG)...",
    "Generating Final Summary..."
  ]

  /** The service call each stage issues. */
  datatype PipelineCall =
    | FindSimilar(facts: string)
    | RagSearch(query: string, context: string)
    | Summarize(facts: string, similar: SimilarCaseAnalysisResult, rag: RagResult)

  /** What the whole pipeline settles with, given the three services: the
      calls run in order, each later call receives the earlier results, and
      the first failure ends the run. */
  function RunPipeline(facts: string,
                       findSimilar: string -> Outcome<SimilarCaseAnalysisResult>,
                       ragSearch: (string, string) -> Outcome<RagResult>,
                       summarize: (string, SimilarCaseAnalysisResult, RagResult) -> Outcome<AIResearchPipelineResult>)
    : Outcome<AIResearchPipelineResult>
  {
    match findSimilar(facts)
    case Err(m) => Err(m)
    case Ok(similar) =>
      match ragSearch(RagQuery, facts)
      case Err(m) => Err(m)
      case Ok(rag) => summarize(facts, similar, rag)
  }

  /** The run succeeds exactly when all three calls do, and then its value is
      the summary built from the facts and both earlier results. */
  lemma RunPipelineSucceeds(facts: string,
                            findSimilar: string -> Outcome<SimilarCaseAnalysisResult>,
                            ragSearch: (string, string) -> Outcome<RagResult>,
                            summarize: (string, SimilarCaseAnalysisResult, RagResult) -> Outcome<AIResearchPipelineResult>)
    ensures var r := RunPipeline(facts, findSimilar, ragSearch, summarize);
      r.Ok? <==>
        && findSimilar(facts).Ok?
        && ragSearch(RagQuery, facts).Ok?
        && summarize(facts, findSimilar(facts).value, ragSearch(RagQuery, facts).value).Ok?
    ensures var r := RunPipeline(facts, findSimilar, ragSearch, summarize);
      r.Ok? ==> r == summarize(facts, findSimilar(facts).value, ragSearch(RagQuery, facts).value)
  {
  }

  class HubView {
    var caseFacts: string
    var result: Option<AIResearchPipelineResult>
    var isLoading: bool
    var error: Option<string>
    var currentStage: int
    // The handler's locals across its awaits: the facts it started with and
    // the results of the stages done so far.
    var runFacts: string
    var similar: Option<SimilarCaseAnalysisResult>
    var rag: Option<RagResult>

    function State(): ViewState<AIResearchPipelineResult>
      reads this
    {
      ViewState(isLoading, error, result)
    }

    /** The stage stays within the label list; it is non-zero exactly while
        the pipeline runs, nothing is shown meanwhile, and each stage past the
        first has the results of the ones before it. */
    ghost predicate Valid()
      reads this
    {
      && 0 <= currentStage < |PipelineStages|
      && (isLoading <==> currentStage >= 1)
      && (isLoading ==> error == None && result == None)
      && (currentStage >= 2 ==> similar.Some?)
      && (currentStage == 3 ==> rag.Some?)
    }

    constructor ()
      ensures Valid() && caseFacts == "" && currentStage == 0
      ensures State() == Idle()
    {
      caseFacts := "";
      result := None;
      isLoading := false;
      error := None;
      currentStage := 0;
      runFacts := "";
      similar := None;
      rag := None;
    }

    method CaseFactsChanged(text: string)
      modifies this`caseFacts
      ensures caseFacts == text
    {
      caseFacts := text;
    }

    /** The progress label: shown only while the pipeline runs, and then the
        label of a stage from 1 on. The stage is already 1 when loading is
        first shown, so the first label, "Analyzing Case Facts...", never
        appears. */
    function StageLabel(): (shown: Option<string>)
      reads this
      requires Valid()
      ensures shown.Some? <==> isLoading
      ensures shown.Some? ==> shown.value in PipelineStages[1..]
      ensures shown != Some(PipelineStages[0])
    {
      if isLoading then Some(PipelineStages[currentStage]) else None
    }

    /** Any failure: the fixed message, loading lowered, stage back to 0. */
    method Fail()
      requires Valid() && isLoading
      modifies this`isLoading, this`error, this`currentStage
      ensures Valid()
      ensures State() == Settle(old(State()), Err(""), FailureMessage) && currentStage == 0
    {
      error := Some(FailureMessage);
      isLoading := false;
      currentStage := 0;
    }

    /** handlePipelineRun up to its first await: blank facts set the fixed
        message and make no call; otherwise the lifecycle starts, the stage
        becomes 1 and the similar-case search is asked with the facts. */
    method HandlePipelineRun() returns (call: Option<PipelineCall>)
      requires Valid() && !isLoading
      modifies this`isLoading, this`error, this`result, this`currentStage, this`runFacts
      ensures Valid()
      ensures IsBlank(caseFacts) ==>
        call == None && State() == Refuse(old(State()), GuardMessage) && currentStage == 0
      ensures !IsBlank(caseFacts) ==>
        && call == Some(FindSimilar(caseFacts))
        && State() == Begin(old(State()))
        && currentStage == 1
        && runFacts == caseFacts
    {
      if IsBlank(caseFacts) {
        error := Some(GuardMessage);
        call := None;
        return;
      }
      isLoading := true;
      error := None;
      result := None;
      currentStage := 1;
      runFacts := caseFacts;
      call := Some(FindSimilar(caseFacts));
    }

    /** Stage 1 settles: on success the stage becomes 2 and the RAG search is
        asked with the fixed question and the facts as context. */
    method SimilarSettled(outcome: Outcome<SimilarCaseAnalysisResult>) returns (call: Option<PipelineCall>)
      requires Valid() && currentStage == 1
      modifies this`isLoading, this`error, this`currentStage, this`similar
      ensures Valid()
      ensures outcome.Ok? ==>
        && call == Some(RagSearch(RagQuery, runFacts))
        && currentStage == 2 && similar == Some(outcome.value)
        && State() == old(State())
      ensures outcome.Err? ==>
        call == None && currentStage == 0 && State() == Settle(old(State()), Err(""), FailureMessage)
    {
      match outcome {
        case Err(_) =>
          Fail();
          call := None;
        case Ok(s) =>
          currentStage := 2;
          similar := Some(s);
          call := Some(RagSearch(RagQuery, runFacts));
      }
    }

    /** Stage 2 settles: on success the stage becomes 3 and the summary is
        asked with the facts and both earlier results. */
    method RagSettled(outcome: Outcome<RagResult>) returns (call: Option<PipelineCall>)
      requires Valid() && currentStage == 2
      modifies this`isLoading, this`error, this`currentStage, this`rag
      ensures Valid()
      ensures outcome.Ok? ==>
        && call == Some(Summarize(runFacts, similar.value, outcome.value))
        && currentStage == 3 && rag == Some(outcome.value)
        && State() == old(State())
      ensures outcome.Err? ==>
        call == None && currentStage == 0 && State() == Settle(old(State()), Err(""), FailureMessage)
    {
      match outcome {
        case Err(_) =>
          Fail();
          call := None;
        case Ok(r) =>
          currentStage := 3;
          rag := Some(r);
          call := Some(Summarize(runFacts, similar.value, r));
      }
    }

    /** Stage 3 settles: the result is stored only now; the stage returns to 0
        and loading is lowered either way. */
    method SummarySettled(outcome: Outcome<AIResearchPipelineResult>)
      requires Valid() && currentStage == 3
      modifies this`isLoading, this`error, this`result, this`currentStage
      ensures Valid() && currentStage == 0
      ensures State() == Settle(old(State()), outcome, FailureMessage)
    {
      match outcome {
        case Err(_) =>
          Fail();
        case Ok(r) =>
          result := Some(r);
          isLoading := false;
          currentStage := 0;
      }
    }

    /** One whole run of the handler against the three services, its awaits
        taken in order: it ends as the lifecycle prescribes for the pipeline's
        outcome, with the stage back at 0. */
    method Run(findSimilar: string -> Outcome<SimilarCaseAnalysisResult>,
               ragSearch: (string, string) -> Outcome<RagResult>,
               summarize: (string, SimilarCaseAnalysisResult, RagResult) -> Outcome<AIResearchPipelineResult>)
      requires Valid() && !isLoading
      modifies this`isLoading, this`error, this`result, this`currentStage, this`runFacts, this`similar, this`rag
      ensures Valid() && currentStage == 0
      ensures IsBlank(caseFacts) ==> State() == Refuse(old(State()), GuardMessage)
      ensures !IsBlank(caseFacts) ==>
        State() == Settle(Begin(old(State())), RunPipeline(caseFacts, findSimilar, ragSearch, summarize), FailureMessage)
    {
      var call := HandlePipelineRun();
      if call.None? {
        return;
      }
      var next := SimilarSettled(findSimilar(runFacts));
      if next.None? {
        return;
      }
      next := RagSettled(ragSearch(RagQuery, runFacts));
      if next.None? {
        return;
      }
      SummarySettled(summarize(runFacts, similar.value, rag.value));
    }
  }
}
