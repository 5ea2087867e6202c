/** The bias monitor: a text box, the analysis lifecycle, and the rule that
    decides between the "no bias" panel and the list of findings. */
module BiasMonitor {
  import opened Core
  import opened Types
  import opened Lifecycle

  const GuardMessage := "Please provide text to analyze for bias."
  const FailureMessage := "An error occurred during bias analysis. The AI model may have returned an invalid response."

  /** What the result area shows: the "no bias" panel, or the "bias detected"
      header followed by one entry per finding, in order. */
  datatype BiasView = NoBias | BiasDetected(entries: seq<BiasFinding>)

  function BiasDisplay(r: BiasAnalysisResult): (v: BiasView)
    ensures v.NoBias? <==> r.hasBias == Some(false)
    ensures v.BiasDetected? ==> v.entries == r.findings
  {
    if r.hasBias == Some(false) then NoBias else BiasDetected(r.findings)
  }

  /** Only an explicit `false` shows the "no bias" panel, even when findings
      came back; a missing flag with no findings shows the "bias detected"
      header with no entries. */
  lemma BiasDisplayEdgeCases(findings: seq<BiasFinding>)
    ensures BiasDisplay(BiasAnalysisResult(Some(false), findings)) == NoBias
    ensures BiasDisplay(BiasAnalysisResult(None, [])) == BiasDetected([])
  {
  }

  /** The Analyze button is enabled on untrimmed non-emptiness. */
  predicate AnalyzeButtonEnabled(isLoading: bool, documentText: string) {
    !isLoading && documentText != ""
  }

  /** Every text the handler accepts can be sent from the button when not
      loading, while whitespace alone enables the button and is refused. The
      second clause only records the button's definition for whitespace; the
      first clause and the `" "` witness carry the gap between the two tests. */
  lemma ButtonCoversAcceptedRuns(documentText: string)
    ensures !IsBlank(documentText) ==> AnalyzeButtonEnabled(false, documentText)
    ensures documentText != [] && IsBlank(documentText) ==> AnalyzeButtonEnabled(false, documentText)
    ensures AnalyzeButtonEnabled(false, " ") && IsBlank(" ")
  {
  }

  class MonitorView {
    var documentText: string
    var result: Option<BiasAnalysisResult>
    var isLoading: bool
    var error: Option<string>

    function State(): ViewState<BiasAnalysisResult>
      reads this
    {
      ViewState(isLoading, error, result)
    }

    constructor ()
      ensures documentText == "" && State() == Idle()
    {
      documentText := "";
      result := None;
      isLoading := false;
      error := None;
    }

    method DocumentTextChanged(text: string)
      modifies this`documentText
      ensures documentText == text
    {
      documentText := text;
    }

    /** handleAnalyze up to its await: a blank text sets the fixed message and
        makes no call; otherwise the lifecycle starts and the text is sent. */
    method HandleAnalyze() returns (call: Option<string>)
      modifies this`isLoading, this`error, this`result
      ensures IsBlank(documentText) ==> call == None && State() == Refuse(old(State()), GuardMessage)
      ensures !IsBlank(documentText) ==> call == Some(documentText) && State() == Begin(old(State()))
    {
      if IsBlank(documentText) {
        error := Some(GuardMessage);
        call := None;
        return;
      }
      isLoading := true;
      error := None;
      result := None;
      call := Some(documentText);
    }

    /** The analysis settles. */
    method AnalysisSettled(outcome: Outcome<BiasAnalysisResult>)
      modifies this`isLoading, this`error, this`result
      ensures State() == Settle(old(State()), outcome, FailureMessage)
    {
      match outcome {
        case Ok(r) => result := Some(r);
        case Err(_) => error := Some(FailureMessage);
      }
      isLoading := false;
    }
  }
}
