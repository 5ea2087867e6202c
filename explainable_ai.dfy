/** The judge's explainable precedent analysis: a `.txt` document, the
    analysis lifecycle, and how the consistency and bias sections display. */
module ExplainableAI {
  import opened Core
  import opened Types
  import opened Lifecycle
  import opened Uploads

  const GuardMessage := "Please upload a document to analyze."
  const FailureMessage := "An error occurred during analysis. The AI model may have returned an invalid response. Please try again."
  const NeutralMarker := "No potential bias"

  /** The consistency section: the fixed "no major inconsistencies" line, or
      one entry per issue, in order. */
  datatype ConsistencyView = NoInconsistencies | Issues(items: seq<ConsistencyCheck>)

  function ConsistencyDisplay(r: PrecedentAnalysisResult): (v: ConsistencyView)
    ensures v.NoInconsistencies? <==> |r.consistencyCheck| == 0
    ensures v.Issues? ==> v.items == r.consistencyCheck
  {
    if |r.consistencyCheck| > 0 then Issues(r.consistencyCheck) else NoInconsistencies
  }

  /** The bias panel takes the neutral style exactly when the warning contains
      "No potential bias", case-sensitively; any other text is styled as a
      warning. */
  predicate BiasPanelNeutral(r: PrecedentAnalysisResult) {
    Contains(r.biasDetection.warning, NeutralMarker)
  }

  /** A text in which the first character of `sub` never appears does not
      contain `sub`. */
  lemma {:induction false} AbsentFirstChar(s: string, sub: string)
    requires |sub| > 0
    requires forall i :: 0 <= i < |s| ==> s[i] != sub[0]
    ensures !Contains(s, sub)
    decreases |s|
  {
    if s != [] {
      assert |sub| <= |s| ==> s[..|sub|][0] == s[0];
      AbsentFirstChar(s[1..], sub);
    }
  }

  /** The wording the schema suggests for "no bias" is styled neutral; the
      same words in lower case are styled as a warning. */
  lemma BiasStyleExamples(r: PrecedentAnalysisResult)
    ensures r.biasDetection.warning == "No potential bias detected." ==> BiasPanelNeutral(r)
    ensures r.biasDetection.warning == "no potential bias detected." ==> !BiasPanelNeutral(r)
  {
    if r.biasDetection.warning == "No potential bias detected." {
      assert StartsWith(r.biasDetection.warning, NeutralMarker);
    }
    if r.biasDetection.warning == "no potential bias detected." {
      AbsentFirstChar(r.biasDetection.warning, NeutralMarker);
    }
  }

  class AnalysisView {
    var documentText: string
    var fileName: string
    var result: Option<PrecedentAnalysisResult>
    var isLoading: bool
    var error: Option<string>

    function State(): ViewState<PrecedentAnalysisResult>
      reads this
    {
      ViewState(isLoading, error, result)
    }

    constructor ()
      ensures documentText == "" && fileName == ""
      ensures State() == Idle()
    {
      documentText := "";
      fileName := "";
      result := None;
      isLoading := false;
      error := None;
    }

    /** handleFileChange: an accepted file starts a read and changes nothing
        yet; any other choice clears the file name and the document. */
    method FileChosen(file: Option<FileInfo>) returns (reading: bool)
      modifies this`fileName, this`documentText
      ensures reading <==> Accepts(file)
      ensures reading ==> fileName == old(fileName) && documentText == old(documentText)
      ensures !reading ==> fileName == "" && documentText == ""
    {
      reading := Accepts(file);
      if !reading {
        fileName := "";
        documentText := "";
      }
    }

    /** The read completes: the text becomes the document, the file's name is
        shown, and the previous result and error are cleared. */
    method FileLoaded(name: string, text: string)
      modifies this`documentText, this`fileName, this`result, this`error
      ensures documentText == text && fileName == name
      ensures result == None && error == None
    {
      documentText := text;
      fileName := name;
      result := None;
      error := None;
    }

    /** handleAnalyze up to its await: a blank document sets the fixed message
        and makes no call; otherwise the lifecycle starts and the document is
        sent as it is. */
    method HandleAnalyze() returns (call: Option<string>)
      modifies this`isLoading, this`error, this`result
      ensures IsBlank(documentText) ==> call == None && State() == Refuse(old(State()), GuardMessage)
      ensures !IsBlank(documentText) ==> call == Some(documentText) && State() == Begin(old(State()))
    {
      if IsBlank(documentText) {
        error := Some(GuardMessage);
        call := None;
        return;
      }
      isLoading := true;
      error := None;
      result := None;
      call := Some(documentText);
    }

    /** The analysis settles. */
    method AnalysisSettled(outcome: Outcome<PrecedentAnalysisResult>)
      modifies this`isLoading, this`error, this`result
      ensures State() == Settle(old(State()), outcome, FailureMessage)
    {
      match outcome {
        case Ok(r) => result := Some(r);
        case Err(_) => error := Some(FailureMessage);
      }
      isLoading := false;
    }
  }
}
