/** The citizen's dashboard: the dispute analysis lifecycle over the mock
    case analysis, which waits and then always returns the same result. */
module CitizenDashboard {
  import opened Core
  import opened Types
  import opened Lifecycle

  const GuardMessage := "Please provide details about your case."
  const FailureMessage := "An error occurred during analysis. Please try again."

  const MockCaseAnalysis := AnalysisResult(
    "Civil - Property Dispute",
    "This case involves a disagreement over a property boundary line between two neighbors. The primary legal issue is determining the accurate boundary based on historical deeds and local zoning regulations. Potential resolutions include mediation or a court-ordered survey.",
    [ Lawyer("John Smith, Esq.", "Real Estate Law", "Cityville", "92%", "jsmith@lawfirm.com"),
      Lawyer("Jane Doe, Esq.", "Property & Mediation", "Cityville", "88%", "jdoe@legal.com") ],
    "\n[Your Name]\n[Your Address]\n[Your City, State, Zip]\n[Date]\n\nClerk of the Court\n[Court Address]\n[City, State, Zip]\n\nRe: Petition to Quiet Title and for Declaratory Relief Regarding Property Boundary\n\nPetitioner, [Your Name], respectfully alleges:\n1. Petitioner is the owner of the real property located at [Your Address].\n2. Respondent, [Neighbor's Name], is the owner of the adjacent property located at [Neighbor's Address].\n3. A dispute has arisen concerning the location of the common boundary line between the two properties.\n... (further details of the dispute) ...\n\nWHEREFORE, Petitioner prays for a judgment:\na) Quieting title to the disputed property in Petitioner's name.\nb) Declaring the true boundary line between the properties.\nc) For such other relief as the Court deems just and proper.\n\nRespectfully submitted,\n______________________\n[Your Name]\n")

  /** The mock getCaseAnalysis: after its delay it settles with the fixed
      result; the dispute text is only logged. */
  function GetCaseAnalysis(disputeText: string): Outcome<AnalysisResult> {
    Ok(MockCaseAnalysis)
  }

  /** The mock never fails, ignores its input, and recommends exactly two lawyers. */
  lemma MockIgnoresInput(a: string, b: string)
    ensures GetCaseAnalysis(a) == GetCaseAnalysis(b)
    ensures GetCaseAnalysis(a).Ok?
    ensures |GetCaseAnalysis(a).value.lawyerRecommendations| == 2
    ensures GetCaseAnalysis(a).value.caseClassification == "Civil - Property Dispute"
  {
  }

  /** With the mock, every accepted analysis ends showing the fixed result and
      no error: the failure message cannot appear. */
  lemma AcceptedAnalysisShowsMock(s: ViewState<AnalysisResult>, disputeText: string)
    ensures Settle(Begin(s), GetCaseAnalysis(disputeText), FailureMessage)
         == ViewState(false, None, Some(MockCaseAnalysis))
  {
  }

  class DashboardView {
    var analysisResult: Option<AnalysisResult>
    var isLoading: bool
    var error: Option<string>

    function State(): ViewState<AnalysisResult>
      reads this
    {
      ViewState(isLoading, error, analysisResult)
    }

    constructor ()
      ensures State() == Idle()
    {
      analysisResult := None;
      isLoading := false;
      error := None;
    }

    /** handleAnalyze up to its await, with the text the form submitted: a
        blank text sets the fixed message and runs no analysis; otherwise the
        lifecycle starts. */
    method HandleAnalyze(disputeText: string) returns (started: bool)
      modifies this`isLoading, this`error, this`analysisResult
      ensures started <==> !IsBlank(disputeText)
      ensures !started ==> State() == Refuse(old(State()), GuardMessage)
      ensures started ==> State() == Begin(old(State()))
    {
      if IsBlank(disputeText) {
        error := Some(GuardMessage);
        return false;
      }
      isLoading := true;
      error := None;
      analysisResult := None;
      return true;
    }

    /** The analysis settles. */
    method AnalysisSettled(outcome: Outcome<AnalysisResult>)
      modifies this`isLoading, this`error, this`analysisResult
      ensures State() == Settle(old(State()), outcome, FailureMessage)
    {
      match outcome {
        case Ok(r) => analysisResult := Some(r);
        case Err(_) => error := Some(FailureMessage);
      }
      isLoading := false;
    }
  }
}
