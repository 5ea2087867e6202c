/** The records the views pass around. Where the shared type file defines a
    record its fields are kept; the others are built from the fields the
    components and the mock data read. Timestamps are integer milliseconds
    since the epoch; a relevance score is an exact real between 0 and 1 as
    the reply states it. */
module Types {
  import opened Core

  /** A client's request to an advocate. `status` and `urgency` hold the string
      values the records carry ('Pending' | 'Accepted' | 'Rejected' and
      'Low' | 'Medium' | 'High'). */
  datatype CaseRequest = CaseRequest(
    id: string,
    userName: string,
    caseSummary: string,
    legalDomain: string,
    urgency: string,
    status: string,
    timestamp: int)

  /** One message of the advocate/citizen thread of a case. */
  datatype CaseChatMessage = CaseChatMessage(
    id: string,
    caseId: string,
    role: string,
    text: string,
    timestamp: int)

  datatype Sender = User | Bot

  /** One message of the general legal chatbot. */
  datatype ChatMessage = ChatMessage(sender: Sender, text: string)

  datatype RagResult = RagResult(answer: string, citations: seq<string>)

  datatype KeyArguments = KeyArguments(plaintiff: string, defendant: string)
  datatype InfluencingStatute = InfluencingStatute(statute: string, quote: string, relevance: string)
  datatype ConsistencyCheck = ConsistencyCheck(issue: string, explanation: string)
  datatype BiasDetection = BiasDetection(warning: string)

  datatype PrecedentAnalysisResult = PrecedentAnalysisResult(
    keyArguments: KeyArguments,
    influencingStatutes: seq<InfluencingStatute>,
    consistencyCheck: seq<ConsistencyCheck>,
    biasDetection: BiasDetection)

  datatype Lawyer = Lawyer(name: string, specialization: string, location: string, successRate: string, contact: string)

  datatype AnalysisResult = AnalysisResult(
    caseClassification: string,
    legalSummary: string,
    lawyerRecommendations: seq<Lawyer>,
    petitionDraft: string)

  /** What the case chat's "suggest next steps" call returns; a missing
      `clarification_needed` is `None`. */
  datatype NextStepsResponse = NextStepsResponse(suggestions: seq<string>, clarificationNeeded: Option<string>)

  datatype BiasFinding = BiasFinding(phrase: string, biasType: string, explanation: string, suggestion: string)

  /** `has_bias` is whatever the parsed reply holds: `Some(b)` for a boolean,
      `None` when it is missing or not a boolean. */
  datatype BiasAnalysisResult = BiasAnalysisResult(hasBias: Option<bool>, findings: seq<BiasFinding>)

  datatype SimilarCase = SimilarCase(
    caseTitle: string,
    citationOrYear: string,
    courtName: string,
    relevanceScore: real,
    summaryOfDecision: string,
    legalTakeaway: string,
    keySectionsCited: seq<string>)

  datatype SimilarCaseAnalysisResult = SimilarCaseAnalysisResult(
    caseContextSummary: string,
    overallSummary: string,
    similarCasesFound: seq<SimilarCase>,
    suggestedAction: string)

  datatype PipelineCase = PipelineCase(caseTitle: string, citation: string, courtName: string)
  datatype RagSection = RagSection(section: string, summary: string)

  datatype AIResearchPipelineResult = AIResearchPipelineResult(
    caseContext: string,
    similarCases: seq<PipelineCase>,
    ragResults: seq<RagSection>,
    finalSummary: string,
    argumentSuggestion: string)
}
