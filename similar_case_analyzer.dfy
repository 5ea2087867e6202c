/** The similar-case analyzer: case facts, the analysis lifecycle, and one
    card per case found. */
module SimilarCaseAnalyzer {
  import opened Core
  import opened Types
  import opened Lifecycle
  import CaseResultCard

  const GuardMessage := "Please provide the case facts to analyze."
  const FailureMessage := "An error occurred while finding similar cases. The AI model may have returned an invalid response. Please try again."

  /** The cards of a result: one per case found, in result order. */
  function Cards(found: seq<SimilarCase>): (cards: seq<CaseResultCard.Card>)
    ensures |cards| == |found|
    ensures forall i :: 0 <= i < |found| ==> cards[i] == CaseResultCard.CardFor(found[i])
  {
    if found == [] then [] else [CaseResultCard.CardFor(found[0])] + Cards(found[1..])
  }

  /** The cards of two result lists placed one after the other are the cards
      of each list, one after the other. */
  lemma {:induction false} CardsConcat(a: seq<SimilarCase>, b: seq<SimilarCase>)
    ensures Cards(a + b) == Cards(a) + Cards(b)
  {
    if a != [] {
      assert (a + b)[1..] == a[1..] + b;
      CardsConcat(a[1..], b);
    } else {
      assert a + b == b;
    }
  }

  /** The Find button is enabled on untrimmed non-emptiness. */
  predicate AnalyzeButtonEnabled(isLoading: bool, caseFacts: string) {
    !isLoading && caseFacts != ""
  }

  /** Every text the handler accepts can be sent from the button when not
      loading, while whitespace alone enables the button and is refused. The
      second clause only records the button's definition for whitespace; the
      first clause and the `" "` witness carry the gap between the two tests. */
  lemma ButtonCoversAcceptedRuns(caseFacts: string)
    ensures !IsBlank(caseFacts) ==> AnalyzeButtonEnabled(false, caseFacts)
    ensures caseFacts != [] && IsBlank(caseFacts) ==> AnalyzeButtonEnabled(false, caseFacts)
    ensures AnalyzeButtonEnabled(false, " ") && IsBlank(" ")
  {
  }

  class AnalyzerView {
    var caseFacts: string
    var result: Option<SimilarCaseAnalysisResult>
    var isLoading: bool
    var error: Option<string>

    function State(): ViewState<SimilarCaseAnalysisResult>
      reads this
    {
      ViewState(isLoading, error, result)
    }

    constructor ()
      ensures caseFacts == "" && State() == Idle()
    {
      caseFacts := "";
      result := None;
      isLoading := false;
      error := None;
    }

    method CaseFactsChanged(text: string)
      modifies this`caseFacts
      ensures caseFacts == text
    {
      caseFacts := text;
    }

    /** handleAnalyze up to its await: blank facts set the fixed message and
        make no call; otherwise the lifecycle starts and the facts are sent. */
    method HandleAnalyze() returns (call: Option<string>)
      modifies this`isLoading, this`error, this`result
      ensures IsBlank(caseFacts) ==> call == None && State() == Refuse(old(State()), GuardMessage)
      ensures !IsBlank(caseFacts) ==> call == Some(caseFacts) && State() == Begin(old(State()))
    {
      if IsBlank(caseFacts) {
        error := Some(GuardMessage);
        call := None;
        return;
      }
      isLoading := true;
      error := None;
      result := None;
      call := Some(caseFacts);
    }

    /** The analysis settles. */
    method AnalysisSettled(outcome: Outcome<SimilarCaseAnalysisResult>)
      modifies this`isLoading, this`error, this`result
      ensures State() == Settle(old(State()), outcome, FailureMessage)
    {
      match outcome {
        case Ok(r) => result := Some(r);
        case Err(_) => error := Some(FailureMessage);
      }
      isLoading := false;
    }

    /** The cards on screen: those of the stored result, or none. */
    function ShownCards(): (cards: seq<CaseResultCard.Card>)
      reads this
      ensures result.None? ==> cards == []
      ensures result.Some? ==> cards == Cards(result.value.similarCasesFound)
      ensures result.Some? ==> |cards| == |result.value.similarCasesFound|
    {
      if result.Some? then Cards(result.value.similarCasesFound) else []
    }
  }
}
