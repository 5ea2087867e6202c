/** The advocate's legal draft generator: a draft type, two text fields, the
    generation lifecycle and the copy button. */
module LegalDraftGenerator {
  import opened Core
  import opened Lifecycle

  const GuardMessage := "Please provide both case context and key points to include."
  const FailureMessage := "An error occurred while generating the draft. Please try again."

  /** The four document types the selector offers. */
  const DraftTypes: seq<string> := ["Legal Notice", "Affidavit", "Cease and Desist", "Vakalatnama"]

  type DraftType = s: string | s in DraftTypes witness "Legal Notice"

  const DefaultDraftType: DraftType := "Legal Notice"

  /** The handler goes ahead only when both fields hold more than whitespace. */
  predicate GenerateAccepted(caseContext: string, keyPoints: string) {
    !IsBlank(caseContext) && !IsBlank(keyPoints)
  }

  /** The Generate button is enabled on untrimmed non-emptiness of both fields. */
  predicate GenerateButtonEnabled(isLoading: bool, caseContext: string, keyPoints: string) {
    !isLoading && caseContext != "" && keyPoints != ""
  }

  /** Every request the handler accepts can be made from the button when not
      loading; a whitespace-only field enables the button yet is refused. */
  lemma ButtonLooserThanGuard(caseContext: string, keyPoints: string)
    ensures GenerateAccepted(caseContext, keyPoints) ==> GenerateButtonEnabled(false, caseContext, keyPoints)
    ensures keyPoints != "" ==>
      GenerateButtonEnabled(false, "\n", keyPoints) && !GenerateAccepted("\n", keyPoints)
  {
    assert IsBlank("") && IsBlank("\n");
  }

  /** The default type is the first of the offered types. */
  lemma DefaultIsOffered()
    ensures DefaultDraftType == DraftTypes[0]
    ensures |DraftTypes| == 4
  {
  }

  class DraftView {
    var draftType: DraftType
    var caseContext: string
    var keyPoints: string
    var result: Option<string>
    var isLoading: bool
    var error: Option<string>

    function State(): ViewState<string>
      reads this
    {
      ViewState(isLoading, error, result)
    }

    constructor ()
      ensures draftType == DefaultDraftType && caseContext == "" && keyPoints == ""
      ensures State() == Idle()
    {
      draftType := DefaultDraftType;
      caseContext := "";
      keyPoints := "";
      result := None;
      isLoading := false;
      error := None;
    }

    /** The user picks one of the offered types. */
    method DraftTypeChanged(t: DraftType)
      modifies this`draftType
      ensures draftType == t
    {
      draftType := t;
    }

    method CaseContextChanged(text: string)
      modifies this`caseContext
      ensures caseContext == text
    {
      caseContext := text;
    }

    method KeyPointsChanged(text: string)
      modifies this`keyPoints
      ensures keyPoints == text
    {
      keyPoints := text;
    }

    /** handleGenerate up to its await: refused with the fixed message and no
        call unless both fields hold text; otherwise the lifecycle starts and
        the type and both fields are sent as they are. */
    method HandleGenerate() returns (call: Option<(DraftType, string, string)>)
      modifies this`isLoading, this`error, this`result
      ensures !GenerateAccepted(caseContext, keyPoints) ==>
        call == None && State() == Refuse(old(State()), GuardMessage)
      ensures GenerateAccepted(caseContext, keyPoints) ==>
        call == Some((draftType, caseContext, keyPoints)) && State() == Begin(old(State()))
    {
      if !GenerateAccepted(caseContext, keyPoints) {
        error := Some(GuardMessage);
        call := None;
        return;
      }
      isLoading := true;
      error := None;
      result := None;
      call := Some((draftType, caseContext, keyPoints));
    }

    /** The generation settles. */
    method GenerateSettled(outcome: Outcome<string>)
      modifies this`isLoading, this`error, this`result
      ensures State() == Settle(old(State()), outcome, FailureMessage)
    {
      match outcome {
        case Ok(draft) => result := Some(draft);
        case Err(_) => error := Some(FailureMessage);
      }
      isLoading := false;
    }

    /** handleCopyToClipboard: copies the draft only when there is one and it
        is not the empty text (which JavaScript treats as false). */
    method HandleCopy() returns (copied: Option<string>)
      ensures copied.Some? <==> result.Some? && result.value != ""
      ensures copied.Some? ==> copied.value == result.value
    {
      if result.Some? && result.value != "" {
        copied := Some(result.value);
      } else {
        copied := None;
      }
    }
  }
}
