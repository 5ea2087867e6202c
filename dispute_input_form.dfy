/** The citizen's dispute form: typed or uploaded text, forwarded as it is. */
module DisputeInputForm {
  import opened Core
  import opened Uploads

  /** Submit is enabled when not loading and the text is not empty; the text
      is not trimmed here. */
  predicate SubmitEnabled(isLoading: bool, disputeText: string) {
    !isLoading && disputeText != ""
  }

  /** Every text the dashboard's guard accepts can be submitted when not
      loading, and so can any non-empty whitespace-only text, which the
      dashboard's guard then refuses. The second clause only records Submit's
      definition for whitespace; the first clause and the `" "` witness carry
      the gap between the two tests. */
  lemma WhitespaceReachesDashboard(disputeText: string)
    ensures !IsBlank(disputeText) ==> SubmitEnabled(false, disputeText)
    ensures disputeText != [] && IsBlank(disputeText) ==> SubmitEnabled(false, disputeText)
    ensures SubmitEnabled(false, " ") && IsBlank(" ")
  {
  }

  class DisputeForm {
    var disputeText: string
    var fileName: string

    constructor ()
      ensures disputeText == "" && fileName == ""
    {
      disputeText := "";
      fileName := "";
    }

    method DisputeTextChanged(text: string)
      modifies this`disputeText
      ensures disputeText == text
    {
      disputeText := text;
    }

    /** handleFileChange: an accepted file starts a read and changes nothing
        yet; any other choice clears the file name and keeps the typed text. */
    method FileChosen(file: Option<FileInfo>) returns (reading: bool)
      modifies this`fileName
      ensures reading <==> Accepts(file)
      ensures reading ==> fileName == old(fileName)
      ensures !reading ==> fileName == ""
    {
      reading := Accepts(file);
      if !reading {
        fileName := "";
      }
    }

    /** The read completes: the file's text replaces the typed text and its
        name is shown. */
    method FileLoaded(name: string, text: string)
      modifies this`disputeText, this`fileName
      ensures disputeText == text && fileName == name
    {
      disputeText := text;
      fileName := name;
    }

    /** handleSubmit: hands the current text, untrimmed, to `onAnalyze`. */
    method HandleSubmit() returns (forwarded: string)
      ensures forwarded == disputeText
    {
      forwarded := disputeText;
    }
  }
}
