/** The judge's RAG-based precedent search: a `.txt` document, a question
    about it, and the search lifecycle. */
module PrecedentSearch {
  import opened Core
  import opened Types
  import opened Lifecycle
  import opened Uploads

  const GuardMessage := "Please upload a document and enter a search query."
  const FailureMessage := "An error occurred during the search. The AI model may have returned an invalid response. Please try again."

  /** handleSearch goes ahead only when both the question and the document
      hold more than whitespace. */
  predicate SearchAccepted(query: string, documentText: string) {
    !IsBlank(query) && !IsBlank(documentText)
  }

  /** The Search button is enabled on untrimmed non-emptiness. */
  predicate SearchButtonEnabled(isLoading: bool, query: string, documentText: string) {
    !isLoading && query != "" && documentText != ""
  }

  /** The question box is usable only once a document is loaded and no
      search is running. */
  predicate QueryBoxEnabled(isLoading: bool, documentText: string) {
    !isLoading && documentText != ""
  }

  /** The Search button is never enabled while the question box is disabled,
      and with a document loaded an empty question keeps the button off. */
  lemma SearchNeedsQueryBox(isLoading: bool, query: string, documentText: string)
    ensures SearchButtonEnabled(isLoading, query, documentText) ==> QueryBoxEnabled(isLoading, documentText)
    ensures QueryBoxEnabled(isLoading, documentText) ==>
      (SearchButtonEnabled(isLoading, query, documentText) <==> query != "")
  {
  }

  /** An accepted search is always reachable from the button when not loading,
      while a whitespace-only question enables the button and is refused. */
  lemma ButtonCoversAcceptedSearches(query: string, documentText: string)
    ensures SearchAccepted(query, documentText) ==> SearchButtonEnabled(false, query, documentText)
    ensures SearchButtonEnabled(false, " ", documentText) && !SearchAccepted(" ", documentText)
      <==> documentText != ""
  {
  }

  class SearchView {
    var documentText: string
    var fileName: string
    var query: string
    var result: Option<RagResult>
    var isLoading: bool
    var error: Option<string>

    function State(): ViewState<RagResult>
      reads this
    {
      ViewState(isLoading, error, result)
    }

    constructor ()
      ensures documentText == "" && fileName == "" && query == ""
      ensures State() == Idle()
    {
      documentText := "";
      fileName := "";
      query := "";
      result := None;
      isLoading := false;
      error := None;
    }

    /** handleFileChange: an accepted file starts a read and changes nothing
        yet; any other choice clears the file name and the document. */
    method FileChosen(file: Option<FileInfo>) returns (reading: bool)
      modifies this`fileName, this`documentText
      ensures reading <==> Accepts(file)
      ensures reading ==> fileName == old(fileName) && documentText == old(documentText)
      ensures !reading ==> fileName == "" && documentText == ""
    {
      reading := Accepts(file);
      if !reading {
        fileName := "";
        documentText := "";
      }
    }

    /** The read completes: the text becomes the document, the file's name is
        shown, and the previous result and error are cleared. */
    method FileLoaded(name: string, text: string)
      modifies this`documentText, this`fileName, this`result, this`error
      ensures documentText == text && fileName == name
      ensures result == None && error == None
    {
      documentText := text;
      fileName := name;
      result := None;
      error := None;
    }

    /** The user edits the question. */
    method QueryChanged(text: string)
      modifies this`query
      ensures query == text
    {
      query := text;
    }

    /** handleSearch up to its await: a refused search sets the fixed message
        and makes no call; an accepted one starts the lifecycle and asks the
        service with the question and the document as they are. */
    method HandleSearch() returns (call: Option<(string, string)>)
      modifies this`isLoading, this`error, this`result
      ensures !SearchAccepted(query, documentText) ==>
        call == None && State() == Refuse(old(State()), GuardMessage)
      ensures SearchAccepted(query, documentText) ==>
        call == Some((query, documentText)) && State() == Begin(old(State()))
    {
      var accepted := SearchAccepted(query, documentText);
      if !accepted {
        error := Some(GuardMessage);
        call := None;
        return;
      }
      isLoading := true;
      error := None;
      result := None;
      call := Some((query, documentText));
    }

    /** The search settles. */
    method SearchSettled(outcome: Outcome<RagResult>)
      modifies this`isLoading, this`error, this`result
      ensures State() == Settle(old(State()), outcome, FailureMessage)
    {
      match outcome {
        case Ok(r) => result := Some(r);
        case Err(_) => error := Some(FailureMessage);
      }
      isLoading := false;
    }
  }
}
