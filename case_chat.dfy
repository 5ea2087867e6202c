/** The advocate/citizen chat of one case: read receipts, the "typing"
    indicator, the send guard, and the AI summary and next-step panels. */
module CaseChat {
  import opened Core
  import opened Types
  import MockData

  /** A message shows the read mark when the current user sent it and some
      later message of the thread comes from someone else. */
  predicate HasBeenRead(messages: seq<CaseChatMessage>, index: int, currentRole: string)
    requires 0 <= index < |messages|
  {
    messages[index].role == currentRole
    && exists j :: index < j < |messages| && messages[j].role != currentRole
  }

  /** The index of the last message not sent by `role`, or -1 when there is none. */
  function LastOtherIndex(messages: seq<CaseChatMessage>, role: string): (k: int)
    ensures -1 <= k < |messages|
    ensures k >= 0 ==> messages[k].role != role
    ensures forall j :: k < j < |messages| ==> messages[j].role == role
  {
    if messages == [] then -1
    else if messages[|messages| - 1].role != role then |messages| - 1
    else LastOtherIndex(messages[..|messages| - 1], role)
  }

  /** The read marks are exactly the current user's messages that come before
      the other party's latest message. */
  lemma ReadIffBeforeLastOther(messages: seq<CaseChatMessage>, index: int, currentRole: string)
    requires 0 <= index < |messages|
    ensures HasBeenRead(messages, index, currentRole)
        <==> messages[index].role == currentRole && index < LastOtherIndex(messages, currentRole)
  {
    var k := LastOtherIndex(messages, currentRole);
    if messages[index].role == currentRole && index < k {
      assert index < k < |messages| && messages[k].role != currentRole;
    }
  }

  /** The other party's messages never carry the read mark. */
  lemma OthersNeverRead(messages: seq<CaseChatMessage>, index: int, currentRole: string)
    requires 0 <= index < |messages| && messages[index].role != currentRole
    ensures !HasBeenRead(messages, index, currentRole)
  {
  }

  /** Read marks are closed towards the past: when one of the current user's
      messages is read, so is every earlier one of theirs. */
  lemma ReadMarksPrefixClosed(messages: seq<CaseChatMessage>, earlier: int, later: int, currentRole: string)
    requires 0 <= earlier < later < |messages|
    requires HasBeenRead(messages, later, currentRole)
    requires messages[earlier].role == currentRole
    ensures HasBeenRead(messages, earlier, currentRole)
  {
    var j :| later < j < |messages| && messages[j].role != currentRole;
    assert earlier < j;
  }

  /** The typing indicator is raised when the thread's last message comes from
      the other party. */
  predicate RaisesTyping(messages: seq<CaseChatMessage>, currentRole: string) {
    |messages| > 0 && messages[|messages| - 1].role != currentRole
  }

  /** While the other party has the last word, every message of the current
      user is marked read. */
  lemma TypingImpliesAllRead(messages: seq<CaseChatMessage>, currentRole: string, index: int)
    requires RaisesTyping(messages, currentRole)
    requires 0 <= index < |messages| && messages[index].role == currentRole
    ensures HasBeenRead(messages, index, currentRole)
  {
    assert index < |messages| - 1;
  }

  /** In the seed thread of case REQ003 the advocate's greeting is read by the
      citizen, and the citizen's reply is not read yet. */
  lemma SeedThreadReceipts()
    ensures HasBeenRead(MockData.InitialChatHistory, 0, "advocate")
    ensures !HasBeenRead(MockData.InitialChatHistory, 1, "citizen")
    ensures RaisesTyping(MockData.InitialChatHistory, "advocate")
  {
    assert MockData.InitialChatHistory[1].role != "advocate";
  }

  /** The typing indicator and whether a timer to lower it is pending. */
  datatype Typing = Typing(shown: bool, timerPending: bool)

  const TypingAtMount := Typing(false, false)

  /** The effect that runs when the messages change, as written: the previous
      run's timer is cleared, and only a last message from the other party
      raises the indicator and starts a new 1.5 s timer. */
  function OnMessagesChanged(t: Typing, messages: seq<CaseChatMessage>, currentRole: string): Typing {
    if RaisesTyping(messages, currentRole) then Typing(true, true) else t.(timerPending := false)
  }

  /** The timer fires and lowers the indicator. */
  function OnTypingTimer(t: Typing): Typing
    requires t.timerPending
  {
    Typing(false, false)
  }

  /** As written, the indicator is never raised by a change that leaves the
      current user with the last word. */
  lemma TypingRaisedOnlyByOtherParty(t: Typing, messages: seq<CaseChatMessage>, currentRole: string)
    requires !t.shown && !RaisesTyping(messages, currentRole)
    ensures !OnMessagesChanged(t, messages, currentRole).shown
  {
  }

  /** As written, the indicator can stick: the other party's message raises it,
      and when the current user answers within 1.5 s the timer is cleared and
      nothing lowers the indicator, although the current user has the last word. */
  lemma TypingIndicatorSticks()
    ensures var other := CaseChatMessage("m1", "c", "citizen", "hi", 0);
            var mine := CaseChatMessage("m2", "c", "advocate", "hello", 1);
            var t := OnMessagesChanged(OnMessagesChanged(TypingAtMount, [other], "advocate"), [other, mine], "advocate");
            t.shown && !t.timerPending && !RaisesTyping([other, mine], "advocate")
  {
  }

  /** The effect as evidently intended: the indicator is up exactly while the
      other party has the last word, and only with a timer pending. */
  function OnMessagesChangedFixed(t: Typing, messages: seq<CaseChatMessage>, currentRole: string): (u: Typing)
    ensures u.shown <==> RaisesTyping(messages, currentRole)
    ensures u.shown ==> u.timerPending
  {
    if RaisesTyping(messages, currentRole) then Typing(true, true) else Typing(false, false)
  }

  /** The indicator is up only while the other party has the last word, and
      then with a timer pending that will lower it. */
  predicate TypingConsistent(t: Typing, messages: seq<CaseChatMessage>, currentRole: string) {
    t.shown ==> t.timerPending && RaisesTyping(messages, currentRole)
  }

  /** The corrected effect restores consistency from any state. */
  lemma FixedEffectConsistent(t: Typing, messages: seq<CaseChatMessage>, currentRole: string)
    ensures TypingConsistent(OnMessagesChangedFixed(t, messages, currentRole), messages, currentRole)
  {
  }

  /** A pending timer always lowers the indicator, keeping consistency. */
  lemma TimerLowersTyping(t: Typing, messages: seq<CaseChatMessage>, currentRole: string)
    requires t.timerPending
    ensures !OnTypingTimer(t).shown && !OnTypingTimer(t).timerPending
    ensures TypingConsistent(OnTypingTimer(t), messages, currentRole)
  {
  }

  /** The effect as written does not keep consistency: the sticking case
      starts consistent and ends inconsistent. */
  lemma AsWrittenBreaksConsistency()
    ensures var other := CaseChatMessage("m1", "c", "citizen", "hi", 0);
            var mine := CaseChatMessage("m2", "c", "advocate", "hello", 1);
            var t := OnMessagesChanged(TypingAtMount, [other], "advocate");
            && TypingConsistent(t, [other], "advocate")
            && !TypingConsistent(OnMessagesChanged(t, [other, mine], "advocate"), [other, mine], "advocate")
  {
  }

  const SummaryFallback := "Could not generate a summary at this time."
  const SuggestionsFallbackText := "Sorry, I was unable to generate suggestions at this time."

  /** What the next-steps panel shows. */
  datatype SuggestionView = Clarification(message: string) | SuggestionList(items: seq<string>)

  /** A non-empty `clarification_needed` is shown in place of the suggestion list. */
  function SuggestionDisplay(r: NextStepsResponse): (v: SuggestionView)
    ensures v.Clarification? <==> r.clarificationNeeded.Some? && r.clarificationNeeded.value != ""
    ensures v.Clarification? ==> v.message == r.clarificationNeeded.value
    ensures v.SuggestionList? ==> v.items == r.suggestions
  {
    match r.clarificationNeeded
    case Some(c) => if c != "" then Clarification(c) else SuggestionList(r.suggestions)
    case None => SuggestionList(r.suggestions)
  }

  /** The panel state the chat keeps beside the messages it is given. */
  class ChatPanel {
    var messages: seq<CaseChatMessage>
    var currentUserRole: string
    var input: string
    var isSummarizing: bool
    var summary: Option<string>
    var isSuggesting: bool
    var suggestionsResult: Option<NextStepsResponse>

    constructor (messages: seq<CaseChatMessage>, currentUserRole: string)
      ensures this.messages == messages && this.currentUserRole == currentUserRole
      ensures input == "" && !isSummarizing && summary == None
      ensures !isSuggesting && suggestionsResult == None
    {
      this.messages := messages;
      this.currentUserRole := currentUserRole;
      input := "";
      isSummarizing := false;
      summary := None;
      isSuggesting := false;
      suggestionsResult := None;
    }

    /** The user edits the message box. */
    method InputChanged(text: string)
      modifies this`input
      ensures input == text
    {
      input := text;
    }

    /** handleSend: a blank input is ignored; otherwise the input, untrimmed,
        is handed to `onSendMessage` once and the box is cleared. */
    method HandleSend() returns (sent: Option<string>)
      modifies this`input
      ensures IsBlank(old(input)) ==> sent == None && input == old(input)
      ensures !IsBlank(old(input)) ==> sent == Some(old(input)) && input == ""
    {
      if IsBlank(input) {
        sent := None;
        return;
      }
      sent := Some(input);
      input := "";
    }

    /** handleSummarize up to its await: both result panels are cleared and the
        thread is sent for summarising. */
    method HandleSummarize() returns (history: seq<CaseChatMessage>)
      modifies this`isSummarizing, this`summary, this`suggestionsResult
      ensures isSummarizing && summary == None && suggestionsResult == None
      ensures history == messages
    {
      isSummarizing := true;
      summary := None;
      suggestionsResult := None;
      history := messages;
    }

    /** The summary call settles: its text, or the fixed fallback on failure;
        the busy flag is lowered either way. */
    method SummarySettled(outcome: Outcome<string>)
      modifies this`isSummarizing, this`summary
      ensures summary == Some(if outcome.Ok? then outcome.value else SummaryFallback)
      ensures !isSummarizing
    {
      match outcome {
        case Ok(text) => summary := Some(text);
        case Err(_) => summary := Some(SummaryFallback);
      }
      isSummarizing := false;
    }

    /** handleSuggestNextSteps up to its await: both result panels are cleared
        and the thread is sent for suggestions. */
    method HandleSuggestNextSteps() returns (history: seq<CaseChatMessage>)
      modifies this`isSuggesting, this`summary, this`suggestionsResult
      ensures isSuggesting && summary == None && suggestionsResult == None
      ensures history == messages
    {
      isSuggesting := true;
      summary := None;
      suggestionsResult := None;
      history := messages;
    }

    /** The suggestion call settles: its reply, or an empty list with the fixed
        clarification text on failure; the busy flag is lowered either way. */
    method SuggestionsSettled(outcome: Outcome<NextStepsResponse>)
      modifies this`isSuggesting, this`suggestionsResult
      ensures !isSuggesting
      ensures outcome.Ok? ==> suggestionsResult == Some(outcome.value)
      ensures outcome.Err? ==> suggestionsResult == Some(NextStepsResponse([], Some(SuggestionsFallbackText)))
      ensures outcome.Err? ==> SuggestionDisplay(suggestionsResult.value) == Clarification(SuggestionsFallbackText)
    {
      match outcome {
        case Ok(r) => suggestionsResult := Some(r);
        case Err(_) => suggestionsResult := Some(NextStepsResponse([], Some(SuggestionsFallbackText)));
      }
      isSuggesting := false;
    }
  }
}
