/** The general legal chatbot: a transcript that opens with a greeting, a
    guarded send, and exactly one bot reply (or the fixed apology) per send. */
module Chatbot {
  import opened Core
  import opened Types

  const Greeting := "Hello! How can I help you with your general legal questions today?"
  const ErrorReply := "Sorry, I encountered an error. Please try again."

  /** The transcript's shape: the greeting, then user and bot turns
      alternating; it ends on a user turn exactly while a reply is pending. */
  predicate WellFormedTranscript(messages: seq<ChatMessage>, pending: bool) {
    && |messages| >= 1
    && messages[0] == ChatMessage(Bot, Greeting)
    && (forall i :: 1 <= i < |messages| ==> messages[i].sender == (if i % 2 == 1 then User else Bot))
    && (pending <==> |messages| % 2 == 0)
  }

  /** The number of user turns in a transcript. */
  function UserTurns(messages: seq<ChatMessage>): (n: nat)
    ensures n <= |messages|
  {
    if messages == [] then 0
    else UserTurns(messages[..|messages| - 1]) + (if messages[|messages| - 1].sender == User then 1 else 0)
  }

  /** When no reply is pending, every user turn has had its one reply: the
      transcript is the greeting plus two messages per send. */
  lemma {:induction false} IdleTranscriptPairsTurns(messages: seq<ChatMessage>)
    requires WellFormedTranscript(messages, false)
    ensures |messages| == 2 * UserTurns(messages) + 1
  {
    if |messages| > 1 {
      var shorter := messages[..|messages| - 2];
      assert shorter[..|shorter|] == shorter;
      assert messages[..|messages| - 1][..|messages| - 2] == shorter;
      assert messages[|messages| - 1].sender == Bot;
      assert messages[|messages| - 2].sender == User;
      assert WellFormedTranscript(shorter, false) by {
        forall i | 1 <= i < |shorter|
          ensures shorter[i].sender == (if i % 2 == 1 then User else Bot)
        {
          assert shorter[i] == messages[i];
        }
      }
      IdleTranscriptPairsTurns(shorter);
    } else {
      assert messages[..0] == [];
    }
  }

  /** The chatbot window's state. */
  class ChatWindow {
    var messages: seq<ChatMessage>
    var input: string
    var isLoading: bool
    var hasSession: bool

    ghost predicate Valid()
      reads this
    {
      WellFormedTranscript(messages, isLoading)
    }

    /** On mount: the greeting alone, an empty box, no session yet. */
    constructor ()
      ensures Valid()
      ensures messages == [ChatMessage(Bot, Greeting)]
      ensures input == "" && !isLoading && !hasSession
    {
      messages := [ChatMessage(Bot, Greeting)];
      input := "";
      isLoading := false;
      hasSession := false;
    }

    /** The mount effect creates the chat session. */
    method OpenSession()
      modifies this`hasSession
      ensures hasSession
    {
      hasSession := true;
    }

    /** The user edits the message box. */
    method InputChanged(text: string)
      modifies this`input
      ensures input == text
    {
      input := text;
    }

    /** handleSend up to its await: ignored when the input is blank, a reply is
        pending or no session exists; otherwise the untrimmed input is appended
        as a user turn and sent, the box is cleared and loading is raised. */
    method HandleSend() returns (sent: Option<string>)
      requires Valid()
      modifies this`messages, this`input, this`isLoading
      ensures Valid()
      ensures IsBlank(old(input)) || old(isLoading) || !hasSession ==>
        sent == None && messages == old(messages) && input == old(input) && isLoading == old(isLoading)
      ensures !(IsBlank(old(input)) || old(isLoading) || !hasSession) ==>
        && sent == Some(old(input))
        && messages == old(messages) + [ChatMessage(User, old(input))]
        && input == ""
        && isLoading
    {
      if IsBlank(input) || isLoading || !hasSession {
        sent := None;
        return;
      }
      sent := Some(input);
      messages := messages + [ChatMessage(User, input)];
      input := "";
      isLoading := true;
    }

    /** The reply settles: exactly one bot turn is appended, the reply text or
        the fixed apology, and loading is lowered. */
    method ReplySettled(outcome: Outcome<string>)
      requires Valid() && isLoading
      modifies this`messages, this`isLoading
      ensures Valid() && !isLoading
      ensures messages == old(messages) + [ChatMessage(Bot, if outcome.Ok? then outcome.value else ErrorReply)]
    {
      var text := if outcome.Ok? then outcome.value else ErrorReply;
      messages := messages + [ChatMessage(Bot, text)];
      isLoading := false;
    }
  }
}
