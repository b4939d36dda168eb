/**
 * The AI first-aid assistant's conversation, which the web page and the
 * mobile screen run identically: a greeting, then each question followed
 * by its answer, or by a fixed apology when the request fails.
 */
module Assistant {
  import opened Wrappers
  import opened Text

  /** A chat message; its time stamp is left out. */
  datatype Message = Message(id: string, content: string, isUser: bool)

  const GREETING_TEXT := "Hello! I'm your AI First Aid Assistant. I can help you with emergency first aid guidance. Please describe the situation you're dealing with, and I'll provide step-by-step instructions. Remember: For serious emergencies, always call 108 immediately!"
  const GREETING := Message("1", GREETING_TEXT, false)
  const FALLBACK_TEXT := "I'm sorry, I couldn't process your request. Please try again."
  const ERROR_TEXT := "I'm sorry, there was an error processing your request. Please try again."

  /** How a request to the assistant ends: its JSON's `response` field, or a thrown error. */
  datatype Reply = Answered(response: Option<string>) | Failed

  /** The text of the assistant's message for a reply. */
  function ReplyContent(reply: Reply): (r: string)
    ensures r != ""
  {
    match reply
    case Answered(response) => Or(response, Some(FALLBACK_TEXT)).value
    case Failed => ERROR_TEXT
  }

  /**
   * An answer with a non-empty response shows that response; an empty or
   * missing one shows the "couldn't process" text, a failure the error
   * text, and the two texts are told apart.
   */
  lemma ReplyContentSpec(reply: Reply)
    ensures reply.Answered? && Truthy(reply.response) ==> ReplyContent(reply) == reply.response.value
    ensures reply.Answered? && !Truthy(reply.response) ==> ReplyContent(reply) == FALLBACK_TEXT
    ensures reply.Failed? ==> ReplyContent(reply) == ERROR_TEXT
    ensures FALLBACK_TEXT != ERROR_TEXT
  {
    assert |FALLBACK_TEXT| != |ERROR_TEXT|;
  }

  /** A message made of whitespace alone, which the page does not send. */
  predicate IsBlank(message: string) {
    AllWhitespace(message)
  }

  /** Blank is exactly the page's `!message.trim()` test; the empty message is blank. */
  lemma IsBlankSpec(message: string)
    ensures IsBlank(message) <==> Trim(message) == ""
    ensures IsBlank("")
  {
    TrimEmptyIffAllWhitespace(message);
  }

  const QUICK_QUESTIONS: seq<string> := [
    "How to treat a minor cut?",
    "What to do for choking?",
    "How to help someone having a heart attack?",
    "Treatment for burns",
    "How to stop bleeding?",
    "What to do for allergic reactions?"
  ]

  /** Every quick question survives `trim()`, so each button sends its question. */
  lemma QuickQuestionsAreSent()
    ensures forall q :: q in QUICK_QUESTIONS ==> Trim(q) != "" && !IsBlank(q)
  {
    forall q | q in QUICK_QUESTIONS
      ensures Trim(q) != "" && !IsBlank(q)
    {
      assert !IsWhitespace(q[0]);
      IsBlankSpec(q);
    }
  }

  function UserCount(ms: seq<Message>): nat {
    if ms == [] then 0 else UserCount(ms[..|ms| - 1]) + if ms[|ms| - 1].isUser then 1 else 0
  }

  function ReplyCount(ms: seq<Message>): nat {
    if ms == [] then 0 else ReplyCount(ms[..|ms| - 1]) + if ms[|ms| - 1].isUser then 0 else 1
  }

  /** Every answer comes after a question of its own: no prefix holds more answers than questions. */
  ghost predicate AnswersFollowQuestions(ms: seq<Message>) {
    forall k :: 0 <= k <= |ms| ==> ReplyCount(ms[..k]) <= UserCount(ms[..k])
  }

  /** Appending keeps the order as long as an answer only comes while a question is open. */
  lemma AppendKeepsOrder(ms: seq<Message>, m: Message)
    requires AnswersFollowQuestions(ms)
    requires !m.isUser ==> ReplyCount(ms) < UserCount(ms)
    ensures AnswersFollowQuestions(ms + [m])
    ensures UserCount(ms + [m]) == UserCount(ms) + (if m.isUser then 1 else 0)
    ensures ReplyCount(ms + [m]) == ReplyCount(ms) + (if m.isUser then 0 else 1)
  {
    var t := ms + [m];
    assert t[..|t| - 1] == ms;
    forall k | 0 <= k <= |t|
      ensures ReplyCount(t[..k]) <= UserCount(t[..k])
    {
      if k <= |ms| {
        assert t[..k] == ms[..k];
      } else {
        assert t[..k] == t;
        assert ms[..|ms|] == ms;
      }
    }
  }

  /**
   * A chat log with `pending` questions still open: the greeting comes
   * first, every other question is answered, and no answer comes before
   * its question.
   */
  ghost predicate LogOk(ms: seq<Message>, pending: nat) {
    && |ms| >= 1 && ms[0] == GREETING
    && UserCount(ms[1..]) == ReplyCount(ms[1..]) + pending
    && AnswersFollowQuestions(ms[1..])
  }

  /** A question opens one more request; an answer, while one is open, closes it. */
  lemma AppendToLog(ms: seq<Message>, m: Message, pending: nat)
    requires LogOk(ms, pending)
    requires !m.isUser ==> pending > 0
    ensures LogOk(ms + [m], if m.isUser then pending + 1 else pending - 1)
  {
    AppendKeepsOrder(ms[1..], m);
    assert (ms + [m])[1..] == ms[1..] + [m];
  }

  /** The conversation of one page or screen. */
  class Chat {
    var messages: seq<Message>
    var input: string
    var loading: bool
    /** Requests sent and not yet answered. */
    ghost var pending: nat

    /** The log is well formed, with the requests in flight as its open questions. */
    ghost predicate Valid()
      reads this
    {
      LogOk(messages, pending)
    }

    /** The initial state: the greeting alone, an empty input, not loading. */
    constructor ()
      ensures Valid()
      ensures messages == [GREETING] && input == "" && !loading && pending == 0
    {
      messages := [GREETING];
      input := "";
      loading := false;
      pending := 0;
    }

    /**
     * The synchronous part of `sendMessage`: a blank message changes
     * nothing; otherwise the question is appended under `questionId`
     * (`Date.now()` as text), the input is cleared and loading starts.
     */
    method BeginSend(message: string, questionId: string) returns (sent: bool)
      requires Valid()
      modifies this
      ensures Valid()
      ensures sent == !IsBlank(message)
      ensures sent ==> messages == old(messages) + [Message(questionId, message, true)]
                       && input == "" && loading && pending == old(pending) + 1
      ensures !sent ==> messages == old(messages) && input == old(input)
                        && loading == old(loading) && pending == old(pending)
    {
      sent := !IsBlank(message);
      if !sent {
        return;
      }
      var question := Message(questionId, message, true);
      AppendToLog(messages, question, pending);
      messages := messages + [question];
      input := "";
      loading := true;
      pending := pending + 1;
    }

    /**
     * The rest of `sendMessage`, once the request ends: the answer (or the
     * apology) is appended under `answerId` (the time then, plus one, as
     * text) and loading stops.
     */
    method FinishSend(reply: Reply, answerId: string)
      requires Valid() && pending > 0
      modifies this
      ensures Valid()
      ensures messages == old(messages) + [Message(answerId, ReplyContent(reply), false)]
      ensures !loading && input == old(input) && pending == old(pending) - 1
    {
      var answer := Message(answerId, ReplyContent(reply), false);
      AppendToLog(messages, answer, pending);
      messages := messages + [answer];
      loading := false;
      pending := pending - 1;
    }

    /** `sendMessage(message)` when no other request is in flight. */
    method Send(message: string, reply: Reply, questionId: string, answerId: string) returns (sent: bool)
      requires Valid()
      modifies this
      ensures Valid() && pending == old(pending)
      ensures sent == !IsBlank(message)
      ensures sent ==> messages == old(messages) + [Message(questionId, message, true),
                                                    Message(answerId, ReplyContent(reply), false)]
                       && input == "" && !loading
      ensures !sent ==> messages == old(messages) && input == old(input) && loading == old(loading)
    {
      sent := BeginSend(message, questionId);
      if sent {
        FinishSend(reply, answerId);
      }
    }

    /** The form's submit (web) or the send button (mobile): sends the current input. */
    method SubmitInput(reply: Reply, questionId: string, answerId: string) returns (sent: bool)
      requires Valid()
      modifies this
      ensures Valid()
      ensures sent == !IsBlank(old(input))
      ensures sent ==> messages == old(messages) + [Message(questionId, old(input), true),
                                                    Message(answerId, ReplyContent(reply), false)]
                       && input == ""
      ensures !sent ==> messages == old(messages) && input == old(input)
    {
      sent := Send(input, reply, questionId, answerId);
    }

    /** Typing, or a voice transcript, replaces the input. */
    method SetInput(text: string)
      modifies this`input
      ensures input == text
    {
      input := text;
    }
  }

  /**
   * What the web page reads aloud: only a non-empty response, and only in a
   * browser that offers speech synthesis (`speechSupported`).
   */
  function SpokenOnWeb(reply: Reply, speechSupported: bool): (r: Option<string>)
    ensures r.Some? <==> speechSupported && reply.Answered? && Truthy(reply.response)
    ensures r.Some? ==> r.value == ReplyContent(reply)
  {
    if speechSupported && reply.Answered? && Truthy(reply.response) then reply.response else None
  }
}
