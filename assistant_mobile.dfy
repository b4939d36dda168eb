/** The mobile AI assistant screen: the shared conversation plus voice recognition. */
module AIAssistantScreen {
  import opened Wrappers
  import opened Text
  import opened Assistant

  /** What the screen reads aloud after a request: the message it appended, fallback text included. */
  function SpokenOnMobile(reply: Reply): (r: Option<string>)
    ensures r.Some? <==> reply.Answered?
    ensures r.Some? ==> r.value == ReplyContent(reply)
  {
    if reply.Answered? then Some(ReplyContent(reply)) else None
  }

  /**
   * Both platforms read a non-empty answer aloud (the web page when the
   * browser offers speech synthesis) and stay silent after a failure; only
   * the mobile screen also reads out the "couldn't process" text for an
   * empty answer.
   */
  lemma SpeechDiffers(reply: Reply, speechSupported: bool)
    ensures reply.Answered? && Truthy(reply.response) && speechSupported
            ==> SpokenOnMobile(reply) == SpokenOnWeb(reply, speechSupported)
    ensures reply.Failed? ==> SpokenOnMobile(reply) == None == SpokenOnWeb(reply, speechSupported)
    ensures reply == Answered(None)
            ==> SpokenOnMobile(reply) == Some(FALLBACK_TEXT) && SpokenOnWeb(reply, speechSupported) == None
  {
    ReplyContentSpec(reply);
  }

  class Screen {
    const chat: Chat
    var isListening: bool

    constructor ()
      ensures fresh(chat) && chat.Valid()
      ensures chat.messages == [GREETING] && chat.input == "" && !chat.loading
      ensures !isListening
    {
      chat := new Chat();
      isListening := false;
    }

    /** `onSpeechStart`. */
    method SpeechStart()
      modifies this`isListening
      ensures isListening
    {
      isListening := true;
    }

    /** `onSpeechEnd`. */
    method SpeechEnd()
      modifies this`isListening
      ensures !isListening
    {
      isListening := false;
    }

    /** `onSpeechError`: listening stops, as on a normal end. */
    method SpeechError()
      modifies this`isListening
      ensures !isListening
    {
      isListening := false;
    }

    /** `onSpeechResults`: the first transcript becomes the input; listening is untouched. */
    method SpeechResults(transcripts: seq<string>)
      requires |transcripts| > 0
      modifies chat`input
      ensures chat.input == transcripts[0]
    {
      chat.SetInput(transcripts[0]);
    }

    /** A quick-question button: sends its fixed text, whatever is typed. */
    method QuickQuestion(question: string, reply: Reply, questionId: string, answerId: string) returns (sent: bool)
      requires chat.Valid()
      modifies chat
      ensures chat.Valid()
      ensures sent == !IsBlank(question)
      ensures sent ==> chat.messages == old(chat.messages) + [Message(questionId, question, true),
                                                              Message(answerId, ReplyContent(reply), false)]
    {
      sent := chat.Send(question, reply, questionId, answerId);
    }
  }
}
