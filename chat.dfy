/** The stub chat endpoint (app/api/chat.py): the reply is built from the first
    request message alone, with no model call. */
module Chat {
  import opened Schemas

  const AnswerPrefix := "I am answering the question: "
  const QueryPrefix := "Question: "

  /** The endpoint. The handler indexes messages[0] without a guard, so a request
      with no messages is outside its domain. The reply is an assistant message whose
      text is AnswerPrefix followed by the question; queryUsed is QueryPrefix followed
      by the question. */
  function Chat(request: ChatRequest): (response: ChatResponse)
    requires |request.messages| > 0
    ensures response.responseMessage.messageType == Assistant
    ensures AnswerPrefix <= response.responseMessage.content
    ensures QueryPrefix <= response.queryUsed
  {
    var question := request.messages[0].content;
    ChatResponse(ChatMessage(Assistant, AnswerPrefix + question), QueryPrefix + question)
  }

  /** The question can be read back from both parts of the response. */
  lemma QuestionRecoverable(request: ChatRequest)
    requires |request.messages| > 0
    ensures Chat(request).responseMessage.content[|AnswerPrefix|..] == request.messages[0].content
    ensures Chat(request).queryUsed[|QueryPrefix|..] == request.messages[0].content
  {
  }

  /** Two requests get the same response exactly when their first messages have the
      same content: the first message's type and every later message are ignored. */
  lemma ChatDependsOnlyOnFirstContent(a: ChatRequest, b: ChatRequest)
    requires |a.messages| > 0 && |b.messages| > 0
    ensures Chat(a) == Chat(b) <==> a.messages[0].content == b.messages[0].content
  {
    if Chat(a) == Chat(b) {
      QuestionRecoverable(a);
      QuestionRecoverable(b);
    }
  }
}
