/** The request and response schemas of the chat backend (app/schemas/requests.py),
    plus the two response records the handlers build and FastAPI's HTTPException. */
module Schemas {
  import opened Wrappers

  /** The role of a chat message; a string enum whose wire values are below. */
  datatype MessageType = User | Assistant | System

  /** The string value of each enum member. */
  function TypeValue(t: MessageType): string
  {
    match t
    case User => "user"
    case Assistant => "assistant"
    case System => "system"
  }

  /** Validation of a plain string into a MessageType, as the schema does when a
      ChatMessage is built from a database row: only the three enum values pass. */
  function ParseMessageType(s: string): (r: Option<MessageType>)
    ensures r.None? ==> forall t :: TypeValue(t) != s
    ensures r.Some? ==> TypeValue(r.value) == s
  {
    if s == "user" then Some(User)
    else if s == "assistant" then Some(Assistant)
    else if s == "system" then Some(System)
    else None
  }

  /** Parsing undoes TypeValue, and distinct members have distinct values. */
  lemma ParseTypeValue(t: MessageType, u: MessageType)
    ensures ParseMessageType(TypeValue(t)) == Some(t)
    ensures TypeValue(t) == TypeValue(u) ==> t == u
  {
  }

  datatype ChatMessage = ChatMessage(messageType: MessageType, content: string)

  datatype ChatRequest = ChatRequest(messages: seq<ChatMessage>)

  datatype ChatResponse = ChatResponse(responseMessage: ChatMessage, queryUsed: string)

  /** The upload response, as the upload handler fills it in. */
  datatype DocumentUploadResponse = DocumentUploadResponse(message: string, documentId: string, chunksCreated: nat)

  /** The message-list response of the session endpoint. */
  datatype MessageListResponse = MessageListResponse(messages: seq<ChatMessage>)

  /** FastAPI's HTTPException: a status code and a detail text. */
  datatype HttpException = HttpException(statusCode: int, detail: string)
}
