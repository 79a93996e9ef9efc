/** The chat data model shared by the store, the webhook client and the views
    (app/features/chat/types.ts). A `Date` is its time value in milliseconds
    since the epoch; optional TypeScript fields are `Option`s. */
module ChatTypes {
  import opened Wrappers

  /** A `Date`, as its time value in milliseconds since the epoch. */
  type Timestamp = int

  /** `type?: 'text' | 'audio'` of a message. */
  datatype MessageKind = TextMessage | AudioMessage

  datatype ChatMessage = ChatMessage(
    id: string,
    content: string,
    isUser: bool,
    isLoading: Option<bool>,
    timestamp: Timestamp,
    kind: Option<MessageKind>,
    audioBase64: Option<string>,
    transcription: Option<string>,
    isAudioTranscription: Option<bool>)

  datatype ChatSession = ChatSession(
    id: string,
    title: string,
    createdAt: Timestamp,
    updatedAt: Timestamp,
    messages: seq<ChatMessage>)

  /** `response.type` of a webhook reply. */
  datatype ResponseKind = MessageResponse | AudioResponse

  /** The JSON body the webhook answers with. */
  datatype N8NResponse = N8NResponse(
    kind: ResponseKind,
    data: string,
    transcription: Option<string>,
    userTranscription: Option<string>)
}
