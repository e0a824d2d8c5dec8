/** The client's data model, mirroring `src/types.ts`: messages, sessions, the
    shapes the server sends them in, and queued speech audio. Numbers are
    millisecond timestamps; JavaScript `undefined` and `null` are `None`. */
module Types {
  import opened JsString

  datatype Sender = User | AI | System | AIEvaluator

  /** `{ text: string | null }` */
  datatype MessageData = MessageData(text: Option<string>)

  /** A chat message. `isOptimistic` and `isContextMessage` are optional in the
      source and only ever read for truthiness, so absent is `false`. */
  datatype Message = Message(
    id: string,
    sender: Sender,
    timestamp: int,
    data: MessageData,
    imageFilename: Option<string>,
    ttsAudioFilename: Option<string>,
    dataType: Option<string>,
    llmModelUsed: Option<string>,
    isOptimistic: bool,
    isContextMessage: bool)

  /** A chat session as the client holds it. `messagesLoaded` is optional in
      the source and read for truthiness. */
  datatype Session = Session(
    id: string,
    name: string,
    messages: seq<Message>,
    createdAt: int,
    lastUpdatedAt: Option<int>,
    messagesLoaded: bool)

  /** One entry of a `sessions_list` frame: metadata, possibly without messages. */
  datatype ServerSession = ServerSession(
    id: string,
    name: string,
    messages: Option<seq<Message>>,
    createdAt: int,
    lastUpdatedAt: Option<int>)

  /** One entry of a `session_messages_data` frame; `hasData` is false when the
      server omitted the `data` object. */
  datatype ServerMessage = ServerMessage(body: Message, hasData: bool)

  /** A byte of a decoded binary payload. */
  type byte = x: int | 0 <= x < 256

  /** `AudioChunkBuffer`: raw PCM fragments and the time they were queued. */
  datatype AudioChunk = AudioChunk(data: seq<seq<byte>>, startTimestamp: int)
}
