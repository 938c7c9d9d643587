/**
 * The vocabulary of the realtime control channel: inbound server events (a closed
 * variant per recognised `type` string, with a catch-all for the rest), the
 * outbound client events the consoles send, transcript messages, and the
 * data channel's ready state that gates every send.
 */
module RealtimeEvents {
  import opened Common

  /** One transcript entry of the message list. */
  datatype Message = Message(id: string, role: string, text: string)

  /** `item.content[k]`: a content part may carry `text`, `transcript`, both or neither. */
  datatype ContentPart = ContentPart(text: Option<string>, transcript: Option<string>)

  /** `event.item` of `conversation.item.created`. */
  datatype Item = Item(id: string, itemType: string, role: string, content: seq<ContentPart>)

  /** `JSON.parse(event.arguments)` of a tool call: `Unparsable` when the parse throws (the
      handler's catch block); otherwise the parsed value's `field` and `value` properties, each
      None when the property is absent (reading it gives `undefined`). A present property is
      given by its string form. */
  datatype ToolArgs = Unparsable | Parsed(field: Option<string>, value: Option<string>)

  /** Inbound control-channel messages, one variant per `type` string a console switches on. */
  datatype ServerEvent =
    | Error(message: Option<string>)                                    // error
    | SessionCreated                                                    // session.created
    | SessionUpdated                                                    // session.updated
    | ItemCreated(item: Item)                                           // conversation.item.created
    | ItemDeleted(itemId: string)                                       // conversation.item.deleted
    | ItemTruncated(itemId: string)                                     // conversation.item.truncated
    | InputTranscriptionCompleted(itemId: string, transcript: string)   // conversation.item.input_audio_transcription.completed
    | InputTranscriptionFailed                                          // conversation.item.input_audio_transcription.failed
    | TextDelta(itemId: string, delta: string)                          // response.text.delta
    | TextDone(itemId: string, text: string)                            // response.text.done
    | AudioTranscriptDelta(itemId: string, delta: string)               // response.audio_transcript.delta
    | AudioTranscriptDone(itemId: string, transcript: string)           // response.audio_transcript.done
    | SpeechStarted                                                     // input_audio_buffer.speech_started
    | SpeechStopped                                                     // input_audio_buffer.speech_stopped
    | BufferCommitted                                                   // input_audio_buffer.committed
    | AudioDelta                                                        // response.audio.delta
    | AudioDone                                                         // response.audio.done
    | ResponseDone                                                      // response.done
    | FunctionCallArgumentsDone(name: string, callId: string, arguments: ToolArgs)
                                                                        // response.function_call_arguments.done
    | Unrecognised(typeName: string)                                    // any other type

  /** The `type` strings of the recognised variants. */
  const KnownTypes: set<string> := {
    "error", "session.created", "session.updated", "conversation.item.created",
    "conversation.item.deleted", "conversation.item.truncated",
    "conversation.item.input_audio_transcription.completed",
    "conversation.item.input_audio_transcription.failed",
    "response.text.delta", "response.text.done",
    "response.audio_transcript.delta", "response.audio_transcript.done",
    "input_audio_buffer.speech_started", "input_audio_buffer.speech_stopped",
    "input_audio_buffer.committed", "response.audio.delta", "response.audio.done",
    "response.done", "response.function_call_arguments.done"
  }

  /** The wire `type` of an inbound event. */
  function TypeName(e: ServerEvent): (t: string)
    ensures !e.Unrecognised? ==> t in KnownTypes
    ensures e.Unrecognised? ==> t == e.typeName
  {
    match e
    case Error(_) => "error"
    case SessionCreated => "session.created"
    case SessionUpdated => "session.updated"
    case ItemCreated(_) => "conversation.item.created"
    case ItemDeleted(_) => "conversation.item.deleted"
    case ItemTruncated(_) => "conversation.item.truncated"
    case InputTranscriptionCompleted(_, _) => "conversation.item.input_audio_transcription.completed"
    case InputTranscriptionFailed => "conversation.item.input_audio_transcription.failed"
    case TextDelta(_, _) => "response.text.delta"
    case TextDone(_, _) => "response.text.done"
    case AudioTranscriptDelta(_, _) => "response.audio_transcript.delta"
    case AudioTranscriptDone(_, _) => "response.audio_transcript.done"
    case SpeechStarted => "input_audio_buffer.speech_started"
    case SpeechStopped => "input_audio_buffer.speech_stopped"
    case BufferCommitted => "input_audio_buffer.committed"
    case AudioDelta => "response.audio.delta"
    case AudioDone => "response.audio.done"
    case ResponseDone => "response.done"
    case FunctionCallArgumentsDone(_, _, _) => "response.function_call_arguments.done"
    case Unrecognised(t) => t
  }

  /** Outbound client events. */
  datatype ClientEvent =
    | UserText(text: string)                          // conversation.item.create, a user input_text message
    | FunctionCallOutput(callId: string, output: string) // conversation.item.create, a function_call_output item
    | ResponseCreate                                  // response.create
    | BufferClear                                     // input_audio_buffer.clear
    | BufferCommit                                    // input_audio_buffer.commit
    | SessionUpdate                                   // session.update; the configuration object is not modelled

  /** The wire `type` of an outbound event. */
  function ClientTypeName(e: ClientEvent): string
  {
    match e
    case UserText(_) => "conversation.item.create"
    case FunctionCallOutput(_, _) => "conversation.item.create"
    case ResponseCreate => "response.create"
    case BufferClear => "input_audio_buffer.clear"
    case BufferCommit => "input_audio_buffer.commit"
    case SessionUpdate => "session.update"
  }

  /** `RTCDataChannel.readyState`. */
  datatype ReadyState = Connecting | Open | Closing | Closed

  /** `dcRef.current`: no channel yet (null), or a channel in some ready state. */
  datatype DataChannel = NoChannel | Channel(readyState: ReadyState)

  /** The send gate: `dcRef.current && dcRef.current.readyState === 'open'`. */
  predicate CanSend(dc: DataChannel)
  {
    dc.Channel? && dc.readyState == Open
  }

  /** What `sendEvent` puts on the wire: the event if the gate is open, nothing otherwise. */
  function Transmit(dc: DataChannel, e: ClientEvent): (wire: seq<ClientEvent>)
    ensures |wire| <= 1
    ensures wire == [e] <==> dc == Channel(Open)
    ensures wire == [] <==> dc != Channel(Open)
  {
    if CanSend(dc) then [e] else []
  }
}
