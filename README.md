# Realtime voice consoles: a verified model

This project models the sequential logic of a browser client for a realtime voice assistant, plus its knowledge-base service. Two React consoles talk to the assistant over a WebRTC data channel:

- the general `Console`;
- `HannaConsole`, a reception-desk variant that starts the conversation when a camera sees a visitor.

The modelled logic is:

- **The event classifier.** `handleRealtimeEvent` in each console maps inbound server events, by their `type`, to updates of the transcript, the turn flags and the error.
- **The send gate.** Events are sent only while the data channel is open.
- **The event log.** It keeps the last 50 entries plus the new one.
- **The microphone and turn controls.** These are mute, push-to-talk and disconnect.
- **The visitor-session rules.** These cover:
  - the short-text and noise filters;
  - visitor details saved by a tool call;
  - the 60-second greeting cooldown;
  - the greeting by hour;
  - the noise label.
- **The face-presence hysteresis.** It fires "detected" after four consecutive frames with a face, and "lost" after more than five seconds without one.
- **The event-log filter.**
- **The knowledge-base service.** Search matches are projected into results, and the results are formatted into a context text for the assistant.

The layout is as follows:

- Pure logic is written as datatypes and functions, with lemmas about them:
  - `Transcript`: the list transforms;
  - `Console.Step` and `HannaConsole.Step`: the classifiers;
  - `EventLogger.Filtered`: the log filter;
  - `PineconeService.Project`: the search projection.
- Code that updates refs and state step by step is written as classes whose methods are proved against those functions:
  - `ConsoleControl.ConsoleController`;
  - `HannaControl.HannaController`;
  - `FaceDetection.FaceTracker`.
- `PineconeService.FormatContextForAI` keeps the source's appending loop. It is proved equal to the specification function `FormatContext`.

Environment values are explicit inputs:

- the tick's `Date.now()`;
- the data channel's ready state;
- the analyser's `isSpeechDetected` flag, for the handler that reads it live;
- the local time string answered to `get_current_time`;
- whether the vector index is initialised;
- the outcome of the vector query.

JavaScript falsiness is modelled with `Option<string>`: both an absent value and `""` are falsy. `length` counts UTF-16 code units (`Common.Utf16Length`).

`HannaConsole.jsx` contains two more copies of logic modelled here:

- the greeting, repeated in its welcome screen at lines 133-138;
- the face hysteresis, inline at lines 310-395.

Both copies are written the same way as the parts modelled here, so they are not modelled a second time.

In `HannaConsole.jsx`, `disconnect` runs only from the cleanup of the effect on `[isConnected, disconnect]`, and nothing calls `toggleMute` or `sendTextMessage`. They are modelled as defined (`Release`, `ToggleMute`, `SendTextMessage`).

## Model

| member | source | states |
|---|---|---|
| Common.OrElse | openai-realtime-app/client/src/components/Console.jsx:188 | `a \|\| b` on an optional string is the first operand when it is present and non-empty, otherwise the fallback |
| Common.Includes | openai-realtime-app/client/src/components/HannaConsole.jsx:791 | the executable substring search answers true exactly when the needle occurs at some position |
| Common.Utf16Length | openai-realtime-app/client/src/components/HannaConsole.jsx:809 | JavaScript `length` of a string lies between its number of characters and twice that |
| Common.Utf16LengthBmp | openai-realtime-app/client/src/components/HannaConsole.jsx:809 | for text inside the Basic Multilingual Plane, `length` is the number of characters |
| RealtimeEvents.TypeName | openai-realtime-app/client/src/components/Console.jsx:183-185 | every recognised event has one of the known `type` strings; an unrecognised one keeps its own |
| RealtimeEvents.Transmit | openai-realtime-app/client/src/components/Console.jsx:289-296 | the event goes on the wire exactly when the channel exists and is `open`; otherwise nothing is sent |
| Transcript.HasId | openai-realtime-app/client/src/components/Console.jsx:202 | `find` by id succeeds exactly when some message has that id |
| Transcript.InsertIfUnseen | openai-realtime-app/client/src/components/Console.jsx:201-212 | an unseen id appends the message at the end; a seen id leaves the list unchanged |
| Transcript.AppendDelta | openai-realtime-app/client/src/components/Console.jsx:228-234 | the length, ids and roles are kept; a message with that id gets the delta appended; every other message is untouched |
| Transcript.ReplaceText | openai-realtime-app/client/src/components/Console.jsx:236-242 | the length, ids and roles are kept; a message with that id gets the new text; every other message is untouched |
| Transcript.Remove | openai-realtime-app/client/src/components/Console.jsx:216-218 | no message with that id remains, and every other message is kept |
| Transcript.RemoveKeepsOrder | openai-realtime-app/client/src/components/Console.jsx:216-218 | deletion leaves the remaining messages in their original order (a subsequence) |
| Transcript.RemoveAbsent | openai-realtime-app/client/src/components/Console.jsx:216-218 | deleting an id no message has changes nothing |
| Transcript.RemovePresentUnique | openai-realtime-app/client/src/components/Console.jsx:216-218 | with unique ids, deleting a present id removes exactly one message |
| Transcript.InsertKeepsUnique | openai-realtime-app/client/src/components/Console.jsx:201-212 | dedup-by-id insertion keeps ids unique |
| Transcript.MapsKeepUnique | openai-realtime-app/client/src/components/Console.jsx:220-258 | delta and done transforms keep ids unique |
| Transcript.RemoveKeepsUnique | openai-realtime-app/client/src/components/Console.jsx:216-218 | deletion keeps ids unique |
| Transcript.MapsUnknownIdUnchanged | openai-realtime-app/client/src/components/Console.jsx:228-258 | a delta or done event for an unknown id leaves the transcript unchanged |
| Transcript.MapsKeepIds | openai-realtime-app/client/src/components/Console.jsx:220-258 | delta and done transforms never change the sequence of ids |
| Transcript.AppendAllAt | openai-realtime-app/client/src/components/Console.jsx:228-234 | after N deltas for an id, a matching message's text is its old text followed by the deltas in order; any other message is unchanged |
| Transcript.AppendAllConcatenates | openai-realtime-app/client/src/components/Console.jsx:228-234 | the same for the whole list, which keeps its length and id order |
| Transcript.DoneWins | openai-realtime-app/client/src/components/Console.jsx:236-242 | a done event after any deltas leaves exactly the done text |
| EventLogger.Filtered | openai-realtime-app/client/src/components/EventLogger.jsx:8-13 | the listed entries are no more than the input, and each is an input entry the filter shows |
| EventLogger.FilterAllIsIdentity | openai-realtime-app/client/src/components/EventLogger.jsx:8-13 | `all`, and any value other than `client` and `server`, list every entry unchanged |
| EventLogger.FilterKeepsExactly | openai-realtime-app/client/src/components/EventLogger.jsx:8-13 | the result is an order-preserving subsequence that keeps every shown entry as often as it occurs and no other entry |
| EventLogger.SourceFilter | openai-realtime-app/client/src/components/EventLogger.jsx:10-11 | `client` and `server` each keep exactly the entries from that source, every one as often as it occurs, in order |
| EventLogger.FilterIdempotent | openai-realtime-app/client/src/components/EventLogger.jsx:8-13 | filtering twice with one value is filtering once |
| EventLogger.OtherSourcesOnlyUnfiltered | openai-realtime-app/client/src/components/EventLogger.jsx:9-12 | an entry from another source, such as `webrtc`, is listed only under `all` or an unknown value |
| Console.CreatedText | openai-realtime-app/client/src/components/Console.jsx:207 | the created text is `content[0].text` when it is present and non-empty, otherwise `""` |
| Console.CreatedUnseenAppends | openai-realtime-app/client/src/components/Console.jsx:199-214 | a created `message` with an unseen id appends exactly one message at the end, with that text, and sends nothing |
| Console.CreatedSeenOrOtherUnchanged | openai-realtime-app/client/src/components/Console.jsx:200-213 | a created item that is not a `message`, or whose id is already present, changes nothing |
| Console.StepKeepsIdsUnique | openai-realtime-app/client/src/components/Console.jsx:185-285 | every event keeps transcript ids unique |
| Console.TextEventsKeepIds | openai-realtime-app/client/src/components/Console.jsx:220-258 | delta, done and transcription events keep the id order and the flags, and send nothing |
| Console.DeltaAppends | openai-realtime-app/client/src/components/Console.jsx:228-250 | both kinds of delta append to the matching message only; for an unknown id the state is unchanged |
| Console.DoneReplaces | openai-realtime-app/client/src/components/Console.jsx:220-258 | both kinds of done event, and a completed transcription, replace the matching text wholesale |
| Console.RunDeltas | openai-realtime-app/client/src/components/Console.jsx:228-234 | running text deltas for one item is appending them one after another |
| Console.CreateThenDeltas | openai-realtime-app/client/src/components/Console.jsx:199-234 | create then N deltas gives one new last message whose text is the created text followed by the deltas, in order |
| Console.DoneAfterDeltas | openai-realtime-app/client/src/components/Console.jsx:228-242 | after any deltas, `response.text.done` leaves exactly its own text |
| Console.DeleteRemoves | openai-realtime-app/client/src/components/Console.jsx:216-218 | deletion removes that id and keeps the rest in order; with unique ids it removes one message; an unknown id changes nothing |
| Console.SpeechFlags | openai-realtime-app/client/src/components/Console.jsx:260-266 | speech start sets `isListening`, speech stop clears it, and nothing else changes |
| Console.ErrorRecorded | openai-realtime-app/client/src/components/Console.jsx:186-189 | an error records its message, or "Server error", and leaves the transcript alone |
| Console.IgnoredChangeNothing | openai-realtime-app/client/src/components/Console.jsx:185-285 | event types without a state-changing case, recognised or not, change nothing and send nothing |
| Console.RepliesOnlyToClockTool | openai-realtime-app/client/src/components/Console.jsx:272-284 | the handler sends something exactly for `get_current_time`, and then one function output with the same call id |
| Console.Kept | openai-realtime-app/client/src/components/Console.jsx:382 | `slice(-50)` keeps all entries of a short log and exactly 50 of a longer one |
| Console.Appended | openai-realtime-app/client/src/components/Console.jsx:381-383 | the new log is the last (up to) 50 old entries, in order, followed by the new entry |
| Console.Toggled | openai-realtime-app/client/src/components/Console.jsx:350-358 | without a stream nothing changes; otherwise the flag flips and the track takes the old flag |
| Console.ToggleKeepsConsistent | openai-realtime-app/client/src/components/Console.jsx:350-358 | toggling keeps the track enabled exactly when the microphone is unmuted |
| Console.ToggleTwice | openai-realtime-app/client/src/components/Console.jsx:350-358 | toggling twice always restores the mute flag, and the whole state exactly when the track agreed with the flag |
| Console.AcquiredConsistentIffUnmuted | openai-realtime-app/client/src/components/Console.jsx:76-78 | a fresh stream agrees with the mute flag exactly when unmuted; since `disconnect` keeps `isMuted`, reconnecting after muting gives a live track under a muted flag |
| ConsoleControl.ConsoleController.constructor | openai-realtime-app/client/src/components/Console.jsx:12-25 | the initial state has no channel, no stream, no messages, an empty log and nothing sent |
| ConsoleControl.ConsoleController.ChannelCreated | openai-realtime-app/client/src/components/Console.jsx:84-87 | the new data channel is held in the connecting state |
| ConsoleControl.ConsoleController.ChannelOpened | openai-realtime-app/client/src/components/Console.jsx:90-116 | on open the console is connected, logs the open and sends (and logs) the session configuration |
| ConsoleControl.ConsoleController.WelcomeTimerFired | openai-realtime-app/client/src/components/Console.jsx:117-120 | the welcome text goes through `sendTextMessage`: sent and logged, then `response.create` outside voice-activity mode, only while the channel is open |
| ConsoleControl.ConsoleController.ChannelClosed | openai-realtime-app/client/src/components/Console.jsx:124-128 | on close the console is disconnected and logs the close; when it was connected, the cleanup of the effect on `[isConnected, disconnect]` (lines 415-421) then releases everything, clears messages and listening, and logs `disconnected`; otherwise nothing else changes |
| ConsoleControl.ConsoleController.ChannelFailed | openai-realtime-app/client/src/components/Console.jsx:130-134 | a channel error is logged and reported |
| ConsoleControl.ConsoleController.LogEvent | openai-realtime-app/client/src/components/Console.jsx:381-383 | the log keeps its last 50 entries and appends the new one, so it never exceeds 51 |
| ConsoleControl.ConsoleController.SendEvent | openai-realtime-app/client/src/components/Console.jsx:289-296 | the wire and the log grow exactly when the channel is open |
| ConsoleControl.ConsoleController.HandleEvent | openai-realtime-app/client/src/components/Console.jsx:182-285 | the event is logged, the state becomes the classifier's result, and its reply goes through the gate |
| ConsoleControl.ConsoleController.SendTextMessage | openai-realtime-app/client/src/components/Console.jsx:299-320 | blank text sends and logs nothing; otherwise the message goes out, then `response.create` unless the mode is voice-activity detection, each logged when it was sent |
| ConsoleControl.ConsoleController.Release | openai-realtime-app/client/src/components/Console.jsx:323-347 | `disconnect`: everything is released, messages are emptied, listening is cleared, the mute flag is kept, and one `disconnected` entry is logged |
| ConsoleControl.ConsoleController.Disconnect | openai-realtime-app/client/src/components/Console.jsx:415-421 | the disconnect button: `disconnect`, then, when connected, the effect cleanup calls it again, so `disconnected` is logged twice |
| ConsoleControl.ConsoleController.StreamAcquired | openai-realtime-app/client/src/components/Console.jsx:76-78 | `setAudioStream`: a stream is held with an enabled track, and the mute flag is kept |
| ConsoleControl.ConsoleController.ToggleMute | openai-realtime-app/client/src/components/Console.jsx:350-358 | the microphone becomes its toggled state, logged only when there was a stream |
| ConsoleControl.ConsoleController.StartPushToTalk | openai-realtime-app/client/src/components/Console.jsx:361-367 | in push-to-talk mode with a channel, it marks pushing and clears the input buffer; otherwise nothing changes |
| ConsoleControl.ConsoleController.StopPushToTalk | openai-realtime-app/client/src/components/Console.jsx:369-378 | while pushing, it clears the flag, commits the buffer, logs the stop and then asks for a response (the 100 ms timer comes last); otherwise nothing is sent or logged |
| FaceDetection.DetectedAtThreshold | openai-realtime-app/client/src/components/FaceDetection.jsx:111-120 | "detected" fires exactly when no face was present and the counter reaches 4; it sets the flag; a face frame never fires "lost" |
| FaceDetection.PresentNeverRefires | openai-realtime-app/client/src/components/FaceDetection.jsx:115 | while a face is present, further face frames fire nothing |
| FaceDetection.LostAfterTimeout | openai-realtime-app/client/src/components/FaceDetection.jsx:122-130 | a frame without a face resets the counter; "lost" fires exactly when a face was present and was last seen more than 5000 ms before, and it clears the flag |
| FaceDetection.NoLostWithinWindow | openai-realtime-app/client/src/components/FaceDetection.jsx:112-125 | within 5000 ms of a face frame, including at the same timestamp, an empty frame cannot fire "lost" |
| FaceDetection.RunAlternates | openai-realtime-app/client/src/components/FaceDetection.jsx:111-130 | over any frame sequence the callbacks alternate, starting with the one the flag allows |
| FaceDetection.DetectedThenLostAlternate | openai-realtime-app/client/src/components/FaceDetection.jsx:111-130 | from the initial refs, "detected" and "lost" strictly alternate, beginning with "detected" |
| FaceDetection.CounterCountsTrailingFaces | openai-realtime-app/client/src/components/FaceDetection.jsx:111-123 | the counter equals the length of the current uninterrupted run of face frames |
| FaceDetection.DetectionNeedsFourInARow | openai-realtime-app/client/src/components/FaceDetection.jsx:111-123 | a "detected" tick is a face frame preceded by at least three more face frames in a row |
| FaceDetection.FaceTracker.constructor | openai-realtime-app/client/src/components/FaceDetection.jsx:31-33 | the refs start at counter 0, no face, last seen 0 |
| FaceDetection.FaceTracker.HandleFacePresent | openai-realtime-app/client/src/components/FaceDetection.jsx:111-120 | it stamps the time, counts the frame and reports "detected" at the threshold, matching the pure step |
| FaceDetection.FaceTracker.HandleFaceAbsent | openai-realtime-app/client/src/components/FaceDetection.jsx:122-130 | it resets the counter and reports "lost" after the timeout, matching the pure step |
| HannaConsole.CreatedText | openai-realtime-app/client/src/components/HannaConsole.jsx:807 | the created text is the truthy `text`, else the truthy `transcript`, else `""` |
| HannaConsole.FillerIsShort | openai-realtime-app/client/src/components/HannaConsole.jsx:810 | any string the case-insensitive filler pattern matches is at most three code units long |
| HannaConsole.AcceptsIffLongerThanThree | openai-realtime-app/client/src/components/HannaConsole.jsx:809-810 | the combined length-and-filler test is exactly `length > 3` |
| HannaConsole.CreatedAcceptedIffLong | openai-realtime-app/client/src/components/HannaConsole.jsx:804-825 | a created message with an unseen id is appended exactly when its text is longer than three code units; otherwise nothing changes |
| HannaConsole.CreatedSeenOrOtherUnchanged | openai-realtime-app/client/src/components/HannaConsole.jsx:805-822 | a non-message item, or an already-present id, changes nothing |
| HannaConsole.TranscriptionNeedsLength | openai-realtime-app/client/src/components/HannaConsole.jsx:831-840 | a transcription replaces text only when it is longer than three code units, and then as the general console does |
| HannaConsole.TextEventsAsConsole | openai-realtime-app/client/src/components/HannaConsole.jsx:846-869 | deltas append and done events replace exactly as in the general console, and nothing else changes |
| HannaConsole.StepKeepsIdsUnique | openai-realtime-app/client/src/components/HannaConsole.jsx:785-932 | every event keeps transcript ids unique |
| HannaConsole.StepOnlyAppends | openai-realtime-app/client/src/components/HannaConsole.jsx:785-932 | no event removes or reorders messages: the old ids are a prefix of the new ones |
| HannaConsole.StepKeepsVisitorFields | openai-realtime-app/client/src/components/HannaConsole.jsx:906-927 | no event drops a visitor field |
| HannaConsole.ErrorFilter | openai-realtime-app/client/src/components/HannaConsole.jsx:787-794 | an error mentioning "noise" or "unclear" is dropped; any other records its message, or "Erro no servidor"; the transcript is never touched |
| HannaConsole.TurnFlags | openai-realtime-app/client/src/components/HannaConsole.jsx:871-894 | speech start counts only while speech is detected, and then also activates the session; speech stop clears listening; audio start and end set speaking |
| HannaConsole.IgnoredChangeNothing | openai-realtime-app/client/src/components/HannaConsole.jsx:785-932 | types without a case, deletion included, change nothing and send nothing |
| HannaConsole.WiredHandlerIgnoresSpeechStart | openai-realtime-app/client/src/components/HannaConsole.jsx:1194-1202 | with the first render's speech flag, speech start changes nothing; with the flag live it sets listening and activates the session |
| HannaConsole.SaveVisitorInfo | openai-realtime-app/client/src/components/HannaConsole.jsx:906-927 | `save_visitor_info` with arguments that parse sets only the computed key (the `field`, or "undefined" when absent) to `value` (or `undefined`), keeps every other field, and replies once with the same call id |
| HannaConsole.FieldlessSaveUnderUndefined | openai-realtime-app/client/src/components/HannaConsole.jsx:908-922 | parsed arguments without `field` are stored under "undefined" and still answered |
| HannaConsole.OtherToolCallsIgnored | openai-realtime-app/client/src/components/HannaConsole.jsx:906-929 | another tool name, or arguments `JSON.parse` rejects, changes nothing and sends nothing |
| HannaConsole.RepliesOnlyToSaves | openai-realtime-app/client/src/components/HannaConsole.jsx:906-927 | the handler sends something exactly for a `save_visitor_info` call whose arguments parse, with or without `field` and `value` |
| HannaConsole.LastWriteWins | openai-realtime-app/client/src/components/HannaConsole.jsx:911-914 | two saves under the same computed key leave the second value |
| HannaConsole.DifferentFieldsCommute | openai-realtime-app/client/src/components/HannaConsole.jsx:911-914 | saves under different computed keys give the same visitor record in either order |
| HannaConsole.GreetingsSpacedOut | openai-realtime-app/client/src/components/HannaConsole.jsx:1139-1150 | over any call times, greetings happen at least 60000 ms after the previous greeting |
| HannaConsole.RepeatWithinCooldownIgnored | openai-realtime-app/client/src/components/HannaConsole.jsx:1143-1150 | a second detection within 60000 ms of a greeting changes nothing |
| HannaConsole.GreetingByPeriod | openai-realtime-app/client/src/components/HannaConsole.jsx:1215-1220 | the greeting is the one for how many of the boundaries 12 h and 18 h the hour has reached |
| HannaConsole.GreetingMonotone | openai-realtime-app/client/src/components/HannaConsole.jsx:1215-1220 | later hours never return to an earlier period, and the greeting changes exactly when the period does |
| HannaConsole.NoiseByThresholds | openai-realtime-app/client/src/components/HannaConsole.jsx:560-565 | the label is the one for how many of the thresholds 10, 30 and 50 the level has reached |
| HannaConsole.NoiseMonotone | openai-realtime-app/client/src/components/HannaConsole.jsx:560-565 | a louder level never shows a quieter label, and the four labels are distinct |
| HannaControl.HannaController.constructor | openai-realtime-app/client/src/components/HannaConsole.jsx:686-712 | the initial state has no channel, an empty session, empty visitor fields, last greeting 0 and fresh detector refs |
| HannaControl.HannaController.ChannelCreated | openai-realtime-app/client/src/components/HannaConsole.jsx:981-982 | the new data channel is held in the connecting state |
| HannaControl.HannaController.ChannelOpened | openai-realtime-app/client/src/components/HannaConsole.jsx:984-1046 | on open the console is connected and sends the session configuration |
| HannaControl.HannaController.ChannelClosed | openai-realtime-app/client/src/components/HannaConsole.jsx:1048-1050 | on close the console is disconnected; when it was connected, the cleanup of the effect on `[isConnected, disconnect]` (lines 1204-1213) then releases everything and clears messages, listening and speaking; otherwise nothing else changes |
| HannaControl.HannaController.ChannelFailed | openai-realtime-app/client/src/components/HannaConsole.jsx:1052-1055 | a channel error sets the connection error message |
| HannaControl.HannaController.SendEvent | openai-realtime-app/client/src/components/HannaConsole.jsx:765-769 | the wire grows exactly when the channel is open |
| HannaControl.HannaController.SendTextMessage | openai-realtime-app/client/src/components/HannaConsole.jsx:771-783 | the user message goes through the gate, with no blank check and no `response.create` |
| HannaControl.HannaController.HandleEvent | openai-realtime-app/client/src/components/HannaConsole.jsx:785-932 | with the analyser's current flag, the state becomes the classifier's result and its reply goes through the gate |
| HannaControl.HannaController.HandleChannelMessage | openai-realtime-app/client/src/components/HannaConsole.jsx:1057-1063 | as wired, the channel calls the first render's handler: the classifier with the initial speech flag, so speech start changes nothing |
| HannaControl.HannaController.HandleFaceDetected | openai-realtime-app/client/src/components/HannaConsole.jsx:1139-1163 | within the cooldown nothing changes; otherwise it stamps the greeting, shows the conversation, activates the session, and asks for a response when connected |
| HannaControl.HannaController.HandleFaceLost | openai-realtime-app/client/src/components/HannaConsole.jsx:1166-1178 | the session becomes inactive |
| HannaControl.HannaController.OnDetectionFrame | openai-realtime-app/client/src/components/HannaConsole.jsx:364-395 | a tick runs the hysteresis step and then exactly the callback it fires, or none |
| HannaControl.HannaController.Release | openai-realtime-app/client/src/components/HannaConsole.jsx:1098-1127 | `disconnect`: everything is released, messages, listening and speaking are cleared, and the mute flag is kept |
| HannaControl.HannaController.StreamAcquired | openai-realtime-app/client/src/components/HannaConsole.jsx:976 | `setAudioStream`: a stream is held with an enabled track, and the mute flag is kept |
| HannaControl.HannaController.ToggleMute | openai-realtime-app/client/src/components/HannaConsole.jsx:1129-1136 | the microphone becomes its toggled state, as in the general console |
| PineconeService.ToResult | openai-realtime-app/server/services/PineconeService.js:59-65 | score, text, summary and source are copied, and absent tags become `[]` |
| PineconeService.Project | openai-realtime-app/server/services/PineconeService.js:59-65 | the mapping succeeds exactly when every match has metadata; it then keeps the length and order |
| PineconeService.SearchSimilar | openai-realtime-app/server/services/PineconeService.js:33-73 | an uninitialised index, or a failed query, yields `[]`; a successful projection keeps the number of matches |
| PineconeService.SearchKeepsMatches | openai-realtime-app/server/services/PineconeService.js:59-67 | with all metadata present, the results follow the matches one for one, with fields copied and tags defaulted |
| PineconeService.MissingMetadataYieldsEmpty | openai-realtime-app/server/services/PineconeService.js:59-71 | one match without metadata makes the whole search come back empty |
| PineconeService.Decimal | openai-realtime-app/server/services/PineconeService.js:117 | the printed number is a non-empty string of decimal digits |
| PineconeService.DecimalRoundTrip | openai-realtime-app/server/services/PineconeService.js:117 | reading the printed number back gives the number |
| PineconeService.DecimalInjective | openai-realtime-app/server/services/PineconeService.js:117 | distinct numbers print differently |
| PineconeService.SourceLine | openai-realtime-app/server/services/PineconeService.js:119-121 | the source line is non-empty exactly when the source is truthy |
| PineconeService.BlockList | openai-realtime-app/server/services/PineconeService.js:116-123 | there is one block per result, in input order, result i numbered k + i |
| PineconeService.FormatContext | openai-realtime-app/server/services/PineconeService.js:108-126 | the result is null exactly when the input is null or empty; otherwise the text starts with the header |
| PineconeService.FormatContextForAI | openai-realtime-app/server/services/PineconeService.js:108-126 | the appending loop returns exactly the header followed by the blocks, or null |
| PineconeService.AppendedBlock | openai-realtime-app/server/services/PineconeService.js:117-122 | the four appends of one iteration add exactly that result's block |
| PineconeService.BlocksNumbered | openai-realtime-app/server/services/PineconeService.js:116-117 | each block opens with its heading, and the numbers run 1 to n |
| PineconeService.HeadingsDistinct | openai-realtime-app/server/services/PineconeService.js:116-117 | no two blocks share a number |
| PineconeService.SourceLineIffTruthy | openai-realtime-app/server/services/PineconeService.js:119-121 | a block has a line after its text exactly when the source is truthy, and that line is `Fonte: ` followed by the source |

## Left out

- WebRTC negotiation (`initializeWebRTC`: the peer connection, SDP offer and answer, `getUserMedia`, the remote track) and the session request are browser and network I/O. The channel appears only through its ready state (`ChannelCreated`, `ChannelOpened`, `ChannelClosed`), and the microphone through `StreamAcquired`. The `session.update` payload is the constant `SessionUpdate`, without its configuration object.
- Timers.
  - The 1 s welcome timer is its own method, `ConsoleControl.ConsoleController.WelcomeTimerFired`, which the environment calls after `ChannelOpened`.
  - The 100 ms `response.create` after a text message or after push-to-talk stops is modelled as happening at the end of the method that schedules it. The channel is not re-checked in between.
  - The 45 s and 20 s inactivity resets in `HannaConsole.jsx` are not modelled: no message list or visitor record is cleared on a timer. The same goes for the 500 ms tools update, the clock tick and the clearing of the inactivity timer in the effect cleanup.
- The effect cleanups on unmount are not modelled. The cleanup of the effect on `[isConnected, disconnect]` is modelled where React runs it while the component lives: after `ChannelClosed` and the disconnect button, both when the console was connected.
- The audio analyser (`setupAudioAnalyser`), the visualiser and avatar canvases, and the MediaPipe detector setup with its bounding boxes are left out. They are Web Audio, canvas and foreign-library work, using floating-point averages and randomness. `isSpeechDetected` and the audio level are inputs.
- The embedding request, the vector query and `initialize` in `PineconeService.js` are network and vendor calls. Their outcome is an input of `SearchSimilar`: the `matches`, or None when either call fails.
- The HTTP routes in `server/index.js` and `server/routes/search.js`, and the scaffolding script `create-complete-project.js`, are not part of this model.
- Event payloads are assumed to have the fields each case reads.
- `ToolArgs` is `Unparsable` exactly when `JSON.parse` throws, the only path to the `catch`. For any other parsed value, a missing `field` or `value` reads as `undefined`. The key is then "undefined" and the stored value is `undefined` (None).
- A present `field` or `value` is given by its string form. A non-string JSON `value`, such as a number, is stored in the source as that value, not as text.
- Arguments that parse to `null` have no `ToolArgs` value. React applies the `setVisitorInfo` updater after the reply is sent, and then `args.field` throws during render. That crash is not modelled.
- Log entries keep only their source and type. The payload and the timestamp are not modelled, and neither is the timestamp on new messages.
- `sendTestMessage` and the presentational components (`MessageList.jsx`, `ToolsPanel.jsx`, the JSX screens) are not modelled.
- The `mode` drop-down is a constructor argument of `ConsoleController`, not a method.

## Findings

| source | as written | input that shows it | evidently intended | confidence | as-written member | corrected member |
|---|---|---|---|---|---|---|
| openai-realtime-app/client/src/components/HannaConsole.jsx:1194-1202 | `initializeWebRTC` runs only from the mount effect, so `dc.onmessage` keeps the first render's `handleRealtimeEvent`. Its `isSpeechDetected` is the initial `false`, and `input_audio_buffer.speech_started` never sets listening or activates the session. | `input_audio_buffer.speech_started` while the analyser reports speech | the handler reads the current `isSpeechDetected`, as its dependency list `[isSpeechDetected, sendEvent]` (line 932) asks | medium, not executed | HannaControl.HannaController.HandleChannelMessage, HannaConsole.WiredHandlerIgnoresSpeechStart | HannaControl.HannaController.HandleEvent, HannaConsole.TurnFlags |

The two consoles also differ from each other, and the model follows each as written. Neither difference is a defect:

- `HannaConsole.jsx` has no case for `conversation.item.deleted`.
- In `HannaConsole.jsx`, a created item's text falls back to its transcript.
