/**
 * HannaConsole.jsx: the reception-desk variant of the console. Its event
 * classifier is stricter than the general console's (short or filler text and
 * noise errors are dropped, there is no delete case) and it records visitor
 * details from a tool call. Also here: the greeting cooldown, the greeting by
 * hour and the noise-level label.
 */
module HannaConsole {
  import opened Common
  import opened RealtimeEvents
  import opened Transcript
  import Console

  /** A visitor field's value: None for `undefined` (a save whose arguments had no `value`). */
  type FieldValue = Option<string>

  /** `visitorInfo`'s initial value. */
  const EmptyVisitor: map<string, FieldValue> := map["name" := Some(""), "email" := Some(""), "phone" := Some("")]

  /** The state the classifier updates; `sessionActive` is `sessionActiveRef.current`. */
  datatype SessionState = SessionState(
    messages: seq<Message>,
    isListening: bool,
    isSpeaking: bool,
    error: Option<string>,
    visitorInfo: map<string, FieldValue>,
    sessionActive: bool)

  const InitialSession: SessionState := SessionState([], false, false, None, EmptyVisitor, false)

  /** The new state and the event the handler sends through `sendEvent`, if any. */
  datatype Reaction = Reaction(state: SessionState, reply: Option<ClientEvent>)

  /** `content?.[0]?.text || content?.[0]?.transcript || ''`. */
  function CreatedText(item: Item): (t: string)
    ensures |item.content| > 0 && Truthy(item.content[0].text) ==> t == item.content[0].text.value
    ensures |item.content| > 0 && !Truthy(item.content[0].text) && Truthy(item.content[0].transcript) ==>
      t == item.content[0].transcript.value
    ensures |item.content| == 0 || (!Truthy(item.content[0].text) && !Truthy(item.content[0].transcript)) ==> t == ""
  {
    if |item.content| > 0 then OrElse(item.content[0].text, OrElse(item.content[0].transcript, "")) else ""
  }

  // ---- the short-text filter ----

  /** Case folding of the `i` flag: only ASCII letters fold (a non-ASCII character never folds onto an ASCII one). */
  function LowerAscii(c: char): char
  {
    if 'A' <= c <= 'Z' then (c as int + 32) as char else c
  }

  function LowerAsciiString(s: string): (r: string)
    ensures |r| == |s|
    ensures forall i :: 0 <= i < |s| ==> r[i] == LowerAscii(s[i])
  {
    seq(|s|, i requires 0 <= i < |s| => LowerAscii(s[i]))
  }

  /** The alternatives of `/^(\.|,|!|\?|hmm|uh|eh|ah|oh)$/`. */
  const Fillers: set<string> := {".", ",", "!", "?", "hmm", "uh", "eh", "ah", "oh"}

  /** `text.match(/^(\.|,|!|\?|hmm|uh|eh|ah|oh)$/i)` succeeds. */
  predicate IsFiller(text: string)
  {
    LowerAsciiString(text) in Fillers
  }

  /** The filter on created messages: longer than three code units and not a filler. */
  predicate Accepts(text: string)
  {
    Utf16Length(text) > 3 && !IsFiller(text)
  }

  /** Every string the filler pattern matches is at most three code units long. */
  lemma FillerIsShort(text: string)
    requires IsFiller(text)
    ensures Utf16Length(text) <= 3
  {
    var r := LowerAsciiString(text);
    assert |r| <= 3 && forall i :: 0 <= i < |r| ==> r[i] as int < 128;
    forall i | 0 <= i < |text|
      ensures text[i] as int <= 0xFFFF
    {
      assert r[i] == LowerAscii(text[i]);
    }
    Utf16LengthBmp(text);
  }

  /** So the filter is exactly the length test. */
  lemma AcceptsIffLongerThanThree(text: string)
    ensures Accepts(text) <==> Utf16Length(text) > 3
  {
    if IsFiller(text) {
      FillerIsShort(text);
    }
  }

  // ---- the error filter ----

  const ErrorFallback: string := "Erro no servidor"

  /** `event.error.message?.includes('noise') || event.error.message?.includes('unclear')`. */
  predicate IsNoise(message: Option<string>)
  {
    message.Some? && (Includes(message.value, "noise") || Includes(message.value, "unclear"))
  }

  /** The `function_call_output` sent after saving a visitor detail:
      `JSON.stringify({ success: true, message: 'Informação salva com sucesso' })`. */
  const SavedReply: string := "{\"success\":true,\"message\":\"Informação salva com sucesso\"}"

  /** The computed key `[args.field]`: the property's string form, or "undefined" when it is absent. */
  function PropertyKey(field: Option<string>): (k: string)
    ensures field.Some? ==> k == field.value
    ensures field.None? ==> k == "undefined"
  {
    if field.Some? then field.value else "undefined"
  }

  /** `handleRealtimeEvent`. `speechDetected` is the analyser's `isSpeechDetected` flag. */
  function Step(s: SessionState, e: ServerEvent, speechDetected: bool): Reaction
  {
    match e
    case Error(message) =>
      if IsNoise(message) then Reaction(s, None)
      else Reaction(s.(error := Some(OrElse(message, ErrorFallback))), None)
    case ItemCreated(item) =>
      var text := CreatedText(item);
      if item.itemType == "message" && Accepts(text)
      then Reaction(s.(messages := InsertIfUnseen(s.messages, Message(item.id, item.role, text))), None)
      else Reaction(s, None)
    case InputTranscriptionCompleted(id, transcript) =>
      if Utf16Length(transcript) > 3
      then Reaction(s.(messages := ReplaceText(s.messages, id, transcript)), None)
      else Reaction(s, None)
    case TextDelta(id, delta) => Reaction(s.(messages := AppendDelta(s.messages, id, delta)), None)
    case AudioTranscriptDelta(id, delta) => Reaction(s.(messages := AppendDelta(s.messages, id, delta)), None)
    case AudioTranscriptDone(id, transcript) => Reaction(s.(messages := ReplaceText(s.messages, id, transcript)), None)
    case TextDone(id, text) => Reaction(s.(messages := ReplaceText(s.messages, id, text)), None)
    case SpeechStarted =>
      if speechDetected then Reaction(s.(isListening := true, sessionActive := true), None)
      else Reaction(s, None)
    case SpeechStopped => Reaction(s.(isListening := false), None)
    case AudioDelta => Reaction(s.(isSpeaking := true), None)
    case AudioDone => Reaction(s.(isSpeaking := false), None)
    case FunctionCallArgumentsDone(name, callId, arguments) =>
      if name == "save_visitor_info" && arguments.Parsed?
      then Reaction(s.(visitorInfo := s.visitorInfo[PropertyKey(arguments.field) := arguments.value]),
                    Some(FunctionCallOutput(callId, SavedReply)))
      else Reaction(s, None)
    case _ => Reaction(s, None)
  }

  /** The events this console logs and otherwise ignores; unlike the general console it has no delete case. */
  predicate IgnoredByHanna(e: ServerEvent)
  {
    e.SessionCreated? || e.SessionUpdated? || e.ItemDeleted? || e.ItemTruncated? ||
    e.InputTranscriptionFailed? || e.BufferCommitted? || e.ResponseDone? || e.Unrecognised?
  }

  /** The handler over a sequence of events, with a fixed speech flag. */
  function Run(s: SessionState, events: seq<ServerEvent>, speechDetected: bool): SessionState
    decreases |events|
  {
    if events == [] then s else Run(Step(s, events[0], speechDetected).state, events[1..], speechDetected)
  }

  // ---- properties of the classifier ----

  /** A created `message` item with an unseen id is appended exactly when its text is longer than
      three code units; otherwise nothing changes. */
  lemma CreatedAcceptedIffLong(s: SessionState, item: Item, sd: bool)
    requires item.itemType == "message" && !HasId(s.messages, item.id)
    ensures Utf16Length(CreatedText(item)) > 3 ==>
      Step(s, ItemCreated(item), sd) == Reaction(s.(messages := s.messages + [Message(item.id, item.role, CreatedText(item))]), None)
    ensures Utf16Length(CreatedText(item)) <= 3 ==> Step(s, ItemCreated(item), sd) == Reaction(s, None)
  {
    AcceptsIffLongerThanThree(CreatedText(item));
  }

  /** An accepted item whose id is already present, and any item that is not a `message`, change nothing. */
  lemma CreatedSeenOrOtherUnchanged(s: SessionState, item: Item, sd: bool)
    requires item.itemType != "message" || HasId(s.messages, item.id)
    ensures Step(s, ItemCreated(item), sd) == Reaction(s, None)
  {
  }

  /** A transcription replaces the text only when it is longer than three code units, and then
      exactly as the general console does. */
  lemma TranscriptionNeedsLength(s: SessionState, id: string, transcript: string, sd: bool)
    ensures var e := InputTranscriptionCompleted(id, transcript);
      var general := Console.Step(Console.ConversationState(s.messages, s.isListening, s.error), e, "");
      && (Utf16Length(transcript) > 3 ==> Step(s, e, sd) == Reaction(s.(messages := general.state.messages), None))
      && (Utf16Length(transcript) <= 3 ==> Step(s, e, sd) == Reaction(s, None))
  {
  }

  /** Deltas and done events treat the transcript exactly as the general console does and touch nothing else. */
  lemma TextEventsAsConsole(s: SessionState, e: ServerEvent, sd: bool)
    requires e.TextDelta? || e.AudioTranscriptDelta? || e.TextDone? || e.AudioTranscriptDone?
    ensures Step(s, e, sd) ==
      Reaction(s.(messages := Console.Step(Console.ConversationState(s.messages, s.isListening, s.error), e, "").state.messages), None)
  {
  }

  /** Every event keeps ids unique. */
  lemma StepKeepsIdsUnique(s: SessionState, e: ServerEvent, sd: bool)
    requires UniqueIds(s.messages)
    ensures UniqueIds(Step(s, e, sd).state.messages)
  {
    match e
    case ItemCreated(item) =>
      InsertKeepsUnique(s.messages, Message(item.id, item.role, CreatedText(item)));
    case InputTranscriptionCompleted(id, x) => MapsKeepUnique(s.messages, id, x);
    case TextDelta(id, x) => MapsKeepUnique(s.messages, id, x);
    case AudioTranscriptDelta(id, x) => MapsKeepUnique(s.messages, id, x);
    case TextDone(id, x) => MapsKeepUnique(s.messages, id, x);
    case AudioTranscriptDone(id, x) => MapsKeepUnique(s.messages, id, x);
    case _ =>
  }

  /** No event removes or reorders a message: the old ids are a prefix of the new ones
      (a new message only ever goes at the end). */
  lemma StepOnlyAppends(s: SessionState, e: ServerEvent, sd: bool)
    ensures Ids(s.messages) <= Ids(Step(s, e, sd).state.messages)
  {
    match e
    case ItemCreated(item) =>
    case InputTranscriptionCompleted(id, x) =>
      assert Step(s, e, sd).state.messages in {s.messages, ReplaceText(s.messages, id, x)};
      MapsKeepIds(s.messages, id, x);
    case TextDelta(id, x) =>
      assert Step(s, e, sd).state.messages == AppendDelta(s.messages, id, x);
      MapsKeepIds(s.messages, id, x);
    case AudioTranscriptDelta(id, x) =>
      assert Step(s, e, sd).state.messages == AppendDelta(s.messages, id, x);
      MapsKeepIds(s.messages, id, x);
    case TextDone(id, x) =>
      assert Step(s, e, sd).state.messages == ReplaceText(s.messages, id, x);
      MapsKeepIds(s.messages, id, x);
    case AudioTranscriptDone(id, x) =>
      assert Step(s, e, sd).state.messages == ReplaceText(s.messages, id, x);
      MapsKeepIds(s.messages, id, x);
    case _ =>
  }

  /** No event drops a visitor field. */
  lemma StepKeepsVisitorFields(s: SessionState, e: ServerEvent, sd: bool)
    ensures s.visitorInfo.Keys <= Step(s, e, sd).state.visitorInfo.Keys
  {
  }

  /** The noise filter: an error mentioning "noise" or "unclear" is dropped; any other error
      is recorded (or the fallback text); the transcript is never touched. */
  lemma ErrorFilter(s: SessionState, message: Option<string>, sd: bool)
    ensures Step(s, Error(message), sd).state.messages == s.messages
    ensures Step(s, Error(message), sd).reply == None
    ensures message.Some? && (Contains(message.value, "noise") || Contains(message.value, "unclear")) ==>
      Step(s, Error(message), sd).state == s
    ensures !(message.Some? && (Contains(message.value, "noise") || Contains(message.value, "unclear"))) ==>
      Step(s, Error(message), sd).state == s.(error := Some(if Truthy(message) then message.value else "Erro no servidor"))
  {
  }

  /** Turn flags: speech start counts only while speech is detected (and marks the session
      active); speech stop always clears listening; audio start and end set speaking. */
  lemma TurnFlags(s: SessionState, sd: bool)
    ensures Step(s, SpeechStarted, sd) == Reaction(if sd then s.(isListening := true, sessionActive := true) else s, None)
    ensures Step(s, SpeechStopped, sd) == Reaction(s.(isListening := false), None)
    ensures Step(s, AudioDelta, sd) == Reaction(s.(isSpeaking := true), None)
    ensures Step(s, AudioDone, sd) == Reaction(s.(isSpeaking := false), None)
  {
  }

  /** Events without a case, deletion included, change nothing and send nothing. */
  lemma IgnoredChangeNothing(s: SessionState, e: ServerEvent, sd: bool)
    requires IgnoredByHanna(e)
    ensures Step(s, e, sd) == Reaction(s, None)
  {
  }

  /** `isSpeechDetected` on the first render, which is the render whose `handleRealtimeEvent`
      the data channel keeps: `initializeWebRTC` runs only from the mount effect. */
  const FirstRenderSpeechFlag: bool := false

  /** With the first render's flag, speech start never counts: it neither sets listening nor
      activates the session, whereas with the flag live it does both. */
  lemma WiredHandlerIgnoresSpeechStart(s: SessionState)
    ensures Step(s, SpeechStarted, FirstRenderSpeechFlag) == Reaction(s, None)
    ensures Step(s, SpeechStarted, true) == Reaction(s.(isListening := true, sessionActive := true), None)
    ensures !(s.isListening && s.sessionActive) ==>
      Step(s, SpeechStarted, FirstRenderSpeechFlag).state != Step(s, SpeechStarted, true).state
  {
  }

  /** `save_visitor_info` with parsed arguments sets only the field under the computed key (with
      `value`, or `undefined` when it is absent), keeps every other field, and replies once with
      the same call id. */
  lemma SaveVisitorInfo(s: SessionState, callId: string, field: Option<string>, value: Option<string>, sd: bool)
    ensures var r := Step(s, FunctionCallArgumentsDone("save_visitor_info", callId, Parsed(field, value)), sd);
      var key := if field.Some? then field.value else "undefined";
      && r.reply == Some(FunctionCallOutput(callId, SavedReply))
      && key in r.state.visitorInfo && r.state.visitorInfo[key] == value
      && r.state.visitorInfo.Keys == s.visitorInfo.Keys + {key}
      && (forall k :: k in s.visitorInfo && k != key ==> r.state.visitorInfo[k] == s.visitorInfo[k])
      && r.state == s.(visitorInfo := r.state.visitorInfo)
  {
  }

  /** Parsed arguments without a `field` are saved under the key "undefined", and still answered. */
  lemma FieldlessSaveUnderUndefined(s: SessionState, callId: string, value: Option<string>, sd: bool)
    ensures var r := Step(s, FunctionCallArgumentsDone("save_visitor_info", callId, Parsed(None, value)), sd);
      r == Reaction(s.(visitorInfo := s.visitorInfo["undefined" := value]), Some(FunctionCallOutput(callId, SavedReply)))
  {
  }

  /** Any other tool, and arguments that fail to parse, change nothing and send nothing. */
  lemma OtherToolCallsIgnored(s: SessionState, name: string, callId: string, args: ToolArgs, sd: bool)
    requires name != "save_visitor_info" || args.Unparsable?
    ensures Step(s, FunctionCallArgumentsDone(name, callId, args), sd) == Reaction(s, None)
  {
  }

  /** The handler sends something exactly for a `save_visitor_info` call whose arguments parse,
      with or without the expected properties. */
  lemma RepliesOnlyToSaves(s: SessionState, e: ServerEvent, sd: bool)
    ensures Step(s, e, sd).reply.Some? <==>
      e.FunctionCallArgumentsDone? && e.name == "save_visitor_info" && e.arguments.Parsed?
    ensures Step(s, e, sd).reply.Some? ==> Step(s, e, sd).reply == Some(FunctionCallOutput(e.callId, SavedReply))
  {
  }

  /** Two saves under the same key: the last write wins. */
  lemma LastWriteWins(s: SessionState, c1: string, c2: string, a1: ToolArgs, a2: ToolArgs, sd: bool)
    requires a1.Parsed? && a2.Parsed? && PropertyKey(a1.field) == PropertyKey(a2.field)
    ensures Run(s, [FunctionCallArgumentsDone("save_visitor_info", c1, a1),
                    FunctionCallArgumentsDone("save_visitor_info", c2, a2)], sd).visitorInfo
            == s.visitorInfo[PropertyKey(a2.field) := a2.value]
  {
    RunTwo(s, FunctionCallArgumentsDone("save_visitor_info", c1, a1),
           FunctionCallArgumentsDone("save_visitor_info", c2, a2), sd);
  }

  /** Saves under different keys commute. */
  lemma DifferentFieldsCommute(s: SessionState, c1: string, c2: string, a1: ToolArgs, a2: ToolArgs, sd: bool)
    requires a1.Parsed? && a2.Parsed? && PropertyKey(a1.field) != PropertyKey(a2.field)
    ensures var e1 := FunctionCallArgumentsDone("save_visitor_info", c1, a1);
      var e2 := FunctionCallArgumentsDone("save_visitor_info", c2, a2);
      Run(s, [e1, e2], sd).visitorInfo == Run(s, [e2, e1], sd).visitorInfo
  {
    var e1 := FunctionCallArgumentsDone("save_visitor_info", c1, a1);
    var e2 := FunctionCallArgumentsDone("save_visitor_info", c2, a2);
    RunTwo(s, e1, e2, sd);
    RunTwo(s, e2, e1, sd);
  }

  lemma RunTwo(s: SessionState, e1: ServerEvent, e2: ServerEvent, sd: bool)
    ensures Run(s, [e1, e2], sd) == Step(Step(s, e1, sd).state, e2, sd).state
  {
    var s1 := Step(s, e1, sd).state;
    assert [e1, e2][1..] == [e2];
    assert Run(s, [e1, e2], sd) == Run(s1, [e2], sd);
    assert [e2][1..] == [];
    assert Run(s1, [e2], sd) == Run(Step(s1, e2, sd).state, [], sd);
  }

  // ---- the greeting cooldown ----

  const GreetingCooldownMs: int := 60000

  /** `handleFaceDetected` goes ahead unless the last greeting was less than 60000 ms ago. */
  predicate Greets(lastGreeting: int, now: int)
  {
    !(now - lastGreeting < GreetingCooldownMs)
  }

  /** The visitor-facing flags `handleFaceDetected` and `handleFaceLost` update. */
  datatype Visit = Visit(lastGreeting: int, hasVisitor: bool, showConversation: bool, sessionActive: bool)

  /** `handleFaceDetected` at time `now`. */
  function FaceDetected(v: Visit, now: int): (r: Visit)
    ensures !Greets(v.lastGreeting, now) ==> r == v
    ensures Greets(v.lastGreeting, now) ==> r == Visit(now, true, true, true)
  {
    if Greets(v.lastGreeting, now) then Visit(now, true, true, true) else v
  }

  /** `handleFaceLost`: the session is no longer active (the return to the welcome screen is on a timer). */
  function FaceLost(v: Visit): Visit
  {
    v.(sessionActive := false)
  }

  /** The times, out of successive `handleFaceDetected` calls, at which a greeting happened. */
  function GreetedAt(lastGreeting: int, times: seq<int>): (g: seq<int>)
    ensures |g| <= |times|
    decreases |times|
  {
    if times == [] then []
    else if Greets(lastGreeting, times[0]) then [times[0]] + GreetedAt(times[0], times[1..])
    else GreetedAt(lastGreeting, times[1..])
  }

  /** Whatever the call times, greetings are at least 60000 ms apart, and the first is at
      least 60000 ms after the previous one. */
  lemma {:induction false} GreetingsSpacedOut(lastGreeting: int, times: seq<int>)
    ensures var g := GreetedAt(lastGreeting, times);
      && (|g| > 0 ==> g[0] - lastGreeting >= GreetingCooldownMs)
      && (forall i :: 0 <= i < |g| - 1 ==> g[i + 1] - g[i] >= GreetingCooldownMs)
    decreases |times|
  {
    if times != [] {
      if Greets(lastGreeting, times[0]) {
        GreetingsSpacedOut(times[0], times[1..]);
        var g := GreetedAt(lastGreeting, times);
        assert g[1..] == GreetedAt(times[0], times[1..]);
      } else {
        GreetingsSpacedOut(lastGreeting, times[1..]);
      }
    }
  }

  /** A face detected twice within the cooldown greets at most once. */
  lemma RepeatWithinCooldownIgnored(v: Visit, t1: int, t2: int)
    requires Greets(v.lastGreeting, t1)
    requires t1 <= t2 < t1 + GreetingCooldownMs
    ensures FaceDetected(FaceDetected(v, t1), t2) == FaceDetected(v, t1)
  {
  }

  // ---- threshold functions ----

  /** How many of the thresholds `x` has reached. */
  function CountReached(thresholds: seq<real>, x: real): (n: nat)
    ensures n <= |thresholds|
  {
    if thresholds == [] then 0
    else (if thresholds[0] <= x then 1 else 0) + CountReached(thresholds[1..], x)
  }

  /** A larger value reaches at least as many thresholds. */
  lemma {:induction false} CountReachedMonotone(thresholds: seq<real>, x: real, y: real)
    requires x <= y
    ensures CountReached(thresholds, x) <= CountReached(thresholds, y)
  {
    if thresholds != [] {
      CountReachedMonotone(thresholds[1..], x, y);
    }
  }

  /** `greeting()`, on `currentTime.getHours()`. */
  function Greeting(hour: int): string
  {
    if hour < 12 then "Bom dia"
    else if hour < 18 then "Boa tarde"
    else "Boa noite"
  }

  const GreetingHours: seq<real> := [12.0, 18.0]
  const Greetings: seq<string> := ["Bom dia", "Boa tarde", "Boa noite"]

  /** The greeting is the one for the number of period boundaries (12 h, 18 h) the hour has reached. */
  lemma GreetingByPeriod(hour: int)
    ensures Greeting(hour) == Greetings[CountReached(GreetingHours, hour as real)]
  {
    assert GreetingHours[1..][1..] == [];
  }

  /** Later hours never go back to an earlier period, and the three greetings are distinct,
      so the greeting changes exactly when the period does. */
  lemma GreetingMonotone(h1: int, h2: int)
    requires h1 <= h2
    ensures var i, j := CountReached(GreetingHours, h1 as real), CountReached(GreetingHours, h2 as real);
      i <= j && (Greeting(h1) == Greeting(h2) <==> i == j)
  {
    GreetingByPeriod(h1);
    GreetingByPeriod(h2);
    CountReachedMonotone(GreetingHours, h1 as real, h2 as real);
  }

  /** The label and colour class of `getNoiseLevel`. */
  datatype NoiseLabel = NoiseLabel(text: string, color: string)

  /** `getNoiseLevel()`, on the analyser's average level. */
  function NoiseLevel(audioLevel: real): NoiseLabel
  {
    if audioLevel < 10.0 then NoiseLabel("Silencioso", "text-green-500")
    else if audioLevel < 30.0 then NoiseLabel("Normal", "text-blue-500")
    else if audioLevel < 50.0 then NoiseLabel("Barulhento", "text-yellow-500")
    else NoiseLabel("Muito barulhento", "text-red-500")
  }

  const NoiseThresholds: seq<real> := [10.0, 30.0, 50.0]
  const NoiseLabels: seq<NoiseLabel> := [
    NoiseLabel("Silencioso", "text-green-500"), NoiseLabel("Normal", "text-blue-500"),
    NoiseLabel("Barulhento", "text-yellow-500"), NoiseLabel("Muito barulhento", "text-red-500")]

  /** The label is the one for the number of thresholds (10, 30, 50) the level has reached. */
  lemma NoiseByThresholds(audioLevel: real)
    ensures NoiseLevel(audioLevel) == NoiseLabels[CountReached(NoiseThresholds, audioLevel)]
  {
    var t := NoiseThresholds;
    assert t[1..] == [30.0, 50.0] && t[1..][1..] == [50.0] && t[1..][1..][1..] == [];
    assert CountReached(t[1..][1..], audioLevel) == if 50.0 <= audioLevel then 1 else 0;
  }

  /** A louder level never shows a quieter label, and the four labels are distinct. */
  lemma NoiseMonotone(l1: real, l2: real)
    requires l1 <= l2
    ensures var i, j := CountReached(NoiseThresholds, l1), CountReached(NoiseThresholds, l2);
      i <= j && (NoiseLevel(l1) == NoiseLevel(l2) <==> i == j)
  {
    NoiseByThresholds(l1);
    NoiseByThresholds(l2);
    CountReachedMonotone(NoiseThresholds, l1, l2);
  }
}

/** The stateful side of HannaConsole.jsx: refs, flags, the face tracker and the wire. */
module HannaControl {
  import opened Common
  import opened RealtimeEvents
  import opened HannaConsole
  import opened FaceDetection
  import Console

  class HannaController {
    var dc: DataChannel                 // dcRef.current
    var peerOpen: bool                  // pcRef.current != null
    var mic: Console.Microphone         // audioStream, isMuted and the audio track's enabled flag
    var remoteAudio: bool               // audioRef.current.srcObject is set
    var isConnected: bool
    var st: SessionState                // messages, turn flags, error, visitorInfo, sessionActiveRef
    var lastGreeting: int               // lastGreetingRef
    var hasVisitor: bool
    var showConversation: bool
    var wire: seq<ClientEvent>          // everything sent on the data channel, in order
    const tracker: FaceTracker          // the detector refs

    /** The flags the face callbacks update. */
    function Visit(): HannaConsole.Visit
      reads this
    {
      HannaConsole.Visit(lastGreeting, hasVisitor, showConversation, st.sessionActive)
    }

    constructor ()
      ensures fresh(tracker) && tracker.State() == FaceDetection.Initial
      ensures dc == NoChannel && !peerOpen && mic == Console.Microphone(false, false, false) && !remoteAudio
      ensures !isConnected && st == InitialSession && wire == []
      ensures Visit() == HannaConsole.Visit(0, false, false, false)
    {
      dc := NoChannel;
      peerOpen := false;
      mic := Console.Microphone(false, false, false);
      remoteAudio := false;
      isConnected := false;
      st := InitialSession;
      lastGreeting := 0;
      hasVisitor := false;
      showConversation := false;
      wire := [];
      tracker := new FaceTracker();
    }

    /** `dcRef.current = pc.createDataChannel(...)`: a new channel, still connecting. */
    method ChannelCreated()
      modifies this`dc, this`peerOpen
      ensures dc == Channel(Connecting) && peerOpen
    {
      peerOpen := true;
      dc := Channel(Connecting);
    }

    /** `dc.onopen`: connected, and the session configuration sent. */
    method ChannelOpened()
      modifies this`dc, this`isConnected, this`wire
      ensures dc == Channel(Open) && isConnected
      ensures wire == old(wire) + [SessionUpdate]
    {
      dc := Channel(Open);
      isConnected := true;
      SendEvent(SessionUpdate);
    }

    /** `dc.onclose`. When the console was connected, the change of `isConnected` makes React
        run the cleanup of the effect on `[isConnected, disconnect]`, which captured
        `isConnected` as true and so calls `disconnect`. */
    method ChannelClosed()
      modifies this`dc, this`peerOpen, this`mic, this`remoteAudio, this`isConnected, this`st
      ensures !isConnected && mic.isMuted == old(mic.isMuted)
      ensures old(isConnected) ==>
        && dc == NoChannel && !peerOpen && !mic.hasStream && !remoteAudio
        && st == old(st).(messages := [], isListening := false, isSpeaking := false)
      ensures !old(isConnected) ==>
        && dc == (if old(dc).Channel? then Channel(Closed) else NoChannel)
        && peerOpen == old(peerOpen) && mic == old(mic) && remoteAudio == old(remoteAudio) && st == old(st)
    {
      var wasConnected := isConnected;
      if dc.Channel? {
        dc := Channel(Closed);
      }
      isConnected := false;
      if wasConnected {
        Release();
      }
    }

    /** `dc.onerror`. */
    method ChannelFailed()
      modifies this`st
      ensures st == old(st).(error := Some("Erro na conexão de dados."))
    {
      st := st.(error := Some("Erro na conexão de dados."));
    }

    /** `sendEvent`: transmit only while the channel is open. */
    method SendEvent(e: ClientEvent)
      modifies this`wire
      ensures wire == old(wire) + Transmit(dc, e)
    {
      if dc.Channel? && dc.readyState == Open {
        wire := wire + [e];
      }
    }

    /** `sendTextMessage`: unlike the general console, no blank check and no `response.create`;
        nothing in the component calls it. */
    method SendTextMessage(text: string)
      modifies this`wire
      ensures wire == old(wire) + Transmit(dc, UserText(text))
    {
      SendEvent(UserText(text));
    }

    /** `dc.onmessage` as wired: the handler of the first render, whose speech flag is
        always `FirstRenderSpeechFlag`, so speech start changes nothing. */
    method HandleChannelMessage(e: ServerEvent)
      modifies this`st, this`wire
      ensures st == HannaConsole.Step(old(st), e, FirstRenderSpeechFlag).state
      ensures e.SpeechStarted? ==> st == old(st) && wire == old(wire)
    {
      HandleEvent(e, FirstRenderSpeechFlag);
      WiredHandlerIgnoresSpeechStart(old(st));
    }

    /** `handleRealtimeEvent` with the analyser's current flag: apply the classifier and send
        its reply through the gate. */
    method HandleEvent(e: ServerEvent, speechDetected: bool)
      modifies this`st, this`wire
      ensures st == HannaConsole.Step(old(st), e, speechDetected).state
      ensures var reply := HannaConsole.Step(old(st), e, speechDetected).reply;
        wire == old(wire) + (if reply.Some? then Transmit(dc, reply.value) else [])
    {
      var r := HannaConsole.Step(st, e, speechDetected);
      st := r.state;
      if r.reply.Some? {
        SendEvent(r.reply.value);
      }
    }

    /** `handleFaceDetected`: within the cooldown nothing happens; otherwise stamp the greeting,
        show the conversation, mark the session active and, when connected, ask for a response. */
    method HandleFaceDetected(now: int)
      modifies this`lastGreeting, this`hasVisitor, this`showConversation, this`st, this`wire
      ensures Visit() == FaceDetected(old(Visit()), now)
      ensures st == old(st).(sessionActive := Visit().sessionActive)
      ensures wire == old(wire) + (if Greets(old(lastGreeting), now) && isConnected then Transmit(dc, ResponseCreate) else [])
    {
      if now - lastGreeting < GreetingCooldownMs {
        return;
      }
      lastGreeting := now;
      hasVisitor := true;
      showConversation := true;
      st := st.(sessionActive := true);
      if isConnected {
        SendEvent(ResponseCreate);
      }
    }

    /** `handleFaceLost`: the session is no longer active. */
    method HandleFaceLost()
      modifies this`st
      ensures Visit() == FaceLost(old(Visit()))
      ensures st == old(st).(sessionActive := false)
    {
      st := st.(sessionActive := false);
    }

    /** One detector tick: run the presence hysteresis and the callback it fires, if any. */
    method OnDetectionFrame(faceSeen: bool, now: int)
      modifies this`lastGreeting, this`hasVisitor, this`showConversation, this`st, this`wire, tracker
      ensures var o := FaceDetection.Step(old(tracker.State()), if faceSeen then FaceSeen(now) else NoFace(now));
        && tracker.State() == o.next
        && Visit() == (if o.signal == Some(Detected) then FaceDetected(old(Visit()), now)
                       else if o.signal == Some(Lost) then FaceLost(old(Visit()))
                       else old(Visit()))
        && st == old(st).(sessionActive := Visit().sessionActive)
        && wire == old(wire) + (if o.signal == Some(Detected) && Greets(old(lastGreeting), now) && isConnected
                               then Transmit(dc, ResponseCreate) else [])
    {
      if faceSeen {
        var detected := tracker.HandleFacePresent(now);
        if detected {
          HandleFaceDetected(now);
        }
      } else {
        var lost := tracker.HandleFaceAbsent(now);
        if lost {
          HandleFaceLost();
        }
      }
    }

    /** `disconnect`: drop the channel and peer connection, stop the microphone, detach the
        audio, and clear the connection, turn flags and transcript. Nothing else calls it: it
        runs from the cleanup of the effect on `[isConnected, disconnect]`. */
    method Release()
      modifies this`dc, this`peerOpen, this`mic, this`remoteAudio, this`isConnected, this`st
      ensures dc == NoChannel && !peerOpen && !mic.hasStream && !remoteAudio && !isConnected
      ensures mic.isMuted == old(mic.isMuted)
      ensures st == old(st).(messages := [], isListening := false, isSpeaking := false)
    {
      dc := NoChannel;
      peerOpen := false;
      if mic.hasStream {
        mic := mic.(hasStream := false);
      }
      remoteAudio := false;
      isConnected := false;
      st := st.(isListening := false, isSpeaking := false, messages := []);
    }

    /** `setAudioStream(stream)` once `getUserMedia` resolves: a fresh, enabled track. */
    method StreamAcquired()
      modifies this`mic
      ensures mic == Console.Acquired(old(mic))
    {
      mic := Console.Microphone(true, mic.isMuted, true);
    }

    /** `toggleMute`, as in the general console; nothing in the component calls it. */
    method ToggleMute()
      modifies this`mic
      ensures mic == Console.Toggled(old(mic))
    {
      if mic.hasStream {
        mic := mic.(trackEnabled := mic.isMuted, isMuted := !mic.isMuted);
      }
    }
  }
}
