/**
 * Console.jsx: the event classifier (`handleRealtimeEvent`) as a pure step over
 * the conversation state, and the controller around it (send gate, bounded
 * event log, mute, push-to-talk, disconnect) as a class.
 */
module Console {
  import opened Common
  import opened RealtimeEvents
  import opened Transcript
  import opened EventLogger

  /** The part of the component state the classifier updates. */
  datatype ConversationState = ConversationState(messages: seq<Message>, isListening: bool, error: Option<string>)

  /** The new state and the event the handler asks `sendEvent` to send, if any. */
  datatype Reaction = Reaction(state: ConversationState, reply: Option<ClientEvent>)

  /** `event.item.content?.[0]?.text || ''`. */
  function CreatedText(item: Item): (t: string)
    ensures |item.content| > 0 && Truthy(item.content[0].text) ==> t == item.content[0].text.value
    ensures !(|item.content| > 0 && Truthy(item.content[0].text)) ==> t == ""
  {
    if |item.content| > 0 then OrElse(item.content[0].text, "") else ""
  }

  /** The message a created `message` item contributes. */
  function CreatedMessage(item: Item): Message
  {
    Message(item.id, item.role, CreatedText(item))
  }

  /** `handleRealtimeEvent`: the switch on `event.type`. Types without a case change nothing. */
  function Step(s: ConversationState, e: ServerEvent, localTime: string): Reaction
  {
    match e
    case Error(message) => Reaction(s.(error := Some(OrElse(message, "Server error"))), None)
    case ItemCreated(item) =>
      if item.itemType == "message"
      then Reaction(s.(messages := InsertIfUnseen(s.messages, CreatedMessage(item))), None)
      else Reaction(s, None)
    case ItemDeleted(id) => Reaction(s.(messages := Remove(s.messages, id)), None)
    case InputTranscriptionCompleted(id, transcript) => Reaction(s.(messages := ReplaceText(s.messages, id, transcript)), None)
    case TextDelta(id, delta) => Reaction(s.(messages := AppendDelta(s.messages, id, delta)), None)
    case TextDone(id, text) => Reaction(s.(messages := ReplaceText(s.messages, id, text)), None)
    case AudioTranscriptDelta(id, delta) => Reaction(s.(messages := AppendDelta(s.messages, id, delta)), None)
    case AudioTranscriptDone(id, transcript) => Reaction(s.(messages := ReplaceText(s.messages, id, transcript)), None)
    case SpeechStarted => Reaction(s.(isListening := true), None)
    case SpeechStopped => Reaction(s.(isListening := false), None)
    case FunctionCallArgumentsDone(name, callId, _) =>
      if name == "get_current_time" then Reaction(s, Some(FunctionCallOutput(callId, localTime)))
      else Reaction(s, None)
    case _ => Reaction(s, None)
  }

  /** The events for which Console.jsx has no state-changing case (logged only). */
  predicate IgnoredByConsole(e: ServerEvent)
  {
    e.SessionCreated? || e.SessionUpdated? || e.ResponseDone? || e.ItemTruncated? ||
    e.InputTranscriptionFailed? || e.BufferCommitted? || e.AudioDelta? || e.AudioDone? ||
    e.Unrecognised?
  }

  /** The handler applied to a sequence of events in receipt order. */
  function Run(s: ConversationState, events: seq<ServerEvent>, localTime: string): ConversationState
    decreases |events|
  {
    if events == [] then s else Run(Step(s, events[0], localTime).state, events[1..], localTime)
  }

  /** `response.text.delta` events for one item. */
  function TextDeltas(id: string, deltas: seq<string>): (events: seq<ServerEvent>)
    ensures |events| == |deltas|
    ensures forall i :: 0 <= i < |deltas| ==> events[i] == TextDelta(id, deltas[i])
  {
    if deltas == [] then [] else [TextDelta(id, deltas[0])] + TextDeltas(id, deltas[1..])
  }

  // ---- properties of the classifier ----

  /** A created `message` item with an unseen id appends exactly one message at the end. */
  lemma CreatedUnseenAppends(s: ConversationState, item: Item, t: string)
    requires item.itemType == "message" && !HasId(s.messages, item.id)
    ensures Step(s, ItemCreated(item), t).state.messages == s.messages + [Message(item.id, item.role, CreatedText(item))]
    ensures Step(s, ItemCreated(item), t).reply == None
  {
  }

  /** A created item whose id is already present, or that is not a `message`, changes nothing. */
  lemma CreatedSeenOrOtherUnchanged(s: ConversationState, item: Item, t: string)
    requires item.itemType != "message" || HasId(s.messages, item.id)
    ensures Step(s, ItemCreated(item), t) == Reaction(s, None)
  {
  }

  /** Every inbound event keeps transcript ids unique. */
  lemma StepKeepsIdsUnique(s: ConversationState, e: ServerEvent, t: string)
    requires UniqueIds(s.messages)
    ensures UniqueIds(Step(s, e, t).state.messages)
  {
    match e
    case ItemCreated(item) => InsertKeepsUnique(s.messages, CreatedMessage(item));
    case ItemDeleted(id) => RemoveKeepsUnique(s.messages, id);
    case InputTranscriptionCompleted(id, x) => MapsKeepUnique(s.messages, id, x);
    case TextDelta(id, x) => MapsKeepUnique(s.messages, id, x);
    case TextDone(id, x) => MapsKeepUnique(s.messages, id, x);
    case AudioTranscriptDelta(id, x) => MapsKeepUnique(s.messages, id, x);
    case AudioTranscriptDone(id, x) => MapsKeepUnique(s.messages, id, x);
    case _ =>
  }

  /** Delta and done events never change the list length or the order of ids, and
      touch nothing but the transcript. */
  lemma TextEventsKeepIds(s: ConversationState, e: ServerEvent, t: string)
    requires e.TextDelta? || e.AudioTranscriptDelta? || e.TextDone? || e.AudioTranscriptDone? ||
             e.InputTranscriptionCompleted?
    ensures Ids(Step(s, e, t).state.messages) == Ids(s.messages)
    ensures Step(s, e, t).state.isListening == s.isListening && Step(s, e, t).state.error == s.error
    ensures Step(s, e, t).reply == None
  {
    match e
    case TextDelta(id, d) =>
      assert Step(s, e, t) == Reaction(s.(messages := AppendDelta(s.messages, id, d)), None);
      MapsKeepIds(s.messages, id, d);
    case AudioTranscriptDelta(id, d) =>
      assert Step(s, e, t) == Reaction(s.(messages := AppendDelta(s.messages, id, d)), None);
      MapsKeepIds(s.messages, id, d);
    case TextDone(id, x) =>
      assert Step(s, e, t) == Reaction(s.(messages := ReplaceText(s.messages, id, x)), None);
      MapsKeepIds(s.messages, id, x);
    case AudioTranscriptDone(id, x) =>
      assert Step(s, e, t) == Reaction(s.(messages := ReplaceText(s.messages, id, x)), None);
      MapsKeepIds(s.messages, id, x);
    case InputTranscriptionCompleted(id, x) =>
      assert Step(s, e, t) == Reaction(s.(messages := ReplaceText(s.messages, id, x)), None);
      MapsKeepIds(s.messages, id, x);
  }

  /** A delta appends to the message with that id and leaves the others untouched;
      for an unknown id the transcript is unchanged. */
  lemma DeltaAppends(s: ConversationState, e: ServerEvent, t: string)
    requires e.TextDelta? || e.AudioTranscriptDelta?
    ensures var r := Step(s, e, t).state.messages;
      |r| == |s.messages| &&
      (forall i :: 0 <= i < |r| && s.messages[i].id == e.itemId ==> r[i] == s.messages[i].(text := s.messages[i].text + e.delta)) &&
      (forall i :: 0 <= i < |r| && s.messages[i].id != e.itemId ==> r[i] == s.messages[i])
    ensures !HasId(s.messages, e.itemId) ==> Step(s, e, t).state == s
  {
    if !HasId(s.messages, e.itemId) {
      MapsUnknownIdUnchanged(s.messages, e.itemId, e.delta);
    }
  }

  /** A done or transcription-completed event replaces the text wholesale. */
  lemma DoneReplaces(s: ConversationState, id: string, x: string, t: string)
    ensures forall e :: e in [TextDone(id, x), AudioTranscriptDone(id, x), InputTranscriptionCompleted(id, x)] ==>
      var r := Step(s, e, t).state.messages;
      |r| == |s.messages| &&
      (forall i :: 0 <= i < |r| && s.messages[i].id == id ==> r[i] == s.messages[i].(text := x)) &&
      (forall i :: 0 <= i < |r| && s.messages[i].id != id ==> r[i] == s.messages[i])
  {
  }

  /** Running text deltas for one item is appending them one after the other. */
  lemma {:induction false} RunDeltas(s: ConversationState, id: string, deltas: seq<string>, t: string)
    ensures Run(s, TextDeltas(id, deltas), t) == s.(messages := AppendAll(s.messages, id, deltas))
    decreases |deltas|
  {
    if deltas != [] {
      var events := TextDeltas(id, deltas);
      assert events[1..] == TextDeltas(id, deltas[1..]);
      RunDeltas(Step(s, events[0], t).state, id, deltas[1..], t);
    }
  }

  /** Create followed by N deltas: one new message at the end whose text is the
      created text followed by the concatenation of the deltas, in order. */
  lemma CreateThenDeltas(s: ConversationState, item: Item, deltas: seq<string>, t: string)
    requires item.itemType == "message" && !HasId(s.messages, item.id)
    ensures var r := Run(s, [ItemCreated(item)] + TextDeltas(item.id, deltas), t);
      r.messages == s.messages + [Message(item.id, item.role, CreatedText(item) + Concat(deltas))]
  {
    var events := [ItemCreated(item)] + TextDeltas(item.id, deltas);
    var s1 := Step(s, ItemCreated(item), t).state;
    assert events[1..] == TextDeltas(item.id, deltas);
    assert Run(s, events, t) == Run(s1, TextDeltas(item.id, deltas), t);
    RunDeltas(s1, item.id, deltas, t);
    var msgs := s.messages + [CreatedMessage(item)];
    AppendAllConcatenates(msgs, item.id, deltas);
    var r := AppendAll(msgs, item.id, deltas);
    forall i | 0 <= i < |s.messages| ensures r[i] == msgs[i] {
      assert msgs[i].id != item.id;
    }
    assert r == s.messages + [Message(item.id, item.role, CreatedText(item) + Concat(deltas))];
  }

  /** Whatever deltas came before, `response.text.done` leaves exactly its own text. */
  lemma DoneAfterDeltas(s: ConversationState, id: string, deltas: seq<string>, final: string, t: string)
    ensures var r := Run(s, TextDeltas(id, deltas) + [TextDone(id, final)], t).messages;
      |r| == |s.messages| &&
      forall i :: 0 <= i < |r| && s.messages[i].id == id ==> r[i] == s.messages[i].(text := final)
  {
    RunThenOne(s, TextDeltas(id, deltas), TextDone(id, final), t);
    RunDeltas(s, id, deltas, t);
    DoneWins(s.messages, id, deltas, final);
  }

  lemma {:induction false} RunThenOne(s: ConversationState, events: seq<ServerEvent>, e: ServerEvent, t: string)
    ensures Run(s, events + [e], t) == Step(Run(s, events, t), e, t).state
    decreases |events|
  {
    if events == [] {
      assert [e][1..] == [];
    } else {
      assert (events + [e])[1..] == events[1..] + [e];
      RunThenOne(Step(s, events[0], t).state, events[1..], e, t);
    }
  }

  /** Deleting removes the messages with that id and keeps the rest in order. */
  lemma DeleteRemoves(s: ConversationState, id: string, t: string)
    ensures var r := Step(s, ItemDeleted(id), t).state.messages;
      IsSubsequence(r, s.messages) &&
      (forall m :: m in r <==> m in s.messages && m.id != id) &&
      (UniqueIds(s.messages) && HasId(s.messages, id) ==> |r| == |s.messages| - 1) &&
      (!HasId(s.messages, id) ==> r == s.messages)
  {
    RemoveKeepsOrder(s.messages, id);
    if UniqueIds(s.messages) && HasId(s.messages, id) {
      RemovePresentUnique(s.messages, id);
    }
    if !HasId(s.messages, id) {
      RemoveAbsent(s.messages, id);
    }
  }

  /** Speech-start and speech-stop set the listening flag and nothing else. */
  lemma SpeechFlags(s: ConversationState, t: string)
    ensures Step(s, SpeechStarted, t) == Reaction(s.(isListening := true), None)
    ensures Step(s, SpeechStopped, t) == Reaction(s.(isListening := false), None)
  {
  }

  /** An error event records the message (or the fallback text) and leaves the transcript alone. */
  lemma ErrorRecorded(s: ConversationState, message: Option<string>, t: string)
    ensures Step(s, Error(message), t).state.messages == s.messages
    ensures Step(s, Error(message), t).state.error == Some(if Truthy(message) then message.value else "Server error")
  {
  }

  /** Types without a case, recognised or not, change no state and send nothing. */
  lemma IgnoredChangeNothing(s: ConversationState, e: ServerEvent, t: string)
    requires IgnoredByConsole(e)
    ensures Step(s, e, t) == Reaction(s, None)
  {
  }

  /** The handler asks to send something exactly for `get_current_time` tool calls, and then
      it is one `function_call_output` with the same call id. */
  lemma RepliesOnlyToClockTool(s: ConversationState, e: ServerEvent, t: string)
    ensures Step(s, e, t).reply.Some? <==> e.FunctionCallArgumentsDone? && e.name == "get_current_time"
    ensures Step(s, e, t).reply.Some? ==> Step(s, e, t) == Reaction(s, Some(FunctionCallOutput(e.callId, t)))
  {
  }

  // ---- the event log ----

  /** How many earlier entries `prev.slice(-50)` keeps. */
  const LogKeep: nat := 50

  /** How many earlier entries survive when one is added to a log of `n` entries. */
  function Kept(n: nat): (k: nat)
    ensures k <= n && k <= LogKeep
    ensures k == n || k == LogKeep
  {
    if n < LogKeep then n else LogKeep
  }

  /** `[...prev.slice(-50), entry]`: the last (at most) 50 entries, in order, then the new one. */
  function Appended(log: seq<LogEntry>, entry: LogEntry): (r: seq<LogEntry>)
    ensures |r| == Kept(|log|) + 1 && r[Kept(|log|)] == entry
    ensures forall i :: 0 <= i < Kept(|log|) ==> r[i] == log[|log| - Kept(|log|) + i]
  {
    log[|log| - Kept(|log|)..] + [entry]
  }

  /** What `sendEvent` adds to the log: a client entry when it transmitted. */
  function LogSent(log: seq<LogEntry>, dc: DataChannel, e: ClientEvent): seq<LogEntry>
  {
    if CanSend(dc) then Appended(log, LogEntry("client", ClientTypeName(e))) else log
  }

  /** The text `dc.onopen` sends once the channel opens. */
  const Welcome: string := "Hello!" + " I can hear you now. How can I help you today?"

  /** The turn-detection mode chosen in the drop-down. */
  datatype Mode = Vad | PushToTalk

  /** The local microphone: whether a stream is held, the mute flag, and its audio track's `enabled`. */
  datatype Microphone = Microphone(hasStream: bool, isMuted: bool, trackEnabled: bool)

  /** `toggleMute`: without a stream nothing happens; otherwise the track takes the old mute flag and the flag flips. */
  function Toggled(m: Microphone): (r: Microphone)
    ensures !m.hasStream ==> r == m
    ensures m.hasStream ==> r.hasStream && r.isMuted == !m.isMuted && r.trackEnabled == m.isMuted
  {
    if m.hasStream then m.(trackEnabled := m.isMuted, isMuted := !m.isMuted) else m
  }

  /** `setAudioStream(stream)` after `getUserMedia`: a stream is held and its fresh track is
      enabled, whatever the mute flag says. */
  function Acquired(m: Microphone): Microphone
  {
    Microphone(true, m.isMuted, true)
  }

  /** The track is enabled exactly when the microphone is not muted. */
  predicate Consistent(m: Microphone)
  {
    m.hasStream ==> m.trackEnabled == !m.isMuted
  }

  /** Toggling keeps the track consistent with the flag. */
  lemma ToggleKeepsConsistent(m: Microphone)
    requires Consistent(m)
    ensures Consistent(Toggled(m))
  {
  }

  /** A fresh stream agrees with the mute flag exactly when the microphone is unmuted: the flag
      survives a disconnect, so reconnecting after muting leaves a live track under a muted flag. */
  lemma AcquiredConsistentIffUnmuted(m: Microphone)
    ensures Acquired(m).hasStream && Acquired(m).isMuted == m.isMuted
    ensures Consistent(Acquired(m)) <==> !m.isMuted
  {
  }

  /** Toggling twice restores the mute flag always, and the whole microphone state exactly
      when the track agreed with the flag to begin with. */
  lemma ToggleTwice(m: Microphone)
    ensures Toggled(Toggled(m)).isMuted == m.isMuted
    ensures Toggled(Toggled(m)) == m <==> Consistent(m)
  {
  }
}

/** The stateful side of Console.jsx: refs, flags, the event log and the wire. */
module ConsoleControl {
  import opened Common
  import opened RealtimeEvents
  import opened EventLogger
  import opened Console

  /** The Console component's controller state: refs, flags, the log and the wire. */
  class ConsoleController {
    var dc: DataChannel          // dcRef.current
    var peerOpen: bool           // pcRef.current != null
    var mic: Microphone          // audioStream, isMuted and the audio track's enabled flag
    var remoteAudio: bool        // audioRef.current.srcObject is set
    var isConnected: bool
    var conv: ConversationState  // messages, isListening, error
    var mode: Mode
    var isPushingToTalk: bool
    var events: seq<LogEntry>    // the event log
    var wire: seq<ClientEvent>   // everything sent on the data channel, in order

    /** The log never holds more than 51 entries. */
    ghost predicate Valid()
      reads this
    {
      |events| <= LogKeep + 1
    }

    /** The component's initial state for the chosen mode. */
    constructor (mode: Mode)
      ensures Valid()
      ensures dc == NoChannel && !peerOpen && mic == Microphone(false, false, false) && !remoteAudio
      ensures !isConnected && conv == ConversationState([], false, None)
      ensures this.mode == mode && !isPushingToTalk && events == [] && wire == []
    {
      dc := NoChannel;
      peerOpen := false;
      mic := Microphone(false, false, false);
      remoteAudio := false;
      isConnected := false;
      conv := ConversationState([], false, None);
      this.mode := mode;
      isPushingToTalk := false;
      events := [];
      wire := [];
    }

    /** `dcRef.current = pc.createDataChannel(...)`: a new channel, still connecting. */
    method ChannelCreated()
      modifies this`dc, this`peerOpen
      ensures dc == Channel(Connecting) && peerOpen
    {
      peerOpen := true;
      dc := Channel(Connecting);
    }

    /** `dc.onopen`: connected, logged, and the session configuration sent. */
    method ChannelOpened()
      requires Valid()
      modifies this`dc, this`isConnected, this`wire, this`events
      ensures Valid()
      ensures dc == Channel(Open) && isConnected
      ensures wire == old(wire) + [SessionUpdate]
      ensures events == Appended(Appended(old(events), LogEntry("webrtc", "datachannel.open")), LogEntry("client", "session.update"))
    {
      dc := Channel(Open);
      isConnected := true;
      LogEvent("webrtc", "datachannel.open");
      SendEvent(SessionUpdate);
    }

    /** The one-second timer `dc.onopen` starts: the welcome text through `sendTextMessage`,
        so it goes out, with `response.create` unless the mode is voice-activity detection,
        only if the channel is still open. */
    method WelcomeTimerFired()
      requires Valid()
      modifies this`wire, this`events
      ensures Valid()
      ensures wire == old(wire) + Transmit(dc, UserText(Welcome)) + (if mode != Vad then Transmit(dc, ResponseCreate) else [])
      ensures var sent := LogSent(old(events), dc, UserText(Welcome));
        events == if mode != Vad then LogSent(sent, dc, ResponseCreate) else sent
    {
      assert !IsBlank(Welcome) by {
        assert Welcome[0] == 'H';
      }
      SendTextMessage(Welcome);
    }

    /** `dc.onclose`: disconnected and logged. When the console was connected, the change of
        `isConnected` makes React run the cleanup of the effect on `[isConnected, disconnect]`,
        which captured `isConnected` as true and so calls `disconnect`. */
    method ChannelClosed()
      requires Valid()
      modifies this
      ensures Valid()
      ensures !isConnected && mic.isMuted == old(mic.isMuted)
      ensures wire == old(wire) && mode == old(mode) && isPushingToTalk == old(isPushingToTalk)
      ensures var closed := Appended(old(events), LogEntry("webrtc", "datachannel.close"));
        if old(isConnected) then
          && dc == NoChannel && !peerOpen && !mic.hasStream && !remoteAudio
          && conv == old(conv).(messages := [], isListening := false)
          && events == Appended(closed, LogEntry("client", "disconnected"))
        else
          && dc == (if old(dc).Channel? then Channel(Closed) else NoChannel)
          && peerOpen == old(peerOpen) && mic == old(mic) && remoteAudio == old(remoteAudio)
          && conv == old(conv) && events == closed
    {
      var wasConnected := isConnected;
      if dc.Channel? {
        dc := Channel(Closed);
      }
      isConnected := false;
      LogEvent("webrtc", "datachannel.close");
      if wasConnected {
        Release();
      }
    }

    /** `dc.onerror`: logged and reported. */
    method ChannelFailed()
      requires Valid()
      modifies this`conv, this`events
      ensures Valid()
      ensures conv == old(conv).(error := Some("Data channel error"))
      ensures events == Appended(old(events), LogEntry("webrtc", "datachannel.error"))
    {
      LogEvent("webrtc", "datachannel.error");
      conv := conv.(error := Some("Data channel error"));
    }

    /** `logEvent`: keep the last 50 entries and add the new one. */
    method LogEvent(source: string, eventType: string)
      requires Valid()
      modifies this`events
      ensures Valid()
      ensures events == Appended(old(events), LogEntry(source, eventType))
    {
      var keep := if |events| > LogKeep then events[|events| - LogKeep..] else events;
      events := keep + [LogEntry(source, eventType)];
    }

    /** `sendEvent`: transmit and log only while the channel is open; otherwise send nothing. */
    method SendEvent(e: ClientEvent)
      requires Valid()
      modifies this`wire, this`events
      ensures Valid()
      ensures wire == old(wire) + Transmit(dc, e)
      ensures events == LogSent(old(events), dc, e)
    {
      if dc.Channel? && dc.readyState == Open {
        wire := wire + [e];
        LogEvent("client", ClientTypeName(e));
      }
    }

    /** `handleRealtimeEvent`: log the inbound event, apply the classifier, send its reply through the gate. */
    method HandleEvent(e: ServerEvent, localTime: string)
      requires Valid()
      modifies this`conv, this`wire, this`events
      ensures Valid()
      ensures conv == Step(old(conv), e, localTime).state
      ensures var reply := Step(old(conv), e, localTime).reply;
        var logged := Appended(old(events), LogEntry("server", TypeName(e)));
        && wire == old(wire) + (if reply.Some? then Transmit(dc, reply.value) else [])
        && events == (if reply.Some? then LogSent(logged, dc, reply.value) else logged)
    {
      LogEvent("server", TypeName(e));
      var r := Step(conv, e, localTime);
      conv := r.state;
      if r.reply.Some? {
        SendEvent(r.reply.value);
      }
    }

    /** `sendTextMessage`: blank text sends nothing; otherwise the user message, then
        `response.create` unless the mode is voice-activity detection. */
    method SendTextMessage(text: string)
      requires Valid()
      modifies this`wire, this`events
      ensures Valid()
      ensures IsBlank(text) ==> wire == old(wire) && events == old(events)
      ensures !IsBlank(text) ==>
        wire == old(wire) + Transmit(dc, UserText(text)) + (if mode != Vad then Transmit(dc, ResponseCreate) else [])
      ensures !IsBlank(text) ==>
        var sent := LogSent(old(events), dc, UserText(text));
        events == if mode != Vad then LogSent(sent, dc, ResponseCreate) else sent
    {
      if IsBlank(text) {
        return;
      }
      SendEvent(UserText(text));
      if mode != Vad {
        SendEvent(ResponseCreate);
      }
    }

    /** `disconnect`: close and drop the channel and peer connection, stop the microphone,
        detach the remote audio, and clear the transcript and listening flag. */
    method Release()
      requires Valid()
      modifies this
      ensures Valid()
      ensures dc == NoChannel && !peerOpen && !mic.hasStream && !remoteAudio && !isConnected
      ensures conv == old(conv).(messages := [], isListening := false)
      ensures mic.isMuted == old(mic.isMuted)
      ensures events == Appended(old(events), LogEntry("client", "disconnected"))
      ensures wire == old(wire) && mode == old(mode) && isPushingToTalk == old(isPushingToTalk)
    {
      dc := NoChannel;
      peerOpen := false;
      if mic.hasStream {
        mic := mic.(hasStream := false);
      }
      remoteAudio := false;
      isConnected := false;
      conv := conv.(isListening := false, messages := []);
      LogEvent("client", "disconnected");
    }

    /** The disconnect button: `disconnect`, and then, when the console was connected, the
        cleanup of the effect on `[isConnected, disconnect]`, which still holds the old
        `isConnected` and calls `disconnect` a second time. */
    method Disconnect()
      requires Valid()
      modifies this
      ensures Valid()
      ensures dc == NoChannel && !peerOpen && !mic.hasStream && !remoteAudio && !isConnected
      ensures conv == old(conv).(messages := [], isListening := false)
      ensures mic.isMuted == old(mic.isMuted)
      ensures var once := Appended(old(events), LogEntry("client", "disconnected"));
        events == if old(isConnected) then Appended(once, LogEntry("client", "disconnected")) else once
      ensures wire == old(wire) && mode == old(mode) && isPushingToTalk == old(isPushingToTalk)
    {
      var wasConnected := isConnected;
      Release();
      if wasConnected {
        Release();
      }
    }

    /** `setAudioStream(stream)` once `getUserMedia` resolves: a fresh, enabled track. */
    method StreamAcquired()
      modifies this`mic
      ensures mic == Acquired(old(mic))
    {
      mic := Microphone(true, mic.isMuted, true);
    }

    /** `toggleMute`: with a stream, flip the mute flag, set the track from the old flag and log it. */
    method ToggleMute()
      requires Valid()
      modifies this`mic, this`events
      ensures Valid()
      ensures mic == Toggled(old(mic))
      ensures events == if old(mic).hasStream then Appended(old(events), LogEntry("client", "mute.toggled")) else old(events)
    {
      if mic.hasStream {
        mic := mic.(trackEnabled := mic.isMuted, isMuted := !mic.isMuted);
        LogEvent("client", "mute.toggled");
      }
    }

    /** `startPushToTalk`: in push-to-talk mode with a channel, mark pushing and clear the input buffer. */
    method StartPushToTalk()
      requires Valid()
      modifies this`isPushingToTalk, this`wire, this`events
      ensures Valid()
      ensures var active := mode == PushToTalk && dc.Channel?;
        && isPushingToTalk == (active || old(isPushingToTalk))
        && wire == old(wire) + (if active then Transmit(dc, BufferClear) else [])
        && events == if active then Appended(LogSent(old(events), dc, BufferClear), LogEntry("client", "push-to-talk.start"))
                     else old(events)
    {
      if mode == PushToTalk && dc.Channel? {
        isPushingToTalk := true;
        SendEvent(BufferClear);
        LogEvent("client", "push-to-talk.start");
      }
    }

    /** `stopPushToTalk`: while pushing, clear the flag, commit the buffer and request a response. */
    method StopPushToTalk()
      requires Valid()
      modifies this`isPushingToTalk, this`wire, this`events
      ensures Valid()
      ensures var active := mode == PushToTalk && old(isPushingToTalk) && dc.Channel?;
        && isPushingToTalk == (old(isPushingToTalk) && !active)
        && wire == old(wire) + (if active then Transmit(dc, BufferCommit) + Transmit(dc, ResponseCreate) else [])
        && events == if active
                     then LogSent(Appended(LogSent(old(events), dc, BufferCommit), LogEntry("client", "push-to-talk.stop")), dc, ResponseCreate)
                     else old(events)
    {
      if mode == PushToTalk && isPushingToTalk && dc.Channel? {
        isPushingToTalk := false;
        SendEvent(BufferCommit);
        LogEvent("client", "push-to-talk.stop");
        SendEvent(ResponseCreate);
      }
    }
  }
}
