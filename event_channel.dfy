/**
 * The WebSocket effect of `App` (frontend/src/App.jsx): commands from the backend
 * switch the AI overlay on and play the assistant's voice, the audio's samples feed
 * the waveform, and a closed socket is reopened 3 s later while the app is mounted.
 *
 * The transport, `Audio`, `AudioContext` and `requestAnimationFrame` are not
 * modelled; their callbacks are the methods below, called by the environment, and
 * time is a logical clock in milliseconds.
 */
module EventChannel {
  import opened Common

  /** The `payload` field of a parsed message. */
  datatype Payload = Missing | NullPayload | Fields(url: Option<string>)

  /**
   * A frame as `JSON.parse` sees it: not JSON, the JSON `null`, or a value whose
   * `command` (absent for anything but an object holding a string) and `payload` are read.
   */
  datatype Message = Unparsable | ParsedNull | Parsed(command: Option<string>, payload: Payload)

  /** What the handler did with one message. */
  datatype Reaction = Reaction(aiActive: bool, voicePlaying: bool, audio: Option<Option<string>>, threw: bool)

  const StartAiMode := "START_AI_MODE"
  const PlayAudio := "PLAY_AUDIO"

  /** The analyser's `frequencyBinCount` for `fftSize = 2048`. */
  const FrameSize := 1024
  /** Delay before the sample buffer is emptied after the audio ends. */
  const ClearDelay := 800
  /** Delay before reconnecting after a close. */
  const ReconnectDelay := 3000

  predicate IsCommand(m: Message, c: string)
  {
    m.Parsed? && m.command == Some(c)
  }

  /**
   * `onmessage` on a mounted app, from the two flags: `START_AI_MODE` sets the AI
   * flag; `PLAY_AUDIO` sets the voice flag and then reads `payload.url`, which throws
   * when there is no payload object, leaving the flag set; a frame that is not JSON,
   * or is JSON `null`, throws before anything changes. An `Audio` is created for
   * `payload.url` only when that read succeeds.
   */
  function Dispatch(aiActive: bool, voicePlaying: bool, m: Message): (r: Reaction)
    ensures r.aiActive <==> aiActive || IsCommand(m, StartAiMode)
    ensures r.voicePlaying <==> voicePlaying || IsCommand(m, PlayAudio)
    ensures r.audio.Some? <==> IsCommand(m, PlayAudio) && m.payload.Fields?
    ensures r.audio.Some? ==> r.audio.value == m.payload.url
    ensures r.threw <==> m.Unparsable? || m.ParsedNull? || (IsCommand(m, PlayAudio) && !m.payload.Fields?)
  {
    match m
    case Unparsable => Reaction(aiActive, voicePlaying, None, true)
    case ParsedNull => Reaction(aiActive, voicePlaying, None, true)
    case Parsed(command, payload) =>
      if command == Some(StartAiMode) then Reaction(true, voicePlaying, None, false)
      else if command == Some(PlayAudio) then
        (match payload
         case Fields(url) => Reaction(aiActive, true, Some(url), false)
         case _ => Reaction(aiActive, true, None, true))
      else Reaction(aiActive, voicePlaying, None, false)
  }

  /** Any other command, `AI_RESPONSE_TEXT` included, leaves both flags alone and throws nothing. */
  lemma OtherCommandsInert(aiActive: bool, voicePlaying: bool, command: Option<string>, payload: Payload)
    requires command != Some(StartAiMode) && command != Some(PlayAudio)
    ensures Dispatch(aiActive, voicePlaying, Parsed(command, payload)) == Reaction(aiActive, voicePlaying, None, false)
  {
  }

  /** Neither command ever clears a flag: only the audio's end does. */
  lemma DispatchOnlySets(aiActive: bool, voicePlaying: bool, m: Message)
    ensures aiActive ==> Dispatch(aiActive, voicePlaying, m).aiActive
    ensures voicePlaying ==> Dispatch(aiActive, voicePlaying, m).voicePlaying
  {
  }

  /** The browser's state of the socket the effect holds. */
  datatype SocketState = Connecting | Open | Closing | Closed

  /** One `Audio` created by `PLAY_AUDIO`, as its level loop sees it. */
  datatype AudioState = Loading | Playing | Ended | Stopped

  /** A pending timer: emptying the sample buffer, or reopening the socket. */
  datatype Timer = ClearSamples(at: int) | Reconnect(at: int)

  class Channel {
    /** The effect's local `isMounted`. */
    var mounted: bool
    /** How many sockets `connect` has opened. */
    var sockets: nat
    var socket: SocketState
    var aiActive: bool
    var voicePlaying: bool
    var audioData: seq<bv8>
    var audios: seq<AudioState>
    var timers: seq<Timer>
    /** Handler calls that threw. */
    var errors: nat
    var now: int

    /** Mounting runs the effect: it connects once. */
    constructor (start: int)
      ensures mounted && sockets == 1 && socket == Connecting
      ensures !aiActive && !voicePlaying && audioData == [] && audios == [] && timers == []
      ensures errors == 0 && now == start
    {
      mounted, sockets, socket := true, 1, Connecting;
      aiActive, voicePlaying, audioData, audios := false, false, [], [];
      timers, errors, now := [], 0, start;
    }

    predicate NoneDueBefore(t: int)
      reads this
    {
      forall j :: 0 <= j < |timers| ==> t <= timers[j].at
    }

    /** `connect()`: a new socket replaces the variable's old one. */
    method Connect()
      modifies this
      ensures sockets == old(sockets) + 1 && socket == Connecting
      ensures mounted == old(mounted) && aiActive == old(aiActive) && voicePlaying == old(voicePlaying)
      ensures audioData == old(audioData) && audios == old(audios) && timers == old(timers)
      ensures errors == old(errors) && now == old(now)
    {
      sockets := sockets + 1;
      socket := Connecting;
    }

    /** `onopen` only logs. */
    method OnOpen(t: int)
      requires now <= t && NoneDueBefore(t) && socket == Connecting
      modifies this
      ensures socket == Open && now == t
      ensures mounted == old(mounted) && sockets == old(sockets) && aiActive == old(aiActive)
      ensures voicePlaying == old(voicePlaying) && audioData == old(audioData) && audios == old(audios)
      ensures timers == old(timers) && errors == old(errors)
    {
      socket, now := Open, t;
    }

    /** `onmessage` at time `t`. */
    method OnMessage(t: int, m: Message)
      requires now <= t && NoneDueBefore(t) && socket == Open
      modifies this
      ensures now == t && mounted == old(mounted) && sockets == old(sockets) && socket == old(socket)
      ensures audioData == old(audioData) && timers == old(timers)
      ensures !old(mounted) ==>
        aiActive == old(aiActive) && voicePlaying == old(voicePlaying) && audios == old(audios)
        && errors == old(errors)
      ensures old(mounted) ==>
        var r := Dispatch(old(aiActive), old(voicePlaying), m);
        aiActive == r.aiActive && voicePlaying == r.voicePlaying
        && audios == old(audios) + (if r.audio.Some? then [Loading] else [])
        && errors == old(errors) + (if r.threw then 1 else 0)
    {
      now := t;
      if !mounted {
        return;
      }
      var r := Dispatch(aiActive, voicePlaying, m);
      aiActive, voicePlaying := r.aiActive, r.voicePlaying;
      if r.audio.Some? {
        audios := audios + [Loading];
      }
      if r.threw {
        errors := errors + 1;
      }
    }

    /**
     * One run of `updateLevel` for audio `k`: `play()` resolving, or an animation
     * frame. A paused or ended audio empties the buffer and stops the loop; a playing
     * one publishes the analyser's samples.
     */
    method OnFrame(t: int, k: nat, samples: seq<bv8>)
      requires now <= t && NoneDueBefore(t)
      requires k < |audios| && audios[k] != Stopped && |samples| == FrameSize
      modifies this
      ensures now == t
      ensures old(audios[k]) == Ended ==> audioData == [] && audios == old(audios)[k := Stopped]
      ensures old(audios[k]) != Ended ==> audioData == samples && audios == old(audios)[k := Playing]
      ensures mounted == old(mounted) && sockets == old(sockets) && socket == old(socket)
      ensures aiActive == old(aiActive) && voicePlaying == old(voicePlaying)
      ensures timers == old(timers) && errors == old(errors)
    {
      now := t;
      if audios[k] == Ended {
        audioData := [];
        audios := audios[k := Stopped];
      } else {
        audioData := samples;
        audios := audios[k := Playing];
      }
    }

    /** `audio.onended`: both flags clear and the buffer is emptied 800 ms later. */
    method OnAudioEnded(t: int, k: nat)
      requires now <= t && NoneDueBefore(t)
      requires k < |audios| && audios[k] == Playing
      modifies this
      ensures now == t && !aiActive && !voicePlaying
      ensures audios == old(audios)[k := Ended]
      ensures timers == old(timers) + [ClearSamples(t + ClearDelay)]
      ensures mounted == old(mounted) && sockets == old(sockets) && socket == old(socket)
      ensures audioData == old(audioData) && errors == old(errors)
    {
      now := t;
      voicePlaying, aiActive := false, false;
      audios := audios[k := Ended];
      timers := timers + [ClearSamples(t + ClearDelay)];
    }

    /** `onerror` closes the socket. */
    method OnError(t: int)
      requires now <= t && NoneDueBefore(t) && (socket == Connecting || socket == Open)
      modifies this
      ensures now == t && socket == Closing
      ensures mounted == old(mounted) && sockets == old(sockets) && aiActive == old(aiActive)
      ensures voicePlaying == old(voicePlaying) && audioData == old(audioData) && audios == old(audios)
      ensures timers == old(timers) && errors == old(errors)
    {
      now, socket := t, Closing;
    }

    /** `onclose`: while mounted, exactly one reconnect is scheduled 3 s later. */
    method OnClose(t: int)
      requires now <= t && NoneDueBefore(t) && socket != Closed
      modifies this
      ensures now == t && socket == Closed
      ensures timers == old(timers) + (if old(mounted) then [Reconnect(t + ReconnectDelay)] else [])
      ensures mounted == old(mounted) && sockets == old(sockets) && aiActive == old(aiActive)
      ensures voicePlaying == old(voicePlaying) && audioData == old(audioData) && audios == old(audios)
      ensures errors == old(errors)
    {
      now, socket := t, Closed;
      if mounted {
        timers := timers + [Reconnect(t + ReconnectDelay)];
      }
    }

    /** Runs the earliest pending timer `k`. */
    method Fire(k: nat)
      requires k < |timers| && now <= timers[k].at
      requires forall j :: 0 <= j < |timers| ==> timers[k].at <= timers[j].at
      modifies this
      ensures now == old(timers[k].at) && timers == old(timers[..k] + timers[k + 1..])
      ensures old(timers[k]).ClearSamples? ==>
        audioData == [] && sockets == old(sockets) && socket == old(socket)
      ensures old(timers[k]).Reconnect? ==>
        audioData == old(audioData)
        && sockets == old(sockets) + (if old(mounted) then 1 else 0)
        && socket == (if old(mounted) then Connecting else old(socket))
      ensures mounted == old(mounted) && aiActive == old(aiActive) && voicePlaying == old(voicePlaying)
      ensures audios == old(audios) && errors == old(errors)
    {
      var tm := timers[k];
      timers := timers[..k] + timers[k + 1..];
      now := tm.at;
      match tm {
        case ClearSamples(_) =>
          audioData := [];
        case Reconnect(_) =>
          if mounted {
            Connect();
          }
      }
    }

    /** The effect's cleanup: unmount, then close the current socket. */
    method Dispose(t: int)
      requires now <= t && NoneDueBefore(t)
      modifies this
      ensures now == t && !mounted
      ensures socket == if old(socket) == Connecting || old(socket) == Open then Closing else old(socket)
      ensures sockets == old(sockets) && aiActive == old(aiActive) && voicePlaying == old(voicePlaying)
      ensures audioData == old(audioData) && audios == old(audios) && timers == old(timers)
      ensures errors == old(errors)
    {
      now, mounted := t, false;
      if socket == Connecting || socket == Open {
        socket := Closing;
      }
    }
  }

  /**
   * Voice round: the AI mode starts, a `PLAY_AUDIO` plays to its end, and 800 ms
   * later both flags are down and the waveform buffer is empty again.
   */
  method VoiceRoundScenario(samples: seq<bv8>) returns (aiActive: bool, voicePlaying: bool, buffer: seq<bv8>)
    requires |samples| == FrameSize
    ensures !aiActive && !voicePlaying && buffer == []
  {
    var c := new Channel(0);
    c.OnOpen(10);
    c.OnMessage(20, Parsed(Some(StartAiMode), Missing));
    assert c.aiActive;
    c.OnMessage(30, Parsed(Some(PlayAudio), Fields(Some("/audio/reply.mp3"))));
    assert c.voicePlaying && c.audios == [Loading];
    c.OnFrame(40, 0, samples);
    assert c.audioData == samples;
    c.OnAudioEnded(5000, 0);
    c.OnFrame(5016, 0, samples);
    assert c.timers == [ClearSamples(5800)];
    c.Fire(0);
    aiActive, voicePlaying, buffer := c.aiActive, c.voicePlaying, c.audioData;
  }

  /**
   * Reconnection: a close while mounted reopens a socket 3 s later; after the cleanup
   * a close schedules nothing, and a reconnect already pending opens nothing.
   */
  method ReconnectScenario() returns (socketsOpened: nat, pendingAfter: nat)
    ensures socketsOpened == 2 && pendingAfter == 0
  {
    var c := new Channel(0);
    c.OnOpen(100);
    c.OnError(200);
    c.OnClose(210);
    assert c.timers == [Reconnect(3210)];
    c.Fire(0);
    assert c.sockets == 2 && c.socket == Connecting;
    c.OnOpen(3300);
    c.OnClose(4000);
    assert c.timers == [Reconnect(7000)];
    c.Dispose(4100);
    c.Fire(0);
    socketsOpened, pendingAfter := c.sockets, |c.timers|;
  }
}
