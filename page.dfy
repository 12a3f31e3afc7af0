/** The session controller of the home page (app/page.js): a nullable SDK
    client, the three lifecycle flags, the recorded error and the microphone
    capture graph, changed by the page's handlers.

    The SDK client, the microphone stream, the audio context and the script
    processor are opaque handles. For each the model keeps the ref the page
    holds and the set of handles still alive (clients never closed, streams
    whose tracks run, contexts not closed, processors still connected), so
    that what a handler releases, and what it leaves running, can be
    stated. */
module Page {
  import opened Js
  import opened Pcm

  const MISSING_ENV := "Missing required environment variables"
  const NOT_INITIALIZED := "Session not initialized"
  const ALREADY_STARTED := "Session already started"
  const WAIT_FOR_START := "Please wait for session to start"
  const UNKNOWN_ERROR := "An unknown error occurred"

  /** Length of the all-zero frame the "Send Silence" button sends. */
  const SILENCE_SAMPLES := 6000

  /** `err?.message || "An unknown error occurred"`: the text handleError
      records; it is never empty, so a recorded error always shows. */
  function ErrorMessage(message: Option<string>): (r: string)
    ensures r != ""
    ensures Truthy(message) ==> r == message.value
    ensures !Truthy(message) ==> r == UNKNOWN_ERROR
  {
    if Truthy(message) then message.value else UNKNOWN_ERROR
  }

  /** The status line under the buttons. */
  function StatusText(sessionInitialized: bool, isSessionStarted: bool, isSpeaking: bool): string
  {
    if !sessionInitialized then "Initializing..."
    else if !isSessionStarted then "Connecting..."
    else if isSpeaking then "Speaking"
    else "Ready"
  }

  /** The four flag combinations the page can reach: speaking implies
      started, started implies initialized. */
  predicate FlagsConsistent(sessionInitialized: bool, isSessionStarted: bool, isSpeaking: bool)
  {
    (isSpeaking ==> isSessionStarted) && (isSessionStarted ==> sessionInitialized)
  }

  /** On every reachable combination of flags the status text tells the
      flags apart: it is a faithful projection of the lifecycle. */
  lemma StatusDeterminesFlags(i1: bool, s1: bool, p1: bool, i2: bool, s2: bool, p2: bool)
    requires FlagsConsistent(i1, s1, p1) && FlagsConsistent(i2, s2, p2)
    requires StatusText(i1, s1, p1) == StatusText(i2, s2, p2)
    ensures i1 == i2 && s1 == s2 && p1 == p2
  {
    var t := StatusText(i1, s1, p1);
    assert "Initializing..."[0] == 'I' && "Connecting..."[0] == 'C';
    assert "Speaking"[0] == 'S' && "Ready"[0] == 'R';
    assert t[0] == StatusText(i2, s2, p2)[0];
  }

  /** What each status text says about the flags. */
  lemma StatusTextCases(sessionInitialized: bool, isSessionStarted: bool, isSpeaking: bool)
    ensures StatusText(sessionInitialized, isSessionStarted, isSpeaking) == "Initializing..." <==> !sessionInitialized
    ensures StatusText(sessionInitialized, isSessionStarted, isSpeaking) == "Connecting..." <==> sessionInitialized && !isSessionStarted
    ensures StatusText(sessionInitialized, isSessionStarted, isSpeaking) == "Speaking" <==> sessionInitialized && isSessionStarted && isSpeaking
    ensures StatusText(sessionInitialized, isSessionStarted, isSpeaking) == "Ready" <==> sessionInitialized && isSessionStarted && !isSpeaking
  {
    assert "Initializing..."[0] == 'I' && "Connecting..."[0] == 'C';
    assert "Speaking"[0] == 'S' && "Ready"[0] == 'R';
  }

  /** The steps startSpeaking takes to build the capture graph after
      getUserMedia: create the audio context, the media-stream source, the
      script processor, then connect source, processor and destination. */
  datatype GraphStep = NewContext | NewSource | NewProcessor | Connect

  /** How building the graph ends: every step completes, or the step named
      throws and the later ones never run. */
  datatype GraphOutcome = Built | GraphThrew(at: GraphStep, message: Option<string>)

  /** The whole state of the page, for stating what a handler leaves alone. */
  datatype PageState = PageState(
    client: Option<Handle>,
    openClients: set<Handle>,
    listening: set<Handle>,
    stream: Option<Handle>,
    audioContext: Option<Handle>,
    processor: Option<Handle>,
    liveStreams: set<Handle>,
    openContexts: set<Handle>,
    connectedProcessors: set<Handle>,
    handlerSeesStarted: bool,
    nextHandle: nat,
    sessionInitialized: bool,
    isSessionStarted: bool,
    isSpeaking: bool,
    error: Option<string>,
    sent: seq<seq<int16>>)

  class HomePage {
    var client: Option<Handle>             // simliClientRef.current
    var openClients: set<Handle>           // clients constructed and never closed
    var listening: set<Handle>             // clients with the page's "close"/"error" listeners
    var stream: Option<Handle>             // streamRef.current
    var audioContext: Option<Handle>       // audioContextRef.current
    var processor: Option<Handle>          // processorRef.current
    var liveStreams: set<Handle>           // microphone streams whose tracks still run
    var openContexts: set<Handle>          // audio contexts not yet closed
    var connectedProcessors: set<Handle>   // script processors still in the graph
    var handlerSeesStarted: bool           // isSessionStarted as captured by the installed onaudioprocess closure
    var nextHandle: nat                    // the next handle the environment gives out
    var sessionInitialized: bool
    var isSessionStarted: bool
    var isSpeaking: bool
    var error: Option<string>
    var sent: seq<seq<int16>>              // frames the client accepted, in order

    ghost function State(): PageState
      reads this
    {
      PageState(client, openClients, listening, stream, audioContext, processor, liveStreams,
                openContexts, connectedProcessors, handlerSeesStarted, nextHandle,
                sessionInitialized, isSessionStarted, isSpeaking, error, sent)
    }

    /** The page's invariant: the flags are consistent, an initialized
        session has a client, the current client was never closed, and the
        callback on the processor captured a started session (it is
        installed only past startSpeaking's guard). */
    ghost predicate Valid()
      reads this
    {
      && FlagsConsistent(sessionInitialized, isSessionStarted, isSpeaking)
      && (sessionInitialized ==> client.Some?)
      && RefSet(client) <= openClients
      && (processor.Some? ==> handlerSeesStarted)
    }

    /** Nothing is held: no client, no flag set, and every capture resource
        the refs name has been released. */
    ghost predicate Quiescent()
      reads this
    {
      && client.None? && !sessionInitialized && !isSessionStarted && !isSpeaking
      && RefSet(stream) !! liveStreams
      && RefSet(audioContext) !! openContexts
      && RefSet(processor) !! connectedProcessors
    }

    /** The page as first rendered. */
    constructor ()
      ensures Valid()
      ensures State() == PageState(None, {}, {}, None, None, None, {}, {}, {}, false, 0,
                                   false, false, false, None, [])
    {
      client, openClients, listening := None, {}, {};
      stream, audioContext, processor := None, None, None;
      liveStreams, openContexts, connectedProcessors := {}, {}, {};
      handlerSeesStarted := false;
      nextHandle := 0;
      sessionInitialized, isSessionStarted, isSpeaking := false, false, false;
      error, sent := None, [];
    }

    /** initializeSimliClient. `initialize` is how the SDK's Initialize call
        ends (it is not awaited, so only a synchronous throw is seen). The
        client is constructed before Initialize runs, so it is current and
        open on both outcomes. */
    method InitializeSimliClient(apiKey: Option<string>, faceId: Option<string>, initialize: Outcome)
      requires Valid()
      modifies this
      ensures Valid()
      ensures !Truthy(apiKey) || !Truthy(faceId) ==>
        State() == old(State()).(error := Some(MISSING_ENV))
      ensures Truthy(apiKey) && Truthy(faceId) && initialize.Done? ==>
        State() == old(State()).(client := Some(old(nextHandle)), nextHandle := old(nextHandle) + 1,
                                 openClients := old(openClients) + {old(nextHandle)},
                                 listening := old(listening) + {old(nextHandle)},
                                 sessionInitialized := true, error := None)
      ensures Truthy(apiKey) && Truthy(faceId) && initialize.Threw? ==>
        State() == old(State()).(client := Some(old(nextHandle)), nextHandle := old(nextHandle) + 1,
                                 openClients := old(openClients) + {old(nextHandle)},
                                 error := Some(ErrorMessage(initialize.message)))
    {
      if !Truthy(apiKey) || !Truthy(faceId) {
        HandleError(Some(MISSING_ENV));
        return;
      }
      client := Some(nextHandle);
      openClients := openClients + {nextHandle};
      nextHandle := nextHandle + 1;
      if initialize.Threw? {
        HandleError(initialize.message);
        return;
      }
      listening := listening + {client.value};
      sessionInitialized := true;
      error := None;
    }

    /** startSimliClient. `start` is how the awaited SDK start call ends. A
        refusal or a failure records an error and changes nothing else. */
    method StartSimliClient(start: Outcome)
      requires Valid()
      modifies this
      ensures Valid()
      ensures !old(sessionInitialized) || old(client).None? ==>
        State() == old(State()).(error := Some(NOT_INITIALIZED))
      ensures old(sessionInitialized) && old(client).Some? && old(isSessionStarted) ==>
        State() == old(State()).(error := Some(ALREADY_STARTED))
      ensures old(sessionInitialized) && old(client).Some? && !old(isSessionStarted) ==>
        State() == if start.Done? then old(State()).(isSessionStarted := true, error := None)
                   else old(State()).(error := Some(ErrorMessage(start.message)))
    {
      if !sessionInitialized || client.None? {
        HandleError(Some(NOT_INITIALIZED));
        return;
      }
      if isSessionStarted {
        HandleError(Some(ALREADY_STARTED));
        return;
      }
      if start.Threw? {
        HandleError(start.message);
        return;
      }
      isSessionStarted := true;
      error := None;
    }

    /** startSpeaking. `media` is how getUserMedia ends; `graph` how far
        building the audio context and script processor (of 2048-sample
        blocks) gets. A throw part-way leaves what was already assigned in
        the refs, and alive. Every path but full success leaves isSpeaking
        false. */
    method StartSpeaking(media: Outcome, graph: GraphOutcome)
      requires Valid()
      modifies this
      ensures Valid()
      ensures isSpeaking <==> old(isSessionStarted) && media.Done? && graph.Built?
      ensures !old(isSessionStarted) ==>
        State() == old(State()).(error := Some(WAIT_FOR_START), isSpeaking := false)
      ensures old(isSessionStarted) && media.Threw? ==>
        State() == old(State()).(error := Some(ErrorMessage(media.message)), isSpeaking := false)
      ensures old(isSessionStarted) && media.Done? && graph.GraphThrew? ==>
        State() == GraphStage(MicrophoneAcquired(old(State())), graph).(error := Some(ErrorMessage(graph.message)), isSpeaking := false)
      ensures old(isSessionStarted) && media.Done? && graph.Built? ==>
        State() == GraphStage(MicrophoneAcquired(old(State())), graph).(error := None, isSpeaking := true)
    {
      if !isSessionStarted {
        HandleError(Some(WAIT_FOR_START));
        isSpeaking := false;
      } else if media.Threw? {
        HandleError(media.message);
        isSpeaking := false;
      } else {
        AcquireMicrophone();
        BuildGraph(graph);
        if graph.GraphThrew? {
          HandleError(graph.message);
          isSpeaking := false;
        } else {
          isSpeaking := true;
          error := None;
        }
      }
    }

    /** streamRef.current = the stream getUserMedia resolved to. */
    method AcquireMicrophone()
      requires Valid()
      modifies this
      ensures Valid()
      ensures State() == MicrophoneAcquired(old(State()))
    {
      stream := Some(nextHandle);
      liveStreams := liveStreams + {nextHandle};
      nextHandle := nextHandle + 1;
    }

    /** The graph-building steps of startSpeaking, up to the one that
        throws. */
    method BuildGraph(graph: GraphOutcome)
      requires Valid() && isSessionStarted
      modifies this
      ensures Valid()
      ensures State() == GraphStage(old(State()), graph)
    {
      if graph.GraphThrew? && graph.at == NewContext {
        return;
      }
      CreateAudioContext();
      if graph.GraphThrew? && graph.at != Connect {
        return;
      }
      CreateScriptProcessor();
      if graph.GraphThrew? {
        return;
      }
      ConnectProcessor();
    }

    /** audioContextRef.current = a new audio context. */
    method CreateAudioContext()
      requires Valid()
      modifies this
      ensures Valid()
      ensures State() == ContextCreated(old(State()))
    {
      audioContext := Some(nextHandle);
      openContexts := openContexts + {nextHandle};
      nextHandle := nextHandle + 1;
    }

    /** processorRef.current = a new script processor, whose onaudioprocess
        becomes the handleAudioProcess closure of the current render. */
    method CreateScriptProcessor()
      requires Valid() && isSessionStarted
      modifies this
      ensures Valid()
      ensures State() == ProcessorCreated(old(State()))
    {
      processor := Some(nextHandle);
      handlerSeesStarted := isSessionStarted;
      nextHandle := nextHandle + 1;
    }

    /** source -> processor -> destination: the processor now delivers
        blocks. */
    method ConnectProcessor()
      requires Valid() && processor.Some?
      modifies this
      ensures Valid()
      ensures State() == ProcessorConnected(old(State()))
    {
      connectedProcessors := connectedProcessors + {processor.value};
    }

    /** handleAudioProcess, as written: the callback is the closure of the
        render in which startSpeaking ran, so the isSessionStarted it tests
        is the one captured then, not the current one. A frame reaches the
        client while a client exists; a throwing send is swallowed and the
        recorded error is left as it was. */
    method HandleAudioProcess(channelData: array<Sample>, send: Outcome)
      requires Valid()
      modifies this
      ensures Valid()
      ensures State() == AudioBlockAsWritten(old(State()), EncodeFrame(channelData[..]), send)
      ensures old(processor).Some? ==>
        State() == if old(client).Some? && send.Done?
                   then old(State()).(sent := old(sent) + [EncodeFrame(channelData[..])])
                   else old(State())
    {
      if client.None? || !handlerSeesStarted {
        return;
      }
      var pcm16 := Float32ToPcm16(channelData);
      if send.Done? {
        sent := sent + [pcm16[..]];
      }
    }

    /** handleAudioProcess reading the session flag when the block arrives,
        as its guard intends: frames reach the client only while a client
        exists and the session is started. */
    method HandleAudioProcessChecked(channelData: array<Sample>, send: Outcome)
      requires Valid()
      modifies this
      ensures Valid()
      ensures State() == AudioBlock(old(State()), EncodeFrame(channelData[..]), send)
      ensures sent == if old(client).Some? && old(isSessionStarted) && send.Done?
                      then old(sent) + [EncodeFrame(channelData[..])]
                      else old(sent)
    {
      if client.None? || !isSessionStarted {
        return;
      }
      var pcm16 := Float32ToPcm16(channelData);
      if send.Done? {
        sent := sent + [pcm16[..]];
      }
    }

    /** float32ToPCM16: fills a new Int16Array element by element. Each
        element is trunc(clamp(x, -1, 1) * 32767), so it lies in
        [-32767, 32767], and NaN gives 0. */
    method Float32ToPcm16(audioData: array<Sample>) returns (pcm16: array<int16>)
      ensures fresh(pcm16)
      ensures pcm16.Length == audioData.Length
      ensures pcm16[..] == EncodeFrame(audioData[..])
      ensures forall i :: 0 <= i < pcm16.Length ==>
        pcm16[i] as int == Reference(audioData[i]) && -PCM_SCALE <= pcm16[i] as int <= PCM_SCALE
    {
      pcm16 := new int16[audioData.Length];
      for i := 0 to audioData.Length
        invariant forall j :: 0 <= j < i ==> pcm16[j] == EncodeSample(audioData[j])
      {
        pcm16[i] := ToInt16(Scale(MaxMinusOne(MinOne(audioData[i]))));
      }
      forall i | 0 <= i < pcm16.Length
        ensures pcm16[i] as int == Reference(audioData[i]) && -PCM_SCALE <= pcm16[i] as int <= PCM_SCALE
      {
        EncodeSampleIsReference(audioData[i]);
      }
    }

    /** The "Send Silence" button, enabled only while the session is started:
        an all-zero frame of 6000 samples. A throwing send escapes the click
        handler and records nothing. */
    method SendSilence(send: Outcome)
      requires Valid()
      requires isSessionStarted
      modifies this
      ensures Valid()
      ensures State() == if old(client).Some? && send.Done?
                         then old(State()).(sent := old(sent) + [SilenceFrame()])
                         else old(State())
    {
      if client.Some? && send.Done? {
        sent := sent + [SilenceFrame()];
      }
    }

    /** handleSessionClose: the client's "close" event. The capture graph is
        left as it is. */
    method HandleSessionClose()
      requires Valid()
      modifies this
      ensures Valid()
      ensures State() == old(State()).(isSessionStarted := false, isSpeaking := false)
    {
      isSessionStarted := false;
      isSpeaking := false;
    }

    /** handleError, also the client's "error" listener. */
    method HandleError(message: Option<string>)
      requires Valid()
      modifies this
      ensures Valid()
      ensures State() == old(State()).(error := Some(ErrorMessage(message)))
    {
      error := Some(ErrorMessage(message));
    }

    /** The close button of the error banner. */
    method DismissError()
      requires Valid()
      modifies this
      ensures Valid()
      ensures State() == old(State()).(error := None)
    {
      error := None;
    }

    /** stopSpeaking: stops the stream's tracks, disconnects the processor
        and closes the audio context, each only if its ref is set. The refs
        themselves are kept. */
    method StopSpeaking()
      requires Valid()
      modifies this
      ensures Valid()
      ensures State() == old(State()).(liveStreams := old(liveStreams) - RefSet(old(stream)),
                                       connectedProcessors := old(connectedProcessors) - RefSet(old(processor)),
                                       openContexts := old(openContexts) - RefSet(old(audioContext)),
                                       isSpeaking := false)
    {
      if stream.Some? {
        liveStreams := liveStreams - {stream.value};
      }
      if processor.Some? {
        connectedProcessors := connectedProcessors - {processor.value};
      }
      if audioContext.Some? {
        openContexts := openContexts - {audioContext.value};
      }
      isSpeaking := false;
    }

    /** cleanup, run when the page unmounts: stops speaking, detaches the
        client's listeners and drops the client, without closing it. It
        leaves the page quiescent, and on a quiescent page it changes
        nothing, so running it again is harmless. */
    method Cleanup()
      requires Valid()
      modifies this
      ensures Valid() && Quiescent()
      ensures old(Quiescent()) ==> State() == old(State())
      ensures RefSet(old(client)) <= openClients
      ensures State() == old(State()).(liveStreams := old(liveStreams) - RefSet(old(stream)),
                                       connectedProcessors := old(connectedProcessors) - RefSet(old(processor)),
                                       openContexts := old(openContexts) - RefSet(old(audioContext)),
                                       listening := old(listening) - RefSet(old(client)),
                                       client := None, isSpeaking := false,
                                       isSessionStarted := false, sessionInitialized := false)
    {
      StopSpeaking();
      if client.Some? {
        listening := listening - {client.value};
        client := None;
      }
      isSessionStarted := false;
      sessionInitialized := false;
    }

    /** Mounting: the first effect initializes the client; once
        sessionInitialized has become true the second effect starts it. */
    method Mount(apiKey: Option<string>, faceId: Option<string>, initialize: Outcome, start: Outcome)
      requires Valid()
      requires !sessionInitialized
      modifies this
      ensures Valid()
      ensures isSessionStarted <==>
        Truthy(apiKey) && Truthy(faceId) && initialize.Done? && start.Done? && !old(isSessionStarted)
      ensures error.None? <==> Truthy(apiKey) && Truthy(faceId) && initialize.Done? && start.Done?
      ensures !Truthy(apiKey) || !Truthy(faceId) ==>
        State() == old(State()).(error := Some(MISSING_ENV))
      ensures Truthy(apiKey) && Truthy(faceId) && initialize.Threw? ==>
        State() == old(State()).(client := Some(old(nextHandle)), nextHandle := old(nextHandle) + 1,
                                 openClients := old(openClients) + {old(nextHandle)},
                                 error := Some(ErrorMessage(initialize.message)))
      ensures Truthy(apiKey) && Truthy(faceId) && initialize.Done? ==>
        State() == old(State()).(client := Some(old(nextHandle)), nextHandle := old(nextHandle) + 1,
                                 openClients := old(openClients) + {old(nextHandle)},
                                 listening := old(listening) + {old(nextHandle)},
                                 sessionInitialized := true, isSessionStarted := start.Done?,
                                 error := if start.Done? then None else Some(ErrorMessage(start.message)))
    {
      InitializeSimliClient(apiKey, faceId, initialize);
      if sessionInitialized {
        StartSimliClient(start);
      }
    }
  }

  /** The page after getUserMedia handed out the next free handle. */
  function MicrophoneAcquired(s: PageState): PageState
  {
    s.(stream := Some(s.nextHandle), liveStreams := s.liveStreams + {s.nextHandle},
       nextHandle := s.nextHandle + 1)
  }

  /** The page after `new AudioContext()` handed out the next free handle. */
  function ContextCreated(s: PageState): PageState
  {
    s.(audioContext := Some(s.nextHandle), openContexts := s.openContexts + {s.nextHandle},
       nextHandle := s.nextHandle + 1)
  }

  /** The page after createScriptProcessor handed out the next free handle
      and the current render's handleAudioProcess was installed on it. */
  function ProcessorCreated(s: PageState): PageState
  {
    s.(processor := Some(s.nextHandle), handlerSeesStarted := s.isSessionStarted,
       nextHandle := s.nextHandle + 1)
  }

  /** The page after the processor in the ref was connected into the
      graph. */
  function ProcessorConnected(s: PageState): PageState
  {
    s.(connectedProcessors := s.connectedProcessors + RefSet(s.processor))
  }

  /** The graph-building steps of startSpeaking, run until `graph` says one
      throws: a throw in createMediaStreamSource or createScriptProcessor
      follows the context's creation, a throw in connect follows the
      processor's. */
  function GraphStage(s: PageState, graph: GraphOutcome): PageState
  {
    match graph
    case GraphThrew(NewContext, _) => s
    case GraphThrew(NewSource, _) => ContextCreated(s)
    case GraphThrew(NewProcessor, _) => ContextCreated(s)
    case GraphThrew(Connect, _) => ProcessorCreated(ContextCreated(s))
    case Built => ProcessorConnected(ProcessorCreated(ContextCreated(s)))
  }

  /** What a part-built graph leaves behind: from the context's creation on,
      the next handle is an open context held by its ref; from the
      processor's creation on, the one after it is the processor in its ref;
      only a completed graph connects it. Client, stream, flags, error and
      frames sent are untouched. */
  lemma GraphStageLeaks(s: PageState, graph: GraphOutcome)
    ensures var t := GraphStage(s, graph);
      && t.client == s.client && t.openClients == s.openClients && t.stream == s.stream
      && t.liveStreams == s.liveStreams && t.error == s.error && t.sent == s.sent
      && t.sessionInitialized == s.sessionInitialized && t.isSessionStarted == s.isSessionStarted
      && t.isSpeaking == s.isSpeaking
    ensures graph.GraphThrew? && graph.at == NewContext ==> GraphStage(s, graph) == s
    ensures !(graph.GraphThrew? && graph.at == NewContext) ==>
      GraphStage(s, graph).audioContext == Some(s.nextHandle)
      && GraphStage(s, graph).openContexts == s.openContexts + {s.nextHandle}
    ensures graph.GraphThrew? && (graph.at == NewSource || graph.at == NewProcessor) ==>
      GraphStage(s, graph).processor == s.processor
      && GraphStage(s, graph).nextHandle == s.nextHandle + 1
    ensures (graph.GraphThrew? && graph.at == Connect) || graph.Built? ==>
      GraphStage(s, graph).processor == Some(s.nextHandle + 1)
      && GraphStage(s, graph).nextHandle == s.nextHandle + 2
    ensures GraphStage(s, graph).connectedProcessors ==
      s.connectedProcessors + (if graph.Built? then {s.nextHandle + 1} else {})
  {
  }

  /** One block delivered to handleAudioProcess as written: the guard tests
      the flag its closure captured. */
  function AudioBlockAsWritten(s: PageState, frame: seq<int16>, send: Outcome): PageState
  {
    if s.client.Some? && s.handlerSeesStarted && send.Done? then s.(sent := s.sent + [frame]) else s
  }

  /** One block delivered to a handleAudioProcess that reads the flag when
      the block arrives. */
  function AudioBlock(s: PageState, frame: seq<int16>, send: Outcome): PageState
  {
    if s.client.Some? && s.isSessionStarted && send.Done? then s.(sent := s.sent + [frame]) else s
  }

  /** After a successful startSpeaking and then the client's "close" event,
      the callback as written still sends every block to the client, which
      close does not drop; reading the flag when the block arrives drops
      them. */
  lemma ClosedSessionStillStreams(s: PageState, frame: seq<int16>)
    requires s.client.Some? && s.isSessionStarted
    ensures var closed := GraphStage(MicrophoneAcquired(s), Built).(isSessionStarted := false, isSpeaking := false);
      && AudioBlockAsWritten(closed, frame, Done).sent == closed.sent + [frame]
      && AudioBlock(closed, frame, Done) == closed
  {
  }

  /** The frame "Send Silence" sends: `new Int16Array(6000)`. */
  function SilenceFrame(): (f: seq<int16>)
    ensures |f| == SILENCE_SAMPLES
    ensures forall i :: 0 <= i < |f| ==> f[i] == 0
  {
    seq(SILENCE_SAMPLES, _ => 0)
  }

  /** The silence frame is what the encoder makes of 6000 zero samples, so
      it obeys the same frame contract as captured audio. */
  lemma SilenceIsEncodedZeros()
    ensures SilenceFrame() == EncodeFrame(seq(SILENCE_SAMPLES, _ => Finite(0.0)))
  {
    var zeros := seq(SILENCE_SAMPLES, _ => Finite(0.0));
    forall i | 0 <= i < SILENCE_SAMPLES
      ensures EncodeFrame(zeros)[i] == 0
    {
      EncodeSampleIsReference(zeros[i]);
    }
  }
}
