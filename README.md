# Simli avatar session: a verified Dafny model

This project models the sequential core of a Next.js front end that streams
microphone audio to a remote avatar service through an SDK client and plays
back the avatar's video. Four pieces of logic are modelled and proved:

- **The home page's session controller** (`app/page.js`, module `Page`,
  class `HomePage`). It holds a nullable client ref, the flags
  `sessionInitialized`, `isSessionStarted` and `isSpeaking`, a recorded
  `error`, and the capture refs for the microphone stream, the audio
  context and the script processor. It has guarded handlers for initialize,
  start, start and stop speaking, close, error and cleanup. The per-block
  audio callback is meant to forward an encoded frame only while the
  session is started; as written it tests the flag its closure captured
  when capture began. The status line is a pure function of the three flags.
- **The PCM encoder** (`float32ToPCM16`, module `Pcm`, used by both
  controllers' encoder methods). It clamps each sample to [-1, 1], scales it
  by 0x7fff and stores it into an `Int16Array`, whose ToInt16 conversion
  (ECMA-262) truncates toward zero and maps NaN to 0.
- **The avatar component's bounded retry policy**
  (`components/AvatarComponents.js`, module `Avatar`, class
  `AvatarComponent`). It has an attempt counter with `MAX_RETRIES = 3`, at
  most one pending retry timer of 5000 ms and one current SDK client.
- **The audio worklet** (`app/public/audioProcessor.js`, module `Worklet`)
  and **the TTL response cache** (`services/cache.js`, module `Cache`). The
  cache is a map from key to value and timestamp whose entries expire
  300000 ms after they are stored.

React state setters and refs are modelled as synchronous field updates.
The one place where a stale render value changes the page's behaviour is
modelled explicitly. The script processor's `onaudioprocess` keeps the
closure of the render in which startSpeaking ran; the model gives that
closure its own copy of `isSessionStarted` (`handlerSeesStarted`).
Everything the controllers cannot see into is a parameter of the handler it
affects: how an SDK call, `getUserMedia` or a send ends (`Js.Outcome`), the
environment variables (`Js.Option<string>`, where `undefined` and `""` are
falsy) and `Date.now()`. Clients, streams, audio contexts, processors and
timers are opaque handles. For each kind the model keeps the ref the
component holds and the set of handles still alive, so a contract can say
what a handler releases and what it leaves running. These sets are the
clients never closed, the streams whose tracks run, the contexts not
closed, the processors still connected and the timers not fired or
cleared. The page never closes a client, so its set of open clients only
grows. Separately it records which clients still carry its listeners.

Samples are JavaScript numbers: a real, an infinity or NaN. A Float32
sample has a 24-bit significand and 0x7fff needs 15 bits. The product
therefore fits a double exactly, and real arithmetic computes the same
value as the browser does.

Where the code and the design description of this system disagree, the
model follows the code:

- The design asks for a floor after scaling. The code truncates toward
  zero, through ToInt16. `Pcm.EncodeSampleOdd` proves the resulting
  symmetry, which a floor would not have.
- The design says that once retries are exhausted the controller moves to
  a closed state. The code only sets the status text; the current client
  stays open.
- The design says that after MAX_RETRIES consecutive failures no timer is
  pending. In the code the third failure still schedules the third
  reconnection; only the fourth gives up (`Avatar.FailuresAreBounded`).
- The design says capture stops when the session leaves the connected
  state. The page's close handler only clears the two flags; the capture
  graph keeps running until stopSpeaking or cleanup. Its frames are still
  sent to the client, because the callback tests the flag it captured,
  which is true (see Findings).
- The design's teardown releases the transport. The page's cleanup only
  removes the client's listeners and drops the ref; it never calls
  `close()` (`Page.HomePage.Cleanup` keeps the dropped client open).
- The design says a refused start changes no state. The page records the
  refusal in `error`; only the flags stay unchanged.
- The design gates capture on the transport's `connected` event. The page
  gates it on `isSessionStarted`, which is set when the awaited `start()`
  resolves.

`Avatar.RetryButtonOnlyWithoutApiKey` proves something the source does not
say. Every "Error: ..." status set by a failed initialization is replaced
by handleReconnect before the handler returns. So the "Retry Connection"
button (which needs the status to include "Error") can only appear for the
missing-API-key status.

## Model

| member | source | states |
|---|---|---|
| `Pcm.EncodeSampleIsReference` | app/page.js:122 | The JavaScript pipeline, Math.min then Math.max then `* 0x7fff` then ToInt16, equals trunc(clamp(x,-1,1)*32767) for a finite x, 0 for NaN and ±32767 for the infinities. The result is always in [-32767, 32767], so ToInt16's wrap-around never fires. |
| `Pcm.NaNEncodesToZero` | app/page.js:122 | A NaN sample encodes to 0: the clamp propagates NaN and ToInt16(NaN) is 0. |
| `Pcm.FullScaleSaturates` | app/page.js:122 | A sample of 1 or more encodes to 32767; a sample of -1 or less encodes to -32767. |
| `Pcm.EncodeSampleOdd` | app/page.js:122 | Truncation toward zero makes the encoding odd: -x encodes to the negation of x's code. |
| `Pcm.EncodeSampleMonotonic` | app/page.js:122 | The encoding is monotone in the sample value. |
| `Pcm.EncodeFrameIsReference` | app/page.js:119-125 | Element i of an encoded frame is the reference value of sample i and lies in [-32767, 32767]. |
| `Pcm.EncodeFrame` | app/page.js:120 | The encoded frame has as many elements as the input block. |
| `Page.HomePage.Float32ToPcm16` | app/page.js:119-125 | The loop fills a freshly allocated Int16Array of the input's length with EncodeFrame of the input. Each element is trunc(clamp(x,-1,1)*32767) and lies in [-32767, 32767]. |
| `Worklet.PcmWorkletProcessor.Float32ToPcm16` | app/public/audioProcessor.js:14-20 | The worklet's encoder meets the same contract as the page's encoder, against the same EncodeFrame, so the two compute the same function. |
| `Page.ErrorMessage` | app/page.js:134 | The recorded text is the error's message when that is truthy, otherwise "An unknown error occurred". It is never empty, so a recorded error always shows its banner. |
| `Page.StatusTextCases` | app/page.js:241-247 | Each status text holds exactly when its condition holds: "Initializing..." iff not initialized, "Connecting..." iff initialized and not started, "Speaking" iff started and speaking, "Ready" iff started and not speaking. |
| `Page.StatusDeterminesFlags` | app/page.js:241-247 | On the flag combinations the page can reach (speaking implies started, started implies initialized), equal status texts mean equal flags. |
| `Page.HomePage.constructor` | app/page.js:10-19 | The page starts with no client, no capture refs, all flags false and no error. |
| `Page.HomePage.InitializeSimliClient` | app/page.js:21-51 | With apiKey or faceID missing, only `error` changes, to "Missing required environment variables": no client is created and sessionInitialized stays false. Otherwise a new client is constructed, becomes current and joins the open clients. If Initialize throws, the error is recorded and the flags stay as they were. Otherwise the listeners are attached, sessionInitialized becomes true and the error is cleared. The flag invariant is kept. |
| `Page.HomePage.StartSimliClient` | app/page.js:53-69 | Without initialization or without a client, start records "Session not initialized". When already started it records "Session already started". A failed start records its message. These three change nothing but `error`. A successful start sets isSessionStarted and clears the error. |
| `Page.HomePage.StartSpeaking` | app/page.js:71-103 | isSpeaking ends true iff the session was started, getUserMedia succeeds and every graph step succeeds. A refusal changes only `error` and isSpeaking. After getUserMedia, a throw at any graph step records the error and keeps whatever was already assigned. Those are the live stream, from the context's creation on an open context, and from the processor's creation on the processor (see GraphStageLeaks). Success leaves all three refs holding fresh live handles, the processor connected. |
| `Page.HomePage.AcquireMicrophone` | app/page.js:77-79 | The stream ref takes a fresh, live stream handle. |
| `Page.HomePage.BuildGraph` | app/page.js:81-95 | The graph is built step by step until the step that throws, and the new state is GraphStage of the old. |
| `Page.HomePage.CreateAudioContext` | app/page.js:81-82 | The context ref takes a fresh handle, which joins the open contexts. |
| `Page.HomePage.CreateScriptProcessor` | app/page.js:87-92 | The processor ref takes a fresh handle. Its callback captures the current isSessionStarted, which is true there. |
| `Page.HomePage.ConnectProcessor` | app/page.js:94-95 | The processor in the ref joins the connected processors. Nothing else changes. |
| `Page.GraphStageLeaks` | app/page.js:81-101 | A throw in `new AudioContext()` leaves the page as it was. Any later throw leaves the next handle as an open context in its ref. A throw at connect leaves the handle after it as the unconnected processor in its ref. Only a completed graph connects the processor. Client, stream, flags, error and frames sent are untouched. |
| `Page.HomePage.HandleAudioProcess` | app/page.js:92-117 | As written: a block adds exactly one frame, EncodeFrame of the block, to the frames sent, in arrival order. This happens when a client exists, the flag captured by the installed closure is set and the send does not throw. A throwing send changes nothing, `error` included. While a processor is installed, the current isSessionStarted plays no part. |
| `Page.HomePage.HandleAudioProcessChecked` | app/page.js:105-117 | With the flag read when the block arrives, a frame is sent exactly when a client exists, the session is started and the send completes. The new state is AudioBlock of the old. |
| `Page.ClosedSessionStillStreams` | app/page.js:92-130 | After a successful startSpeaking and then "close", the callback as written still sends each block to the client. Reading the flag fresh drops the block and leaves the page unchanged. |
| `Page.HomePage.SendSilence` | app/page.js:215-224 | While the session is started, a click sends one all-zero frame of 6000 samples when a client exists and the send does not throw. Nothing else changes. |
| `Page.SilenceFrame` | app/page.js:217 | The frame `new Int16Array(6000)` has 6000 elements, all zero. |
| `Page.SilenceIsEncodedZeros` | app/page.js:217 | The silence frame is what the encoder makes of 6000 zero samples. |
| `Page.HomePage.HandleSessionClose` | app/page.js:127-131 | The close event sets isSessionStarted and isSpeaking to false and changes nothing else. |
| `Page.HomePage.HandleError` | app/page.js:133-137 | Only `error` changes, to ErrorMessage of the error. |
| `Page.HomePage.DismissError` | app/page.js:186-195 | The banner's close button clears `error` and nothing else. |
| `Page.HomePage.StopSpeaking` | app/page.js:139-153 | The referenced stream, processor and context are released, each only if its ref is set. The refs are kept and isSpeaking becomes false. |
| `Page.HomePage.Cleanup` | app/page.js:155-165 | Afterwards the page is quiescent: no client ref, all three flags false and every referenced capture resource released. The client's listeners are detached when it existed, and the dropped client stays open, because close() is never called. On a page that was already quiescent it changes nothing, so repeating it is safe. |
| `Page.HomePage.Mount` | app/page.js:21-178 | The new state after the two mount effects is given in full. With apiKey or faceID missing, only `error` changes, to "Missing required environment variables": there is no client and no flag. If Initialize throws, the client is current and open and the error is recorded, but the page is not initialized. Otherwise the listeners are attached and sessionInitialized is true. isSessionStarted then follows start, and the error is clear or holds start's message. The session is started iff both values are present and both calls succeed. The error is clear exactly then. |
| `Worklet.PcmWorkletProcessor.Process` | app/public/audioProcessor.js:2-12 | As written, process throws a TypeError exactly when a first input exists with zero channels. Otherwise it returns true. It posts exactly one frame, EncodeFrame of the first channel, when the first input has a channel, and none otherwise. |
| `Worklet.UnconnectedInputThrows` | app/public/audioProcessor.js:3-6 | The input shape Web Audio passes for an unconnected input, `[[]]`, makes the written process throw and post nothing. |
| `Worklet.PcmWorkletProcessor.ProcessChecked` | app/public/audioProcessor.js:2-12 | With the channel checked too, process never throws and always returns true. It posts exactly one frame exactly when the first input has a channel. |
| `Worklet.PcmWorkletProcessor.constructor` | app/public/audioProcessor.js:1 | A new processor has posted nothing. |
| `Avatar.Decide` | components/AvatarComponents.js:82-94 | The policy gives up iff MAX_RETRIES (3) reconnections were already made. Otherwise it schedules one after 5000 ms and counts attempts + 1, which never exceeds 3. |
| `Avatar.ReconnectingStatusTexts` | components/AvatarComponents.js:88-90 | The reconnection statuses read "Reconnecting... Attempt 1/3", "Reconnecting... Attempt 2/3" and "Reconnecting... Attempt 3/3". |
| `Avatar.AttemptIndicator` | components/AvatarComponents.js:117-121 | The line is shown iff 0 < attempts < MAX_RETRIES, and then reads "Attempt k of 3". `Avatar.IndicatorFollowsPolicy` ties it to the retry state. |
| `Avatar.AttemptIndicatorTexts` | components/AvatarComponents.js:117-121 | The indicator reads "Attempt 1 of 3" at one attempt and "Attempt 2 of 3" at two. |
| `Avatar.IndicatorFollowsPolicy` | components/AvatarComponents.js:82-121 | After a failure that schedules reconnection k < 3, the indicator reads "Attempt k of 3" for the same k as the "Reconnecting... Attempt k/3" status. After the third reconnection is scheduled, only the status ("Attempt 3/3") announces it. Giving up and "connected" both hide the indicator. |
| `Avatar.AtMostOneOfEach` | components/AvatarComponents.js:8-9 | Under the component invariant at most one client is open and at most one retry timer is pending. |
| `Avatar.ClearLeavesNoTimer` | components/AvatarComponents.js:14-19 | clearRetryTimeout leaves no pending timer and an empty ref, keeps the invariant, and is a no-op when the ref is empty. |
| `Avatar.ReconnectOutcome` | components/AvatarComponents.js:79-95 | With 3 attempts made, a failure leaves no timer and the status "Max reconnection attempts reached. Please refresh the page.". Otherwise attempts grow by exactly 1, the status reads "Reconnecting... Attempt k+1/3" and the only pending timer is one fresh 5000 ms timer held by the ref. Clients are untouched. |
| `Avatar.FailuresAreBounded` | components/AvatarComponents.js:79-95 | n consecutive failures leave min(attempts + n, 3) attempts and schedule min(n, 3 - attempts) timers. Once more failures than that arrive, no timer is pending and the status is the give-up text. |
| `Avatar.ConnectedResetsPolicy` | components/AvatarComponents.js:49-54 | "connected" resets attempts to 0 and cancels any pending timer. The next failure counts as attempt 1. |
| `Avatar.InitializeKeepsOneClient` | components/AvatarComponents.js:21-77 | Re-initialization closes and nulls the previous client before constructing the new one. Afterwards the new client is current and the only open one, whether Initialize or start threw or not. |
| `Avatar.UnmountReleasesAll` | components/AvatarComponents.js:105-110 | Once the registered cleanup has run, no client is open and no timer is pending. |
| `Avatar.RetryButtonOnlyWithoutApiKey` | components/AvatarComponents.js:133 | Of the statuses a handler can leave behind, only "Error: Simli API key not configured" makes the Retry Connection button render. |
| `Avatar.AvatarComponent.constructor` | components/AvatarComponents.js:8-11 | The component starts with status "Initializing...", no attempts, no client and no timer. |
| `Avatar.AvatarComponent.ClearRetryTimeoutRef` | components/AvatarComponents.js:14-19 | The new state is ClearRetryTimeout of the old one: no timer is pending and the ref is null. Nothing changes when the ref was null. |
| `Avatar.AvatarComponent.HandleReconnect` | components/AvatarComponents.js:79-95 | The new state is Reconnect of the old one. Its properties are ReconnectOutcome and FailuresAreBounded. |
| `Avatar.AvatarComponent.InitializeSimliClient` | components/AvatarComponents.js:21-77 | The new state is Initialize of the old one: a replaced client, then "Starting..." or, on a throw, the error through the retry policy. |
| `Avatar.AvatarComponent.ReplaceClientRef` | components/AvatarComponents.js:23-33 | The old client is closed and nulled, then a new client is constructed and made current. |
| `Avatar.AvatarComponent.OnConnected` | components/AvatarComponents.js:49-54 | The status becomes "Connected", attempts reset to 0 and the timer is cancelled. |
| `Avatar.AvatarComponent.OnDisconnected` | components/AvatarComponents.js:56-60 | "Disconnected" goes through the retry policy. |
| `Avatar.AvatarComponent.OnFailed` | components/AvatarComponents.js:62-66 | "failed" goes through the retry policy. |
| `Avatar.AvatarComponent.RetryTimerFires` | components/AvatarComponents.js:92-94 | The pending timer fires and re-initializes. The ref keeps the spent id. |
| `Avatar.AvatarComponent.RetryConnection` | components/AvatarComponents.js:136-139 | Manual retry resets attempts to 0, then re-initializes. |
| `Avatar.AvatarComponent.Mount` | components/AvatarComponents.js:97-111 | Without an API key only the status changes and no cleanup is registered. Otherwise it initializes and registers the cleanup. |
| `Avatar.AvatarComponent.Unmounted` | components/AvatarComponents.js:105-110 | The registered cleanup cancels the timer and closes the current client, whose ref is kept. |
| `Cache.Get` | services/cache.js:4-15 | A missing key gives null and leaves the map unchanged. A stale entry (now - timestamp > 300000) gives null and is removed. A fresh one gives its value and leaves the map unchanged. Other keys are never touched. |
| `Cache.Set` | services/cache.js:17-19 | The key maps to the value stamped with now, any earlier entry replaced. Other keys are unchanged. |
| `Cache.SetThenGetFresh` | services/cache.js:9-18 | Up to 300000 ms after a set, get returns the stored value and leaves the map as it was. |
| `Cache.SetThenGetStale` | services/cache.js:9-12 | Later than that, get returns null and the map loses that key and nothing else. |
| `Cache.ExpiryBoundary` | services/cache.js:2-12 | Exactly 300000 ms after the set the value is still served. One millisecond later it is gone. |
| `Cache.GetIsIdempotent` | services/cache.js:4-15 | Two gets at the same time give the same answer and the same map. |
| `Cache.SetOverwrites` | services/cache.js:18 | A second set of a key replaces the first entirely, timestamp included. |
| `Cache.SetLeavesOtherKeys` | services/cache.js:18 | A set on one key does not change what get returns for any other key. |
| `Cache.ResponseCache.constructor` | services/cache.js:1 | The module-level cache starts as an empty Map. |
| `Cache.ResponseCache.GetCachedResponse` | services/cache.js:4-15 | The return value and the new map are those of Get. |
| `Cache.ResponseCache.SetCachedResponse` | services/cache.js:17-19 | The new map is that of Set. |

## Left out

- React rendering, re-render timing and state batching are left out. Each setter call and ref write is a synchronous field update. The handlers' awaits are atomic, so no event can interleave inside a handler.
- Avatar.AvatarComponent.HandleReconnect: reads the attempt counter fresh, the intended design. As written, handleReconnect reads the counter captured by the render in which the client's listeners were registered. That stale value can stay 0, so real runs may retry without bound. The model does not capture that behaviour.
- The SDK (`SimliClient`), WebRTC, `getUserMedia`, `AudioContext`, the ScriptProcessor graph and `setTimeout` are opaque. Their effect on a handler is an `Outcome` parameter, a fresh handle, or an event method.
- In the page, the SDK's Initialize call is not awaited. Only a synchronous throw is modelled. A rejected promise behaves like success for the controller.
- Avatar events are accepted from the current client at any time. Listener registration on the avatar component's clients is not tracked, and neither are events from clients that were already closed.
- A throw in the second `connect` (app/page.js:95) leaves the source wired to the processor but the processor not wired to the destination. The model counts the processor as unconnected either way, as it does after a throw in the first `connect`.
- The page's "close" and "error" listeners only call setters, so their stale closures read nothing. The model therefore gives a captured flag only to the audio callback.
- The media-stream source node of startSpeaking is not tracked. A second `audioContext.close()`, which rejects its promise in the browser, is modelled as a no-op release.
- IEEE-754 arithmetic is left out; it is not needed for Float32 input, see above. Negative zero is not distinguished from zero, which ToInt16 also does not do.
- The cache keys are strings, and `Date.now()` is the explicit `now`. A stored `null` value and a miss both appear to the caller as `null`; the model keeps them apart (`Some` of the value versus `None`).
- `registerProcessor` and the unused `outputs` and `parameters` arguments of the worklet are left out.
- Everything in the JSX apart from the status line, the error banner's close button, the Send Silence button, the attempt indicator and the retry button's condition is left out.
- works.js, the API routes, services/openai.js, components/InputHandler.js, components/WebRTC.js, components/Recorder.js and lib/simliClient.js are not part of this model. They are a superseded variant, HTTP and OpenAI plumbing, and thin wrappers over browser APIs or libraries.

## Findings

| source | as written | input that shows it | evidently intended | confidence | as-written member | corrected member |
|---|---|---|---|---|---|---|
| app/page.js:92-106 | `onaudioprocess` is the handleAudioProcess closure of the render in which startSpeaking passed its `isSessionStarted` guard, so the closure's `!isSessionStarted` test is always false | startSpeaking succeeds, then the client emits "close" (isSessionStarted becomes false, simliClientRef.current stays set), then the processor delivers one more block: sendAudioData is still called with it | Drop blocks once the session is no longer started, as the guard at line 106 says | medium; not executed | `Page.HomePage.HandleAudioProcess`, `Page.ClosedSessionStillStreams` | `Page.HomePage.HandleAudioProcessChecked` |
| app/public/audioProcessor.js:4-6 | `if (input)` tests only that the first input exists, then hands `input[0]` to float32ToPCM16 | `inputs = [[]]`: the first input has zero channels, which Web Audio passes while nothing is connected to it. `undefined.length` throws a TypeError out of process, and nothing is posted. | Post nothing and return true when the input has no channel. | medium; not executed | `Worklet.PcmWorkletProcessor.Process`, `Worklet.UnconnectedInputThrows` | `Worklet.PcmWorkletProcessor.ProcessChecked` |
