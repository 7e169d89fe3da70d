# Audio-Transcription-Chrome: a Dafny model of the streaming pipeline and the relay script

This project models two pieces of the Chrome extension's logic, with the
browser, the WebSocket and the DOM replaced by plain inputs and outputs:

* **options.js**, the capture page. Each audio block is resampled to 16 kHz by
  linear interpolation (`resampleTo16kHZ`) and converted to signed 16-bit PCM.
  It is sent as one frame, but only after `socket.onopen` has set
  `isServerReady`. The raw block is kept in `audioDataCache`. `partial` and
  `final` server events replace the transcript text with their elements
  joined by a space. `stop_capture` exports that text as
  `transcription-<timestamp>.txt`.
* **chatgpt-content.js**, the content script on the chat page. It has the
  bounded `findTextarea` retry loop, the response to an `updateChatGPT`
  request, and the 20-tick periodic check. Nothing in either file calls
  `findTextarea`, whose defaults are `maxAttempts = 10` and `delayMs = 500`.
  The `updateChatGPT` handler does one lookup and never retries, so
  `FindTextarea`'s properties are not properties of the relay.

Files:

* `wrappers.dfy`: `Option`.
* `resampler.dfy`: the resampler. The `Resampled` function specifies it and
  the `Resample` method is its loop over a fresh array. Lemmas cover length,
  endpoints, in-bounds reads, interpolation bounds and the identity at 16 kHz.
* `pcm16.dfy`: the clamp and asymmetric scaling, the `Int16Array` store
  (truncation toward zero), the conversion loop, and the little-endian byte
  layout of the frame with its decoding.
* `transcript.dfy`: the space join with its inverse split, the event filter,
  the export filename and the `stop_capture` decision.
* `capture.dfy`: the `CaptureSession` class whose methods are the `onopen`,
  `onaudioprocess` and `onmessage` callbacks. A pure `Step`/`Run` model of
  the same callbacks carries the ordering and gating lemmas. `RunSession`
  drives a real session object through a callback sequence and proves that
  it ends in the state `Run` predicts.
* `chatgpt_content.dfy`: `FindTextarea`, `OnRuntimeMessage`, and the
  `PeriodicCheck` class with `RunPeriodicCheck`.

Samples are Dafny `real`s. Every DOM lookup is an oracle input. In the two
loops it is a function of the attempt number. For the handler's single
lookup it is a flag.

## Behaviour of note

* `stop_capture` only exports the stored text. Recording and sending
  continue afterwards: the recorder and the socket are never stopped, so a
  block processed after a stop is still sent.
* The content script's error string for a missing textarea is
  `Textarea not found`.
* A block whose target length is 0 resamples to `[]`, because the
  out-of-range typed-array writes are no-ops. A block whose target length is
  1 resamples to `[last sample]`, because the second write overwrites the
  first.

## Model

| member | source | states |
|---|---|---|
| `Resampler.Round` | Audio-Transcription-Chrome/options.js:44 | `Math.round` gives the integer within half a unit of its argument (ties up) |
| `Resampler.Ceil` | Audio-Transcription-Chrome/options.js:58 | `Math.ceil` gives the least integer not below its argument; it is the floor or the floor plus one |
| `Resampler.TargetLength` | Audio-Transcription-Chrome/options.js:43-44 | the output length is the nearest integer to `n * 16000 / rate` |
| `Resampler.SpringFactor` | Audio-Transcription-Chrome/options.js:50 | the spring factor is non-negative, and `t - 1` steps of it span exactly `n - 1` input samples |
| `Resampler.IndexBounds` | Audio-Transcription-Chrome/options.js:50-59 | for every interior index, `0 <= floor(pos) <= ceil(pos) <= n-1`, the two indices differ by at most 1, and the fraction lies in [0, 1) |
| `Resampler.Resampled` | Audio-Transcription-Chrome/options.js:39-65 | the resampled block has the target length |
| `Resampler.PinnedEndpoints` | Audio-Transcription-Chrome/options.js:51-52 | for two or more outputs, the first and last outputs equal the first and last inputs; a single output is the last input |
| `Resampler.InterpolateBetween` | Audio-Transcription-Chrome/options.js:56-60 | every interior output lies between the two input samples it is interpolated from |
| `Resampler.ResampledInteriorBetween` | Audio-Transcription-Chrome/options.js:55-60 | every interior sample of the resampled block lies between the input samples at the floor and the ceiling of its position |
| `Resampler.IdentityAtTargetRate` | Audio-Transcription-Chrome/options.js:44-60 | at a source rate of 16000, resampling returns the block unchanged |
| `Resampler.DefaultBlockLength` | Audio-Transcription-Chrome/options.js:44 | a 4096-sample block at 44100 Hz resamples to 1486 samples |
| `Resampler.Resample` | Audio-Transcription-Chrome/options.js:39-65 | the loop fills an array of the target length with exactly the `Resampled` block |
| `Pcm16.Clamp` | Audio-Transcription-Chrome/options.js:131 | the clamped sample is in [-1, 1], equals the input inside that range, and keeps the input's sign |
| `Pcm16.TruncateTowardZero` | Audio-Transcription-Chrome/options.js:129-132 | the stored integer drops the fraction toward zero, keeping the sign |
| `Pcm16.EncodeSample` | Audio-Transcription-Chrome/options.js:131-132 | every encoded value is in [-32768, 32767]; negative samples encode to non-positive values, non-negative samples to non-negative values |
| `Pcm16.ClampIdempotent` | Audio-Transcription-Chrome/options.js:131-132 | encoding a clamped sample equals encoding the sample |
| `Pcm16.Saturates` | Audio-Transcription-Chrome/options.js:131-132 | samples at or beyond +1 encode to 32767; samples at or beyond -1 encode to -32768 |
| `Pcm16.EncodeMonotone` | Audio-Transcription-Chrome/options.js:131-132 | the encoding preserves order |
| `Pcm16.EncodeAll` | Audio-Transcription-Chrome/options.js:129-133 | the encoded block has the input's length; every value is in range and sign-correct |
| `Pcm16.EncodeBlock` | Audio-Transcription-Chrome/options.js:129-133 | the conversion loop fills a same-length array with exactly `EncodeAll` of the samples |
| `Pcm16.FrameBytes` | Audio-Transcription-Chrome/options.js:136 | the sent buffer has two bytes per value |
| `Pcm16.FrameRoundTrip` | Audio-Transcription-Chrome/options.js:136 | decoding the little-endian buffer returns the encoded values |
| `Transcript.JoinWithSpace` | Audio-Transcription-Chrome/options.js:106 | joining no elements gives ""; otherwise the length is the elements' total length plus one space between each pair of neighbours |
| `Transcript.SplitJoinRoundTrip` | Audio-Transcription-Chrome/options.js:106 | splitting the joined text at spaces gives back the elements, when none contains a space |
| `Transcript.TextUpdate` | Audio-Transcription-Chrome/options.js:105-107 | an event yields new text exactly when its type is `partial` or `final` |
| `Transcript.SanitizeTimestamp` | Audio-Transcription-Chrome/options.js:184 | the result has the timestamp's length and contains no `:` or `.`; each `:` or `.` becomes `-` and every other character is kept |
| `Transcript.DownloadFilename` | Audio-Transcription-Chrome/options.js:184-185 | the name is `transcription-` + timestamp + `.txt`, with no `:` or `.` between prefix and suffix |
| `Transcript.OnStopCapture` | Audio-Transcription-Chrome/options.js:160-166 | a download happens exactly when the stored transcript is set and non-empty; it carries that text under `DownloadFilename` |
| `Capture.Frame` | Audio-Transcription-Chrome/options.js:126-136 | a block's frame holds two bytes per resampled sample and decodes to the PCM16 encoding of the resampled block |
| `Capture.RunReady` | Audio-Transcription-Chrome/options.js:95-98 | after any callback sequence the session is ready exactly when it started ready or some callback was `onopen` |
| `Capture.RunLog` | Audio-Transcription-Chrome/options.js:122-136 | after any callback sequence the cache and the send log are extended by exactly the admitted blocks and their frames, in callback order |
| `Capture.RunTranscript` | Audio-Transcription-Chrome/options.js:102-109 | after any callback sequence the transcript is that of the last `partial`/`final` event, or the stored one if there was none |
| `Capture.RunCharacterised` | Audio-Transcription-Chrome/options.js:95-138 | after any callback sequence: ready iff some callback opened the socket; cache and sends are the admitted blocks and their frames, in order; the transcript is that of the last `partial`/`final` event, or the stored one |
| `Capture.NothingSentBeforeOpen` | Audio-Transcription-Chrome/options.js:95-123 | until `onopen` has run, nothing is cached or sent and the session is not ready |
| `Capture.OneFramePerBlockOnceOpen` | Audio-Transcription-Chrome/options.js:122-136 | once ready, each block appends exactly one cache entry and one frame, in callback order |
| `Capture.CacheMatchesSends` | Audio-Transcription-Chrome/options.js:135-136 | the cache and the send log have equal length, and the i-th frame is the frame of the i-th cached block |
| `Capture.LastWriteWins` | Audio-Transcription-Chrome/options.js:102-109 | after a `partial`/`final` event followed by no further messages, the transcript is that event's joined elements |
| `Capture.OtherEventsIgnored` | Audio-Transcription-Chrome/options.js:105-108 | an event of any other type changes nothing |
| `Capture.CaptureSession.constructor` | Audio-Transcription-Chrome/options.js:95-117 | a new session is not ready, has an empty cache and send log, and holds the stored `currentTranscription` value |
| `Capture.CaptureSession.OnOpen` | Audio-Transcription-Chrome/options.js:97-100 | `onopen` sets the ready flag and changes nothing else |
| `Capture.CaptureSession.OnAudioProcess` | Audio-Transcription-Chrome/options.js:122-138 | before readiness nothing changes; once ready, the raw block is appended to the cache and its frame to the send log |
| `Capture.CaptureSession.OnMessage` | Audio-Transcription-Chrome/options.js:102-109 | `partial`/`final` events overwrite the transcript with the joined elements; other types leave it unchanged |
| `Capture.RunSession` | Audio-Transcription-Chrome/options.js:95-141 | delivering callbacks one at a time to a session ends in the state predicted by `Run` |
| `ChatGptContent.FindTextarea` | Audio-Transcription-Chrome/chatgpt-content.js:11-28 | at most `maxAttempts` lookups; `null` iff every attempt missed; otherwise the element from the first hit, with no lookup after it; one wait per miss |
| `ChatGptContent.OnRuntimeMessage` | Audio-Transcription-Chrome/chatgpt-content.js:31-80 | only `updateChatGPT` gets a response; success iff the textarea exists and reads back the requested text; otherwise `Textarea not found`, the thrown message, or `Value not updated` |
| `ChatGptContent.PeriodicCheck.constructor` | Audio-Transcription-Chrome/chatgpt-content.js:113 | the counter starts at 20 and the interval is running |
| `ChatGptContent.PeriodicCheck.Tick` | Audio-Transcription-Chrome/chatgpt-content.js:114-122 | each tick decrements `checksRemaining` by one and clears the interval exactly when it reaches zero or the textarea is found |
| `ChatGptContent.RunPeriodicCheck` | Audio-Transcription-Chrome/chatgpt-content.js:112-122 | the check runs between 1 and 20 ticks, stops at the first tick that finds the textarea, and runs all 20 ticks only if no earlier tick found it; the counter ends at 20 minus the ticks |

## Left out

- Browser I/O: `chrome.tabCapture`, `AudioContext`, `createScriptProcessor`, the WebSocket itself, `window.close` and the close button. The socket is only a ready flag and a log of the frames passed to `send`. The stream's `oninactive` handler is empty in the source.
- Foreign calls: `chrome.storage`, `chrome.downloads`, `Blob`/`URL.createObjectURL`, `chrome.tabs.sendMessage`, `chrome.runtime.sendMessage`. The model keeps only the stored transcript value and the download's name and text.
- `JSON.parse` of incoming messages. Events arrive already parsed. A malformed message, or one without `elements`, throws inside the async handler and changes nothing, and that case is not modelled.
- `generateUUID`. It depends on `Math.random` and the clock.
- The timestamp of the export is a parameter. The clock is not modelled.
- Floating point. Samples and positions are exact reals, so Float32 storage and double rounding of `16000 / rate` and `i * springFactor` are not modelled. NaN inputs are not modelled either; an `Int16Array` would store NaN as 0.
- The `toFixed()` string conversion of the indices. The indices are used as integers.
- The `!context` test in `onaudioprocess`. `context` is a constant object there, so the test is always false.
- `ChatGptContent.FindTextarea`: the delay length `delayMs` only sets how long each wait is. The model counts the waits, not the elapsed time.
- The DOM work: the five textarea update methods, event dispatch, `alert`, console logging, and the `DOMContentLoaded`/`load` listeners. Their combined outcome is an input to `OnRuntimeMessage`: a thrown error, or the value read back.
- The cache holds references to the `Float32Array` channel buffers. The model caches their values, so aliasing between those buffers is not captured.
- The hard-coded access token in the socket URL.
- The content of `transcription-container` before the first `partial`/`final` event is not modelled. The page shows whatever it was loaded with, and the stored text is never written into it.
- `Pcm16.FrameBytes`: `audioDataInt16.buffer` is laid out in the host's byte order; a little-endian host is assumed.
- `updateTranscriptionUI` throws when the `transcription-container` element is missing, and the storage write after it is then skipped. The model assumes the element exists, so the displayed and the stored text always change together.
