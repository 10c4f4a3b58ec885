# VideoRecorder recording lifecycle in Dafny

This project models the live `VideoRecorder` React component of the Video-Recorder
application (`src/component/VideoRecorder/VideoRecorder.jsx`, lines 365-460): a camera
preview with five buttons (Start, Pause, Resume, Stop, Retake) that records the
preview's video together with the microphone through a `MediaRecorder`, then shows
the finished recording through an object URL. Lines 1-363 of that file are
commented-out earlier drafts and are not modelled.

The component's state is spread over the React flags `recording` and `paused`, the
`videoUrl` and `audioStream` state variables, the recorder in `mediaRecorderRef`
(whose own `state` is `inactive`, `recording` or `paused`), and the per-attempt
`chunks` array its callbacks share. The project has three modules:

- `Media` (`media.dfy`): tracks, streams and bytes as values, with
  `getVideoTracks`/`getAudioTracks`, stream composition
  (`new MediaStream([videoTrack, ...audioTracks])`) and `new Blob(chunks)` as in-order
  concatenation.
- `Lifecycle` (`lifecycle.dfy`): the component state as a `Session` value with one
  function per handler, the buttons' enable rules, runs of events (clicks and
  recorder callbacks), and the lemmas about them.
- `Component` (`component.dfy`): the component as a class `VideoRecorder` whose
  fields are the state variables and the recorder ref. Its methods update them step
  by step, as the handlers do. Each method is proved to land exactly on the matching
  `Lifecycle` function of the old state, and to keep the invariant
  `Lifecycle.Consistent`. A class `Browser` holds the page state the component
  touches: which tracks are live, and the object-URL store. The track-stopping
  `forEach` loop is a `while` loop in `Browser.StopTracks`.

Browser primitives are abstracted:
- `getUserMedia` is a parameter `mic: Option<Stream>`. `None` means the promise rejects.
- The preview's `srcObject` is a parameter `camera: Option<Stream>`.
- `MediaRecorder` is a value: the recorded stream, its state and its chunk buffer.
- Object URLs come from a counter, so each one is fresh.
- The recorder callbacks `ondataavailable` and `onstop` are explicit methods and events.

The model follows what the code does, including behaviour a reader might not expect:
- Stop acts only when the recorder is `recording`. The Stop button is still enabled while paused, and clicking it then does nothing.
- Retake does not revoke the old object URL.
- Start is not refused while a recording is running. Only the disabled button prevents it, and a second start abandons the first microphone stream, whose tracks stay live.
- A start that fails after the microphone was granted only logs the error. The granted tracks stay live, with no reference kept to them.
- The `Webcam` preview is rendered only while `videoUrl` is null (lines 440-447). So while a recording is being reviewed, `webcamRef.current` is null and every start fails, after the microphone was already acquired.
- There is no "acquiring" sub-state.

## Model

| member | source | states |
|---|---|---|
| `Media.Compose` | src/component/VideoRecorder/VideoRecorder.jsx:384-385 | (over `VideoTracks`/`AudioTracks`, the models of `getVideoTracks`/`getAudioTracks`) the composed stream exists iff the camera stream has a video track; it then holds exactly that first video track followed by all the microphone's audio tracks (its video tracks are `[first]`, its audio tracks are the microphone's) |
| `Media.OfKindAppend` | src/component/VideoRecorder/VideoRecorder.jsx:384-385 | selecting tracks by kind distributes over concatenation, so composition keeps track order |
| `Media.ConcatAppend` | src/component/VideoRecorder/VideoRecorder.jsx:395 | (about `Concat`, the model of `new Blob(chunks)`) the blob of two chunk lists is the blob of the first followed by the blob of the second |
| `Media.ConcatPartAt` | src/component/VideoRecorder/VideoRecorder.jsx:395 | (about `Concat`) chunk `i` appears in the blob intact, right after the bytes of chunks `0..i` |
| `Lifecycle.Initial` | src/component/VideoRecorder/VideoRecorder.jsx:369-374 | on mount both flags are false, no URL, audio stream or recorder is held, and the state is consistent |
| `Lifecycle.StartRecording` | src/component/VideoRecorder/VideoRecorder.jsx:376-407 | a rejected microphone changes nothing. A granted microphone's tracks become live whatever follows. Start succeeds iff the microphone is granted, the preview is mounted with a stream and that stream has a video track. On success: `recording` true, `paused` false, the audio stream held, and a recorder that is recording the composed stream with an empty chunk buffer. On failure the flags, audio stream and recorder are unchanged. The URL is never touched |
| `Lifecycle.OnDataAvailable` | src/component/VideoRecorder/VideoRecorder.jsx:390-392 | the fragment is appended to the current recorder's chunks, so the blob built later grows by exactly that fragment; nothing else changes |
| `Lifecycle.OnStop` | src/component/VideoRecorder/VideoRecorder.jsx:394-398 | `videoUrl` becomes a fresh object URL that dereferences to the concatenation of the chunks. Earlier URLs stay. Flags, recorder and audio stream are unchanged |
| `Lifecycle.PauseActsOnlyWhenRecording` | src/component/VideoRecorder/VideoRecorder.jsx:420-425 | (about `Lifecycle.PauseRecording`) pause changes the state iff the recorder is recording. It then makes the recorder paused with the same chunks and stream, and sets `paused`. Nothing else changes |
| `Lifecycle.ResumeActsOnlyWhenPaused` | src/component/VideoRecorder/VideoRecorder.jsx:427-432 | (about `Lifecycle.ResumeRecording`) resume changes the state iff the recorder is paused. It then makes the recorder recording again with the same chunks and stream, and clears `paused`. Nothing else changes |
| `Lifecycle.StopActsOnlyWhenRecording` | src/component/VideoRecorder/VideoRecorder.jsx:409-418 | (about `Lifecycle.StopRecording`) stop changes the state iff the recorder is recording, so it does nothing while paused or inactive. When it acts: the recorder becomes inactive and keeps its chunks, both flags are cleared, and every track of the held audio stream is no longer live. The recorded stream, the URL, the audio stream reference, the object URLs and the next object URL are unchanged: only the flags, the recorder state and the live tracks change |
| `Lifecycle.RetakeOnlyClearsUrl` | src/component/VideoRecorder/VideoRecorder.jsx:434-436 | (about `Lifecycle.RetakeRecording`) retake clears `videoUrl` and nothing else: flags, recorder, audio stream and browser state are kept, the old URL is not revoked, and retaking twice equals retaking once |
| `Lifecycle.StepPreservesConsistent` | src/component/VideoRecorder/VideoRecorder.jsx:376-436 | every handler and callback keeps the invariant: `recording` iff the recorder is recording or paused, `paused` iff it is paused, the held microphone is live while recording, and the shown URL dereferences |
| `Lifecycle.RunPreservesConsistent` | src/component/VideoRecorder/VideoRecorder.jsx:376-436 | any sequence of clicks and callbacks keeps the invariant |
| `Lifecycle.ControlsMatchGuards` | src/component/VideoRecorder/VideoRecorder.jsx:450-453 | in a consistent state, `paused` implies `recording`. Pause is enabled iff the recorder is recording, iff pause acts. Resume is enabled iff the recorder is paused, iff resume acts. Stop is enabled iff the recorder is recording or paused, but it acts only when not paused |
| `Lifecycle.ReachableStates` | src/component/VideoRecorder/VideoRecorder.jsx:450-453 | in every state reachable from mount by any events, `paused` implies `recording`. Pause and Resume are enabled iff their handlers act. Stop is enabled iff the recorder is recording or paused, but stopping while paused is a no-op. Start is enabled iff no recorder is recording or paused; the `startRecording` handler itself has no guard and still acts when its button is disabled (see `RestartAbandonsMicrophone`) |
| `Lifecycle.ChunksInArrivalOrder` | src/component/VideoRecorder/VideoRecorder.jsx:388-392 | within one attempt (no new start), the recorder's stream stays the same and its chunks are the earlier ones followed by the data events' fragments in arrival order, whatever pauses, resumes, stops and retakes come between them |
| `Lifecycle.RecordingIsDataInOrder` | src/component/VideoRecorder/VideoRecorder.jsx:388-398 | after a successful start and any events of that attempt, the stop callback publishes at `videoUrl` exactly the in-order concatenation of all the fragments delivered |
| `Lifecycle.FragmentInPublishedBlob` | src/component/VideoRecorder/VideoRecorder.jsx:388-398 | after a successful start and any events of that attempt, the `i`-th delivered fragment sits intact in the blob published at `videoUrl`, right after the bytes of the fragments delivered before it |
| `Lifecycle.PauseLeavesNoGap` | src/component/VideoRecorder/VideoRecorder.jsx:388-432 | take start, fragment c1, pause, resume, c2, c3, stop, then the stop callback: the shown blob is `c1 + c2 + c3`, both flags are down, and no microphone track is live |
| `Lifecycle.ObjectUrlsNeverRevoked` | src/component/VideoRecorder/VideoRecorder.jsx:394-436 | from a consistent state, every object URL stays live and keeps its blob through any events (retake revokes nothing) |
| `Lifecycle.FailedStartLeavesMicrophoneLive` | src/component/VideoRecorder/VideoRecorder.jsx:376-406 | a start that fails after the microphone was granted leaves its tracks live, while `recording`, `paused`, `videoUrl`, the audio stream and the recorder are unchanged |
| `Lifecycle.StartWhileReviewingFails` | src/component/VideoRecorder/VideoRecorder.jsx:384-447 | while a URL is shown, the preview is unmounted and start cannot succeed. After a retake it succeeds iff the microphone is granted and the camera has a video track |
| `Lifecycle.RestartAbandonsMicrophone` | src/component/VideoRecorder/VideoRecorder.jsx:400-416 | a second successful start during a recording replaces the held stream, and a later stop leaves the first attempt's microphone tracks live |
| `Component.Browser.Grant` | src/component/VideoRecorder/VideoRecorder.jsx:378-383 | `getUserMedia` resolving: the granted tracks become live, and the object-URL store is unchanged |
| `Component.Browser.StopTracks` | src/component/VideoRecorder/VideoRecorder.jsx:414-416 | stopping each track of a stream in turn leaves exactly the stream's track ids no longer live, and changes nothing else |
| `Component.Browser.CreateObjectUrl` | src/component/VideoRecorder/VideoRecorder.jsx:396 | in a store whose URLs were all issued before its counter, the new locator is not among the existing URLs, dereferences to the given blob, and the store keeps that property; the existing URLs and the live tracks are unchanged |
| `Component.VideoRecorder.constructor` | src/component/VideoRecorder/VideoRecorder.jsx:369-374 | the mounted component is in the initial state, which is consistent |
| `Component.VideoRecorder.StartRecording` | src/component/VideoRecorder/VideoRecorder.jsx:376-407 | the new state is `Lifecycle.StartRecording` of the old one, and the invariant is kept |
| `Component.VideoRecorder.StopRecording` | src/component/VideoRecorder/VideoRecorder.jsx:409-418 | the new state is `Lifecycle.StopRecording` of the old one, and the invariant is kept |
| `Component.VideoRecorder.PauseRecording` | src/component/VideoRecorder/VideoRecorder.jsx:420-425 | the new state is `Lifecycle.PauseRecording` of the old one, and the invariant is kept |
| `Component.VideoRecorder.ResumeRecording` | src/component/VideoRecorder/VideoRecorder.jsx:427-432 | the new state is `Lifecycle.ResumeRecording` of the old one, and the invariant is kept |
| `Component.VideoRecorder.RetakeRecording` | src/component/VideoRecorder/VideoRecorder.jsx:434-436 | the new state is `Lifecycle.RetakeRecording` of the old one, and the invariant is kept |
| `Component.VideoRecorder.OnDataAvailable` | src/component/VideoRecorder/VideoRecorder.jsx:390-392 | the new state is `Lifecycle.OnDataAvailable` of the old one: the fragment is pushed onto the current recorder's chunks |
| `Component.VideoRecorder.OnStop` | src/component/VideoRecorder/VideoRecorder.jsx:394-398 | the new state is `Lifecycle.OnStop` of the old one: one blob of the chunks, a fresh URL for it, and `videoUrl` set to that URL |
| `Component.RecordWithPause` | src/component/VideoRecorder/VideoRecorder.jsx:376-436 | on a freshly mounted component, with a granted microphone and a camera that has a video track: start, c1, pause, resume, c2, c3, stop and the stop callback show exactly `c1 + c2 + c3` and leave the microphone off |

## Left out

- The commented-out drafts (lines 1-363): dead text, superseded by the live component.
- JSX rendering and the `Webcam` widget: presentation only. Two parts of it are kept: the enable rules of the buttons (lines 450-453), and the fact that the preview is mounted only while no URL is shown (lines 440-447).
- The internals of `getUserMedia`, `MediaRecorder`, `Blob` and `URL.createObjectURL`: these are foreign browser APIs. They are modelled as outcomes passed in, or as values. A `MediaRecorder` constructor that throws for an unsupported stream is not modelled.
- `StartRecording` (both the function and the method): does not model `mediaRecorderRef.current.start()` throwing (line 400). In that case the ref already holds the new, inactive recorder (line 387), while the flags and the audio stream stay unchanged. The model assumes `start()` succeeds on a freshly composed stream.
- The user-facing `console.error` logging in the catch: it is I/O and changes no state.
- React's asynchronous state batching and the closure capture of `audioStream`: updates are treated as immediate. `stopRecording` is modelled reading the current `audioStream`.
- The browser's timing of recorder events: an event can arrive at any point, but only for the current recorder. Events of a superseded recorder are not modelled: its late `onstop`, or the data of a recorder abandoned by a second start.
- The browser stopping a recorder by itself (a track ending, a recorder error): this is not an action of the component.
- Media track ids are modelled as unique naturals. Any actual track content and the container format (`video/webm`) are not modelled.
- Behaviour the code does not have is not modelled: URL revocation on retake, stop from paused, refusing a start while recording, and draining an abandoned acquisition.
