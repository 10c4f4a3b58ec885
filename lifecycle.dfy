/**
 * The recording lifecycle of the `VideoRecorder` component as a state machine over
 * values: one function per handler (start, pause, resume, stop, retake and the two
 * recorder callbacks), the enable rules of the five buttons, runs of events, and
 * the properties the handlers keep.
 */
module Lifecycle {
  import opened Media

  /** `MediaRecorder.state` */
  datatype RecorderState = Inactive | Recording | Paused

  /**
   * The recorder held in `mediaRecorderRef.current`: the composed stream it records,
   * its state, and the `chunks` array that the `ondataavailable` and `onstop`
   * handlers installed on it share.
   */
  datatype Recorder = Recorder(stream: Stream, state: RecorderState, chunks: seq<Bytes>)

  /** A locator returned by `URL.createObjectURL`. */
  type BlobUrl = nat

  /**
   * What the page holds outside the component: the ids of tracks not yet stopped,
   * the object URLs not yet revoked with the blob each one dereferences to, and the
   * next locator `URL.createObjectURL` hands out.
   */
  datatype Browser = Browser(liveTracks: set<TrackId>, objectUrls: map<BlobUrl, Bytes>, nextUrl: BlobUrl)

  /** Every live object URL was handed out before `nextUrl`, so `nextUrl` is fresh. */
  predicate UrlsIssued(b: Browser) {
    forall u :: u in b.objectUrls ==> u < b.nextUrl
  }

  /** The component's state: its four React state variables and its recorder ref. */
  datatype Session = Session(
    recording: bool,
    paused: bool,
    videoUrl: Option<BlobUrl>,
    audioStream: Option<Stream>,
    recorder: Option<Recorder>,
    browser: Browser)

  /** The recorder ref holds a recorder in state `st`. */
  predicate RecorderIs(s: Session, st: RecorderState) {
    s.recorder.Some? && s.recorder.value.state == st
  }

  /** The state right after mounting: every `useState` and `useRef` at its initial value. */
  function Initial(b: Browser): (s: Session)
    requires UrlsIssued(b)
    ensures !s.recording && !s.paused && s.videoUrl.None? && s.audioStream.None? && s.recorder.None?
    ensures s.browser == b
    ensures Consistent(s)
  {
    Session(false, false, None, None, None, b)
  }

  /**
   * The relation the handlers keep between the React flags and the recorder:
   * `recording` exactly while a recorder is recording or paused, `paused` exactly
   * while it is paused, the held microphone live while recording, and the shown
   * video URL one that still dereferences.
   */
  predicate Consistent(s: Session) {
    (s.recording <==> RecorderIs(s, Recording) || RecorderIs(s, Paused)) &&
    (s.paused <==> RecorderIs(s, Paused)) &&
    (s.recording ==> s.audioStream.Some? && TrackIds(s.audioStream.value.tracks) <= s.browser.liveTracks) &&
    UrlsIssued(s.browser) &&
    (s.videoUrl.Some? ==> s.videoUrl.value in s.browser.objectUrls)
  }

  // ---------------------------------------------------------------------------
  // The handlers
  // ---------------------------------------------------------------------------

  /**
   * `startRecording` succeeds when the microphone is granted, the preview `Webcam`
   * is mounted (it is replaced by the `<video>` player while `videoUrl` is set)
   * with a stream, and that stream has a video track.
   */
  predicate StartSucceeds(s: Session, mic: Option<Stream>, camera: Option<Stream>) {
    mic.Some? && s.videoUrl.None? && camera.Some? && VideoTracks(camera.value) != []
  }

  /**
   * `startRecording`. `mic` is the outcome of `getUserMedia` (`None`: rejected);
   * `camera` is the preview video element's `srcObject` (`None`: not available).
   * A granted microphone's tracks are live from then on, whether or not the rest
   * succeeds; any failure after that is caught and only logged.
   */
  function StartRecording(s: Session, mic: Option<Stream>, camera: Option<Stream>): (r: Session)
    ensures mic.None? ==> r == s
    ensures mic.Some? ==> r.browser.liveTracks == s.browser.liveTracks + TrackIds(mic.value.tracks)
    ensures r.browser.objectUrls == s.browser.objectUrls && r.browser.nextUrl == s.browser.nextUrl
    ensures r.videoUrl == s.videoUrl
    ensures !StartSucceeds(s, mic, camera) ==>
      r.recording == s.recording && r.paused == s.paused &&
      r.audioStream == s.audioStream && r.recorder == s.recorder
    ensures StartSucceeds(s, mic, camera) ==>
      r.recording && !r.paused && r.audioStream == mic &&
      RecorderIs(r, Recording) && r.recorder.value.chunks == [] &&
      VideoTracks(r.recorder.value.stream) == [VideoTracks(camera.value)[0]] &&
      AudioTracks(r.recorder.value.stream) == AudioTracks(mic.value)
  {
    match mic
    case None => s
    case Some(audio) =>
      var b := s.browser.(liveTracks := s.browser.liveTracks + TrackIds(audio.tracks));
      var preview := if s.videoUrl.Some? then None else camera;
      var combined := if preview.Some? then Compose(preview.value, audio) else None;
      if combined.None? then s.(browser := b)
      else
        s.(recording := true, paused := false, audioStream := Some(audio),
           recorder := Some(Recorder(combined.value, Recording, [])), browser := b)
  }

  /** `pauseRecording` */
  function PauseRecording(s: Session): (r: Session) {
    if RecorderIs(s, Recording) then
      s.(recorder := Some(s.recorder.value.(state := Paused)), paused := true)
    else s
  }

  /** `resumeRecording` */
  function ResumeRecording(s: Session): (r: Session) {
    if RecorderIs(s, Paused) then
      s.(recorder := Some(s.recorder.value.(state := Recording)), paused := false)
    else s
  }

  /** `stopRecording`: the held audio stream's tracks are all stopped. */
  function StopRecording(s: Session): (r: Session) {
    if RecorderIs(s, Recording) then
      var live := if s.audioStream.Some? then s.browser.liveTracks - TrackIds(s.audioStream.value.tracks)
                  else s.browser.liveTracks;
      s.(recorder := Some(s.recorder.value.(state := Inactive)), recording := false, paused := false,
         browser := s.browser.(liveTracks := live))
    else s
  }

  /** `retakeRecording` */
  function RetakeRecording(s: Session): (r: Session) {
    s.(videoUrl := None)
  }

  /**
   * The `ondataavailable` handler of the current recorder: the fragment is pushed
   * onto its `chunks`, so the blob built on stop grows by exactly that fragment.
   */
  function OnDataAvailable(s: Session, data: Bytes): (r: Session)
    requires s.recorder.Some?
    ensures r.recorder.Some? && r.recorder.value.chunks == s.recorder.value.chunks + [data]
    ensures Concat(r.recorder.value.chunks) == Concat(s.recorder.value.chunks) + data
    ensures r.recorder.value.state == s.recorder.value.state && r.recorder.value.stream == s.recorder.value.stream
    ensures r.recording == s.recording && r.paused == s.paused && r.videoUrl == s.videoUrl
    ensures r.audioStream == s.audioStream && r.browser == s.browser
  {
    ConcatAppend(s.recorder.value.chunks, [data]);
    assert Concat([data]) == data + Concat([]);
    s.(recorder := Some(s.recorder.value.(chunks := s.recorder.value.chunks + [data])))
  }

  /**
   * The `onstop` handler of the current recorder: one blob of its chunks, a new
   * object URL for it, and `videoUrl` set to that URL. No earlier URL is revoked.
   */
  function OnStop(s: Session): (r: Session)
    requires s.recorder.Some?
    ensures r.videoUrl == Some(s.browser.nextUrl)
    ensures r.browser.objectUrls == s.browser.objectUrls[s.browser.nextUrl := Concat(s.recorder.value.chunks)]
    ensures UrlsIssued(s.browser) ==> s.browser.nextUrl !in s.browser.objectUrls && UrlsIssued(r.browser)
    ensures r.recording == s.recording && r.paused == s.paused
    ensures r.audioStream == s.audioStream && r.recorder == s.recorder
    ensures r.browser.liveTracks == s.browser.liveTracks
  {
    var url := s.browser.nextUrl;
    var blob := Concat(s.recorder.value.chunks);
    s.(videoUrl := Some(url),
       browser := s.browser.(objectUrls := s.browser.objectUrls[url := blob], nextUrl := url + 1))
  }

  // ---------------------------------------------------------------------------
  // The buttons' enable rules (`disabled={...}`)
  // ---------------------------------------------------------------------------

  predicate StartEnabled(s: Session) { !s.recording }
  predicate PauseEnabled(s: Session) { s.recording && !s.paused }
  predicate ResumeEnabled(s: Session) { s.paused }
  predicate StopEnabled(s: Session) { s.recording }

  // ---------------------------------------------------------------------------
  // Runs of events
  // ---------------------------------------------------------------------------

  /** A click on one of the buttons, or a callback of the current recorder. */
  datatype Event =
    | Start(mic: Option<Stream>, camera: Option<Stream>)
    | Pause
    | Resume
    | Stop
    | Retake
    | DataAvailable(data: Bytes)
    | Stopped

  /** One event; a callback arrives only once a recorder has its handlers installed. */
  function Step(s: Session, e: Event): (r: Session) {
    match e
    case Start(mic, camera) => StartRecording(s, mic, camera)
    case Pause => PauseRecording(s)
    case Resume => ResumeRecording(s)
    case Stop => StopRecording(s)
    case Retake => RetakeRecording(s)
    case DataAvailable(data) => if s.recorder.Some? then OnDataAvailable(s, data) else s
    case Stopped => if s.recorder.Some? then OnStop(s) else s
  }

  function Run(s: Session, es: seq<Event>): (r: Session)
    decreases |es|
  {
    if es == [] then s else Run(Step(s, es[0]), es[1..])
  }

  /** The fragments the data events of `es` carry, in arrival order. */
  function Payloads(es: seq<Event>): (parts: seq<Bytes>)
    decreases |es|
  {
    if es == [] then []
    else (if es[0].DataAvailable? then [es[0].data] else []) + Payloads(es[1..])
  }

  /** No button click in `es` starts a new attempt. */
  predicate NoStart(es: seq<Event>) {
    forall i :: 0 <= i < |es| ==> !es[i].Start?
  }

  // ---------------------------------------------------------------------------
  // Properties
  // ---------------------------------------------------------------------------

  /** Pause acts exactly when the recorder is recording; it then pauses the recorder and sets `paused`, and nothing else. */
  lemma PauseActsOnlyWhenRecording(s: Session)
    ensures PauseRecording(s) != s <==> RecorderIs(s, Recording)
    ensures RecorderIs(s, Recording) ==>
      var r := PauseRecording(s);
      r.paused && RecorderIs(r, Paused) &&
      r.recorder.value.chunks == s.recorder.value.chunks && r.recorder.value.stream == s.recorder.value.stream &&
      r.(paused := s.paused, recorder := s.recorder) == s
  {
  }

  /** Resume acts exactly when the recorder is paused; it then resumes the recorder and clears `paused`, and nothing else. */
  lemma ResumeActsOnlyWhenPaused(s: Session)
    ensures ResumeRecording(s) != s <==> RecorderIs(s, Paused)
    ensures RecorderIs(s, Paused) ==>
      var r := ResumeRecording(s);
      !r.paused && RecorderIs(r, Recording) &&
      r.recorder.value.chunks == s.recorder.value.chunks && r.recorder.value.stream == s.recorder.value.stream &&
      r.(paused := s.paused, recorder := s.recorder) == s
  {
  }

  /**
   * Stop acts exactly when the recorder is recording. It then makes the recorder
   * inactive keeping its chunks, clears both flags, and leaves no track of the held
   * audio stream live; nothing else changes, the shown URL included.
   */
  lemma StopActsOnlyWhenRecording(s: Session)
    ensures StopRecording(s) != s <==> RecorderIs(s, Recording)
    ensures RecorderIs(s, Recording) ==>
      var r := StopRecording(s);
      !r.recording && !r.paused && RecorderIs(r, Inactive) &&
      r.recorder.value.chunks == s.recorder.value.chunks &&
      (s.audioStream.Some? ==> r.browser.liveTracks == s.browser.liveTracks - TrackIds(s.audioStream.value.tracks)) &&
      (s.audioStream.Some? ==> forall t :: t in s.audioStream.value.tracks ==> t.id !in r.browser.liveTracks) &&
      r.videoUrl == s.videoUrl && r.audioStream == s.audioStream &&
      r.browser.objectUrls == s.browser.objectUrls &&
      r.recorder.value.stream == s.recorder.value.stream &&
      r.(recording := s.recording, paused := s.paused, recorder := s.recorder,
         browser := r.browser.(liveTracks := s.browser.liveTracks)) == s
  {
  }

  /**
   * Retake only forgets the shown URL: the flags, recorder and audio stream stay,
   * the URL is not revoked, and a second retake changes nothing.
   */
  lemma RetakeOnlyClearsUrl(s: Session)
    ensures RetakeRecording(s).videoUrl.None?
    ensures RetakeRecording(RetakeRecording(s)) == RetakeRecording(s)
    ensures var r := RetakeRecording(s);
      r.recording == s.recording && r.paused == s.paused &&
      r.recorder == s.recorder && r.audioStream == s.audioStream && r.browser == s.browser
    ensures s.videoUrl.Some? && s.videoUrl.value in s.browser.objectUrls ==>
      s.videoUrl.value in RetakeRecording(s).browser.objectUrls
  {
  }

  /** Every handler keeps `Consistent`. */
  lemma StepPreservesConsistent(s: Session, e: Event)
    requires Consistent(s)
    ensures Consistent(Step(s, e))
  {
  }

  lemma {:induction false} RunPreservesConsistent(s: Session, es: seq<Event>)
    requires Consistent(s)
    ensures Consistent(Run(s, es))
    decreases |es|
  {
    if es != [] {
      StepPreservesConsistent(s, es[0]);
      RunPreservesConsistent(Step(s, es[0]), es[1..]);
    }
  }

  /**
   * In every state reachable from mounting, whatever the clicks and callbacks,
   * `paused` implies `recording`; Pause and Resume are enabled exactly when their
   * handlers act; Stop is enabled while recording or paused but acts only while not
   * paused; and Start is enabled exactly when no recorder is recording or paused.
   * `startRecording` itself has no such guard: only the disabled button keeps it from
   * running during a recording (see `RestartAbandonsMicrophone`).
   */
  lemma {:induction false} ReachableStates(b: Browser, es: seq<Event>)
    requires UrlsIssued(b)
    ensures var s := Run(Initial(b), es);
      (s.paused ==> s.recording) &&
      (PauseEnabled(s) <==> PauseRecording(s) != s) &&
      (ResumeEnabled(s) <==> ResumeRecording(s) != s) &&
      (StopEnabled(s) && !s.paused <==> StopRecording(s) != s) &&
      (StopEnabled(s) && s.paused ==> StopRecording(s) == s) &&
      (StartEnabled(s) <==> !RecorderIs(s, Recording) && !RecorderIs(s, Paused))
  {
    var s := Run(Initial(b), es);
    RunPreservesConsistent(Initial(b), es);
    ControlsMatchGuards(s);
  }

  /** In a consistent state the enable rules agree with the handlers' recorder-state guards. */
  lemma ControlsMatchGuards(s: Session)
    requires Consistent(s)
    ensures s.paused ==> s.recording
    ensures PauseEnabled(s) <==> RecorderIs(s, Recording)
    ensures ResumeEnabled(s) <==> RecorderIs(s, Paused)
    ensures StopEnabled(s) <==> RecorderIs(s, Recording) || RecorderIs(s, Paused)
    ensures PauseEnabled(s) <==> PauseRecording(s) != s
    ensures ResumeEnabled(s) <==> ResumeRecording(s) != s
    ensures StopEnabled(s) && !s.paused <==> StopRecording(s) != s
    ensures StopEnabled(s) && s.paused ==> StopRecording(s) == s
  {
  }

  /**
   * Within one attempt (no new start), the current recorder's chunks are the ones it
   * had followed by the data events' fragments in arrival order, whatever pauses,
   * resumes, stops and retakes come between them.
   */
  lemma {:induction false} ChunksInArrivalOrder(s: Session, es: seq<Event>)
    requires s.recorder.Some?
    requires NoStart(es)
    ensures Run(s, es).recorder.Some?
    ensures Run(s, es).recorder.value.stream == s.recorder.value.stream
    ensures Run(s, es).recorder.value.chunks == s.recorder.value.chunks + Payloads(es)
    decreases |es|
  {
    if es != [] {
      var t := Step(s, es[0]);
      assert !es[0].Start?;
      assert t.recorder.Some? && t.recorder.value.stream == s.recorder.value.stream;
      assert t.recorder.value.chunks == s.recorder.value.chunks + (if es[0].DataAvailable? then [es[0].data] else []);
      assert NoStart(es[1..]) by {
        forall i | 0 <= i < |es[1..]| ensures !es[1..][i].Start? { assert es[1..][i] == es[i + 1]; }
      }
      ChunksInArrivalOrder(t, es[1..]);
    }
  }

  /**
   * After a successful start and any events of the same attempt, the recorder's
   * stop callback publishes at `videoUrl` exactly the concatenation of the data
   * events' fragments in arrival order.
   */
  lemma RecordingIsDataInOrder(s: Session, mic: Option<Stream>, camera: Option<Stream>, es: seq<Event>)
    requires StartSucceeds(s, mic, camera)
    requires NoStart(es)
    ensures var r := Step(Run(StartRecording(s, mic, camera), es), Stopped);
      r.videoUrl.Some? && r.videoUrl.value in r.browser.objectUrls &&
      r.browser.objectUrls[r.videoUrl.value] == Concat(Payloads(es))
  {
    var started := StartRecording(s, mic, camera);
    ChunksInArrivalOrder(started, es);
    assert [] + Payloads(es) == Payloads(es);
  }

  /**
   * Fragment `i` of an attempt sits intact in the blob published at `videoUrl`,
   * right after the bytes of the fragments delivered before it.
   */
  lemma FragmentInPublishedBlob(s: Session, mic: Option<Stream>, camera: Option<Stream>, es: seq<Event>, i: nat)
    requires StartSucceeds(s, mic, camera)
    requires NoStart(es)
    requires i < |Payloads(es)|
    ensures var r := Step(Run(StartRecording(s, mic, camera), es), Stopped);
      var parts := Payloads(es);
      var off := |Concat(parts[..i])|;
      r.videoUrl.Some? && r.videoUrl.value in r.browser.objectUrls &&
      off + |parts[i]| <= |r.browser.objectUrls[r.videoUrl.value]| &&
      r.browser.objectUrls[r.videoUrl.value][off..off + |parts[i]|] == parts[i]
  {
    RecordingIsDataInOrder(s, mic, camera, es);
    ConcatPartAt(Payloads(es), i);
  }

  /**
   * A start, a fragment, a pause and resume, two more fragments, a stop and its
   * callback: the published blob is the three fragments back to back, the flags are
   * down and the microphone is no longer live.
   */
  lemma PauseLeavesNoGap(s: Session, mic: Option<Stream>, camera: Option<Stream>, c1: Bytes, c2: Bytes, c3: Bytes)
    requires StartSucceeds(s, mic, camera)
    ensures var r := Run(StartRecording(s, mic, camera), PauseScenario(c1, c2, c3));
      r.videoUrl.Some? && r.videoUrl.value in r.browser.objectUrls &&
      r.browser.objectUrls[r.videoUrl.value] == c1 + c2 + c3 &&
      !r.recording && !r.paused && TrackIds(mic.value.tracks) !! r.browser.liveTracks
  {
    var s0 := StartRecording(s, mic, camera);
    var es := PauseScenario(c1, c2, c3);
    var s3 := ResumeRecording(PauseRecording(OnDataAvailable(s0, c1)));
    assert es[3..] == [DataAvailable(c2), DataAvailable(c3), Stop, Stopped];
    PauseScenarioHead(s0, c1, es);
    PauseScenarioTail(s3, c2, c3, es[3..]);
    var s6 := StopRecording(OnDataAvailable(OnDataAvailable(s3, c2), c3));
    assert s6.recorder.value.chunks == [c1, c2, c3];
    ConcatAppend([c1], [c2, c3]);
    ConcatAppend([c2], [c3]);
    ConcatOne(c1);
    ConcatOne(c2);
    ConcatOne(c3);
  }

  /** Three fragments with a pause and a resume after the first, then a stop and its callback. */
  function PauseScenario(c1: Bytes, c2: Bytes, c3: Bytes): seq<Event> {
    [DataAvailable(c1), Pause, Resume, DataAvailable(c2), DataAvailable(c3), Stop, Stopped]
  }

  lemma PauseScenarioHead(s0: Session, c1: Bytes, es: seq<Event>)
    requires s0.recorder.Some?
    requires |es| >= 3 && es[0] == DataAvailable(c1) && es[1] == Pause && es[2] == Resume
    ensures Run(s0, es) == Run(ResumeRecording(PauseRecording(OnDataAvailable(s0, c1))), es[3..])
  {
    RunHead(s0, es);
    RunHead(OnDataAvailable(s0, c1), es[1..]);
    assert es[1..][1..] == es[2..];
    RunHead(PauseRecording(OnDataAvailable(s0, c1)), es[2..]);
    assert es[2..][1..] == es[3..];
  }

  lemma PauseScenarioTail(s3: Session, c2: Bytes, c3: Bytes, es: seq<Event>)
    requires s3.recorder.Some?
    requires es == [DataAvailable(c2), DataAvailable(c3), Stop, Stopped]
    ensures Run(s3, es) == OnStop(StopRecording(OnDataAvailable(OnDataAvailable(s3, c2), c3)))
  {
    var s4 := OnDataAvailable(s3, c2);
    var s5 := OnDataAvailable(s4, c3);
    var s6 := StopRecording(s5);
    RunHead(s3, es);
    assert es[1..] == [DataAvailable(c3), Stop, Stopped];
    RunHead(s4, es[1..]);
    assert es[1..][1..] == [Stop, Stopped];
    RunHead(s5, es[1..][1..]);
    assert es[1..][1..][1..] == [Stopped];
    RunHead(s6, es[1..][1..][1..]);
    assert es[1..][1..][1..][1..] == [];
  }

  lemma RunHead(s: Session, es: seq<Event>)
    requires es != []
    ensures Run(s, es) == Run(Step(s, es[0]), es[1..])
  {
  }

  lemma ConcatOne(c: Bytes)
    ensures Concat([c]) == c
  {
    assert [c][1..] == [];
  }

  /** No handler revokes an object URL: every published blob stays reachable at its URL. */
  lemma {:induction false} ObjectUrlsNeverRevoked(s: Session, es: seq<Event>, u: BlobUrl)
    requires Consistent(s)
    requires u in s.browser.objectUrls
    ensures u in Run(s, es).browser.objectUrls
    ensures Run(s, es).browser.objectUrls[u] == s.browser.objectUrls[u]
    decreases |es|
  {
    if es != [] {
      var t := Step(s, es[0]);
      StepPreservesConsistent(s, es[0]);
      assert u < s.browser.nextUrl;
      ObjectUrlsNeverRevoked(t, es[1..], u);
    }
  }

  /**
   * A start that fails after the microphone was granted leaves the microphone's
   * tracks live although the component keeps no reference to them.
   */
  lemma FailedStartLeavesMicrophoneLive(s: Session, mic: Option<Stream>, camera: Option<Stream>)
    requires mic.Some? && !StartSucceeds(s, mic, camera)
    ensures var r := StartRecording(s, mic, camera);
      TrackIds(mic.value.tracks) <= r.browser.liveTracks &&
      r.audioStream == s.audioStream && r.recorder == s.recorder &&
      r.recording == s.recording && r.paused == s.paused && r.videoUrl == s.videoUrl
  {
  }

  /**
   * While a recording is shown the preview is unmounted, so every start fails, even with
   * a granted microphone and a ready camera, until a retake clears the URL.
   */
  lemma StartWhileReviewingFails(s: Session, mic: Option<Stream>, camera: Option<Stream>)
    requires s.videoUrl.Some?
    ensures var r := StartRecording(s, mic, camera);
      r.recording == s.recording && r.recorder == s.recorder && r.audioStream == s.audioStream
    ensures StartSucceeds(RetakeRecording(s), mic, camera) <==>
      mic.Some? && camera.Some? && VideoTracks(camera.value) != []
  {
  }

  /**
   * Start is not refused while recording (only the disabled button keeps it from
   * being clicked): a second start replaces the held stream, and a later stop then
   * leaves the first attempt's microphone tracks live.
   */
  lemma RestartAbandonsMicrophone(s: Session, mic: Option<Stream>, camera: Option<Stream>)
    requires Consistent(s) && RecorderIs(s, Recording)
    requires StartSucceeds(s, mic, camera)
    requires TrackIds(mic.value.tracks) !! TrackIds(s.audioStream.value.tracks)
    ensures var r := StopRecording(StartRecording(s, mic, camera));
      !r.recording && TrackIds(s.audioStream.value.tracks) <= r.browser.liveTracks
  {
  }
}
