/**
 * The live `VideoRecorder` component as an object: its React state variables and
 * its recorder ref are fields, each handler is a method that updates them in the
 * order the handler does, and every method is proved to take the state exactly
 * where the matching `Lifecycle` function takes it, keeping `Lifecycle.Consistent`.
 */
module Component {
  import opened Media
  import L = Lifecycle

  /** The page's media devices (which tracks are live) and its object-URL store. */
  class Browser {
    var liveTracks: set<TrackId>
    var objectUrls: map<L.BlobUrl, Bytes>
    var nextUrl: L.BlobUrl

    function Snap(): L.Browser
      reads this
    {
      L.Browser(liveTracks, objectUrls, nextUrl)
    }

    constructor ()
      ensures Snap() == L.Browser({}, map[], 0)
    {
      liveTracks, objectUrls, nextUrl := {}, map[], 0;
    }

    /** `getUserMedia` resolving: the tracks it grants are live. */
    method Grant(tracks: seq<Track>)
      modifies this
      ensures liveTracks == old(liveTracks) + TrackIds(tracks)
      ensures objectUrls == old(objectUrls) && nextUrl == old(nextUrl)
    {
      liveTracks := liveTracks + TrackIds(tracks);
    }

    /** `stream.getTracks().forEach(track => track.stop())` */
    method StopTracks(tracks: seq<Track>)
      modifies this
      ensures liveTracks == old(liveTracks) - TrackIds(tracks)
      ensures objectUrls == old(objectUrls) && nextUrl == old(nextUrl)
    {
      var i := 0;
      while i < |tracks|
        invariant 0 <= i <= |tracks|
        invariant liveTracks == old(liveTracks) - TrackIds(tracks[..i])
        invariant objectUrls == old(objectUrls) && nextUrl == old(nextUrl)
      {
        liveTracks := liveTracks - {tracks[i].id};
        assert TrackIds(tracks[..i + 1]) == TrackIds(tracks[..i]) + {tracks[i].id} by {
          assert tracks[..i + 1] == tracks[..i] + [tracks[i]];
        }
        i := i + 1;
      }
      assert tracks[..|tracks|] == tracks;
    }

    /** `URL.createObjectURL(blob)`: a locator not handed out before. */
    method CreateObjectUrl(blob: Bytes) returns (url: L.BlobUrl)
      requires L.UrlsIssued(Snap())
      modifies this
      ensures url !in old(objectUrls)
      ensures L.UrlsIssued(Snap())
      ensures url == old(nextUrl)
      ensures objectUrls == old(objectUrls)[url := blob] && nextUrl == url + 1
      ensures liveTracks == old(liveTracks)
    {
      url := nextUrl;
      objectUrls := objectUrls[url := blob];
      nextUrl := nextUrl + 1;
    }
  }

  class VideoRecorder {
    const browser: Browser
    var recording: bool
    var paused: bool
    var videoUrl: Option<L.BlobUrl>
    var audioStream: Option<Stream>
    /** `mediaRecorderRef.current` */
    var mediaRecorder: Option<L.Recorder>

    function Snap(): L.Session
      reads this, browser
    {
      L.Session(recording, paused, videoUrl, audioStream, mediaRecorder, browser.Snap())
    }

    ghost predicate Valid()
      reads this, browser
    {
      L.Consistent(Snap())
    }

    /** Mounting: `useState(false)`, `useState(false)`, `useState(null)`, `useState(null)`, `useRef(null)`. */
    constructor (browser: Browser)
      requires L.UrlsIssued(browser.Snap())
      ensures this.browser == browser
      ensures Valid() && Snap() == L.Initial(browser.Snap())
    {
      this.browser := browser;
      recording, paused := false, false;
      videoUrl, audioStream, mediaRecorder := None, None, None;
    }

    /**
     * `startRecording`. `mic` is what `getUserMedia` resolves with (`None`: it
     * rejects); `camera` is the preview video element's `srcObject` (`None`: absent).
     */
    method StartRecording(mic: Option<Stream>, camera: Option<Stream>)
      requires Valid()
      modifies this, browser
      ensures Valid()
      ensures Snap() == L.StartRecording(old(Snap()), mic, camera)
    {
      L.StepPreservesConsistent(Snap(), L.Start(mic, camera));
      if mic.None? {
        return;
      }
      var stream := mic.value;
      browser.Grant(stream.tracks);
      // the Webcam, and with it the ref's video element, is only mounted while no URL is shown
      var preview := if videoUrl.Some? then None else camera;
      if preview.None? {
        return;
      }
      var videoTracks := VideoTracks(preview.value);
      if videoTracks == [] {
        return;
      }
      var combined := Stream([videoTracks[0]] + AudioTracks(stream));
      var chunks: seq<Bytes> := [];
      mediaRecorder := Some(L.Recorder(combined, L.Inactive, chunks));
      mediaRecorder := Some(mediaRecorder.value.(state := L.Recording));
      recording := true;
      paused := false;
      audioStream := Some(stream);
    }

    /** `stopRecording` */
    method StopRecording()
      requires Valid()
      modifies this, browser
      ensures Valid()
      ensures Snap() == L.StopRecording(old(Snap()))
    {
      L.StepPreservesConsistent(Snap(), L.Stop);
      if mediaRecorder.Some? && mediaRecorder.value.state == L.Recording {
        mediaRecorder := Some(mediaRecorder.value.(state := L.Inactive));
        recording := false;
        paused := false;
        if audioStream.Some? {
          browser.StopTracks(audioStream.value.tracks);
        }
      }
    }

    /** `pauseRecording` */
    method PauseRecording()
      requires Valid()
      modifies this
      ensures Valid()
      ensures Snap() == L.PauseRecording(old(Snap()))
    {
      L.StepPreservesConsistent(Snap(), L.Pause);
      if mediaRecorder.Some? && mediaRecorder.value.state == L.Recording {
        mediaRecorder := Some(mediaRecorder.value.(state := L.Paused));
        paused := true;
      }
    }

    /** `resumeRecording` */
    method ResumeRecording()
      requires Valid()
      modifies this
      ensures Valid()
      ensures Snap() == L.ResumeRecording(old(Snap()))
    {
      L.StepPreservesConsistent(Snap(), L.Resume);
      if mediaRecorder.Some? && mediaRecorder.value.state == L.Paused {
        mediaRecorder := Some(mediaRecorder.value.(state := L.Recording));
        paused := false;
      }
    }

    /** `retakeRecording` */
    method RetakeRecording()
      requires Valid()
      modifies this
      ensures Valid()
      ensures Snap() == L.RetakeRecording(old(Snap()))
    {
      L.StepPreservesConsistent(Snap(), L.Retake);
      videoUrl := None;
    }

    /** The `ondataavailable` handler installed on the current recorder. */
    method OnDataAvailable(data: Bytes)
      requires Valid() && mediaRecorder.Some?
      modifies this
      ensures Valid()
      ensures Snap() == L.OnDataAvailable(old(Snap()), data)
    {
      L.StepPreservesConsistent(Snap(), L.DataAvailable(data));
      mediaRecorder := Some(mediaRecorder.value.(chunks := mediaRecorder.value.chunks + [data]));
    }

    /** The `onstop` handler installed on the current recorder. */
    method OnStop()
      requires Valid() && mediaRecorder.Some?
      modifies this, browser
      ensures Valid()
      ensures Snap() == L.OnStop(old(Snap()))
    {
      L.StepPreservesConsistent(Snap(), L.Stopped);
      var blob := Concat(mediaRecorder.value.chunks);
      var url := browser.CreateObjectUrl(blob);
      videoUrl := Some(url);
    }
  }

  /**
   * A user's session on a freshly mounted component: start, a fragment, pause,
   * resume, two fragments, stop and the stop callback. The URL then shown
   * dereferences to the three fragments back to back, and the microphone is off.
   */
  method RecordWithPause(mic: Stream, camera: Stream, c1: Bytes, c2: Bytes, c3: Bytes)
    returns (shown: Option<Bytes>, micLive: bool)
    requires VideoTracks(camera) != []
    ensures shown == Some(c1 + c2 + c3)
    ensures !micLive
  {
    var browser := new Browser();
    var recorder := new VideoRecorder(browser);
    ghost var s0 := recorder.Snap();
    recorder.StartRecording(Some(mic), Some(camera));
    ghost var start := recorder.Snap();
    recorder.OnDataAvailable(c1);
    recorder.PauseRecording();
    recorder.ResumeRecording();
    recorder.OnDataAvailable(c2);
    recorder.OnDataAvailable(c3);
    recorder.StopRecording();
    recorder.OnStop();
    L.PauseLeavesNoGap(s0, Some(mic), Some(camera), c1, c2, c3);
    var es := L.PauseScenario(c1, c2, c3);
    assert es[3..] == [L.DataAvailable(c2), L.DataAvailable(c3), L.Stop, L.Stopped];
    L.PauseScenarioHead(start, c1, es);
    L.PauseScenarioTail(L.ResumeRecording(L.PauseRecording(L.OnDataAvailable(start, c1))), c2, c3, es[3..]);
    shown := if recorder.videoUrl.Some? && recorder.videoUrl.value in browser.objectUrls
             then Some(browser.objectUrls[recorder.videoUrl.value]) else None;
    micLive := exists t :: t in mic.tracks && t.id in browser.liveTracks;
  }
}
