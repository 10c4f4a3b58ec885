/**
 * The browser media primitives the recorder component uses, abstracted as values:
 * media tracks and streams (what `getUserMedia`, the preview's `srcObject` and
 * `new MediaStream(...)` hand around), the recorded data fragments and the `Blob`
 * built from them on stop.
 */
module Media {

  datatype Option<T> = None | Some(value: T)

  newtype byte = x: int | 0 <= x < 256

  /** The contents of one `Blob`: a recorded data fragment or the finished recording. */
  type Bytes = seq<byte>

  /** A `MediaStreamTrack` is identified by its id; devices keep the set of live ids. */
  type TrackId = nat

  datatype TrackKind = Audio | Video

  datatype Track = Track(id: TrackId, kind: TrackKind)

  /** A `MediaStream`: its tracks in the order they were added (`getTracks()`). */
  datatype Stream = Stream(tracks: seq<Track>)

  /** The tracks of `ts` whose kind is `k`, in their original order. */
  function OfKind(ts: seq<Track>, k: TrackKind): (r: seq<Track>)
    ensures |r| <= |ts|
    ensures forall t :: t in r <==> t in ts && t.kind == k
  {
    if ts == [] then []
    else (if ts[0].kind == k then [ts[0]] else []) + OfKind(ts[1..], k)
  }

  lemma {:induction false} OfKindAppend(a: seq<Track>, b: seq<Track>, k: TrackKind)
    ensures OfKind(a + b, k) == OfKind(a, k) + OfKind(b, k)
  {
    if a == [] {
      assert a + b == b;
    } else {
      assert (a + b)[1..] == a[1..] + b;
      OfKindAppend(a[1..], b, k);
    }
  }

  /** `stream.getVideoTracks()` */
  function VideoTracks(s: Stream): (ts: seq<Track>) {
    OfKind(s.tracks, Video)
  }

  /** `stream.getAudioTracks()` */
  function AudioTracks(s: Stream): (ts: seq<Track>) {
    OfKind(s.tracks, Audio)
  }

  /** The ids of a sequence of tracks. */
  function TrackIds(ts: seq<Track>): (ids: set<TrackId>)
    ensures forall i :: 0 <= i < |ts| ==> ts[i].id in ids
    ensures forall id :: id in ids ==> exists i :: 0 <= i < |ts| && ts[i].id == id
  {
    set t | t in ts :: t.id
  }

  /**
   * `new MediaStream([camera.getVideoTracks()[0], ...mic.getAudioTracks()])`.
   * When the camera stream has no video track, index 0 is `undefined` and the
   * `MediaStream` constructor throws: that is `None`.
   */
  function Compose(camera: Stream, mic: Stream): (r: Option<Stream>)
    ensures r.Some? <==> VideoTracks(camera) != []
    ensures r.Some? ==> |r.value.tracks| == 1 + |AudioTracks(mic)|
    ensures r.Some? ==> r.value.tracks[0] == VideoTracks(camera)[0]
    ensures r.Some? ==> VideoTracks(r.value) == [VideoTracks(camera)[0]]
    ensures r.Some? ==> AudioTracks(r.value) == AudioTracks(mic)
  {
    var videos := VideoTracks(camera);
    if videos == [] then None
    else
      var audios := AudioTracks(mic);
      var tracks := [videos[0]] + audios;
      assert forall i :: 0 <= i < |audios| ==> audios[i] in audios;
      OfKindAll(audios, Audio);
      OfKindNone(audios, Video);
      OfKindAppend([videos[0]], audios, Video);
      OfKindAppend([videos[0]], audios, Audio);
      assert OfKind([videos[0]], Video) == [videos[0]] by { assert [videos[0]][1..] == []; }
      assert OfKind([videos[0]], Audio) == [] by { assert [videos[0]][1..] == []; }
      Some(Stream(tracks))
  }

  /** Filtering a sequence whose tracks are all of kind `k` keeps it whole. */
  lemma {:induction false} OfKindAll(ts: seq<Track>, k: TrackKind)
    requires forall i :: 0 <= i < |ts| ==> ts[i].kind == k
    ensures OfKind(ts, k) == ts
  {
    if ts != [] {
      OfKindAll(ts[1..], k);
      assert ts == [ts[0]] + ts[1..];
    }
  }

  /** Filtering a sequence that has no track of kind `k` leaves nothing. */
  lemma {:induction false} OfKindNone(ts: seq<Track>, k: TrackKind)
    requires forall i :: 0 <= i < |ts| ==> ts[i].kind != k
    ensures OfKind(ts, k) == []
  {
    if ts != [] {
      OfKindNone(ts[1..], k);
    }
  }

  /** `new Blob(parts)`: the fragments joined in order. */
  function Concat(parts: seq<Bytes>): (blob: Bytes) {
    if parts == [] then [] else parts[0] + Concat(parts[1..])
  }

  lemma {:induction false} ConcatAppend(a: seq<Bytes>, b: seq<Bytes>)
    ensures Concat(a + b) == Concat(a) + Concat(b)
  {
    if a == [] {
      assert a + b == b;
    } else {
      assert (a + b)[1..] == a[1..] + b;
      ConcatAppend(a[1..], b);
    }
  }

  /** Fragment `i` sits in the blob right after the bytes of fragments `0..i`. */
  lemma ConcatPartAt(parts: seq<Bytes>, i: nat)
    requires i < |parts|
    ensures var off := |Concat(parts[..i])|;
      off + |parts[i]| <= |Concat(parts)| &&
      Concat(parts)[off..off + |parts[i]|] == parts[i]
  {
    assert parts == parts[..i] + [parts[i]] + parts[i + 1..];
    ConcatAppend(parts[..i] + [parts[i]], parts[i + 1..]);
    ConcatAppend(parts[..i], [parts[i]]);
    assert Concat([parts[i]]) == parts[i] + Concat([]);
  }
}
