/**
 * The preview compositor of the video player: which clips are active at an instant, the order
 * they are drawn in, where each video is seeked to, the opacity each is drawn with, and the
 * "no clips" placeholder. The canvas is replaced by the list of drawing operations it receives.
 */
module Compositor {
  import opened Wrappers
  import opened Records
  import Seqs
  import Js

  // ---------------------------------------------------------------- selection

  /** A clip covers the half-open interval [start, start + duration): its end instant is excluded. */
  predicate IsActive(c: Clip, t: real)
  {
    c.startTime <= t < c.startTime + c.duration
  }

  /** The active clips are exactly the clips whose interval contains `t`, kept in stored order. */
  function ActiveClips(clips: seq<Clip>, t: real): (r: seq<Clip>)
    ensures forall c :: c in r <==> c in clips && c.startTime <= t < c.startTime + c.duration
    ensures Seqs.IsSubsequence(r, clips)
  {
    var active := (c: Clip) => IsActive(c, t);
    Seqs.FilterIsSubsequence(clips, active);
    Seqs.Filter(clips, active)
  }

  // ---------------------------------------------------------------- draw order

  predicate SortedByTrack(s: seq<Clip>)
  {
    forall i, j :: 0 <= i < j < |s| ==> s[i].trackIndex <= s[j].trackIndex
  }

  /** The clips of `s` on track `k`, in their order in `s`. */
  function OnTrack(s: seq<Clip>, k: int): seq<Clip>
  {
    Seqs.Filter(s, (c: Clip) => c.trackIndex == k)
  }

  /** Places `c` in front of every clip of `sorted` on the same or a higher track. */
  function InsertByTrack(c: Clip, sorted: seq<Clip>): (r: seq<Clip>)
    ensures multiset(r) == multiset(sorted) + multiset{c}
  {
    if sorted == [] || c.trackIndex <= sorted[0].trackIndex then [c] + sorted
    else
      assert sorted == [sorted[0]] + sorted[1..];
      [sorted[0]] + InsertByTrack(c, sorted[1..])
  }

  /** `activeClips.sort((a, b) => a.track_index - b.track_index)`, a stable sort. */
  function SortByTrack(s: seq<Clip>): (r: seq<Clip>)
    ensures multiset(r) == multiset(s)
  {
    if s == [] then []
    else
      assert s == [s[0]] + s[1..];
      InsertByTrack(s[0], SortByTrack(s[1..]))
  }

  /** A clip on a track no higher than any clip of a sorted list can go in front of it. */
  lemma SortedCons(x: Clip, s: seq<Clip>)
    requires SortedByTrack(s)
    requires forall c :: c in s ==> x.trackIndex <= c.trackIndex
    ensures SortedByTrack([x] + s)
  {
    var r := [x] + s;
    forall i, j | 0 <= i < j < |r| ensures r[i].trackIndex <= r[j].trackIndex {
      if i == 0 {
        assert r[j] == s[j - 1];
        assert s[j - 1] in s;
      } else {
        assert r[i] == s[i - 1] && r[j] == s[j - 1];
      }
    }
  }

  /** In a sorted list, no clip after the first is on a lower track than the first. */
  lemma SortedHeadLowest(s: seq<Clip>)
    requires SortedByTrack(s) && s != []
    ensures SortedByTrack(s[1..])
    ensures forall c :: c in s[1..] ==> s[0].trackIndex <= c.trackIndex
  {
    var rest := s[1..];
    forall c | c in rest ensures s[0].trackIndex <= c.trackIndex {
      var i :| 0 <= i < |rest| && rest[i] == c;
      assert s[i + 1] == c;
    }
  }

  lemma {:induction false} InsertByTrackSorted(c: Clip, sorted: seq<Clip>)
    requires SortedByTrack(sorted)
    ensures SortedByTrack(InsertByTrack(c, sorted))
  {
    if sorted == [] || c.trackIndex <= sorted[0].trackIndex {
      forall x | x in sorted ensures c.trackIndex <= x.trackIndex {
        if x != sorted[0] {
          SortedHeadLowest(sorted);
          assert x in sorted[1..];
        }
      }
      SortedCons(c, sorted);
    } else {
      var tail := InsertByTrack(c, sorted[1..]);
      SortedHeadLowest(sorted);
      InsertByTrackSorted(c, sorted[1..]);
      forall x | x in tail ensures sorted[0].trackIndex <= x.trackIndex {
        assert x in multiset(tail);
      }
      SortedCons(sorted[0], tail);
    }
  }

  lemma {:induction false} InsertByTrackOnTrack(c: Clip, sorted: seq<Clip>, k: int)
    requires SortedByTrack(sorted)
    ensures OnTrack(InsertByTrack(c, sorted), k) == (if c.trackIndex == k then [c] else []) + OnTrack(sorted, k)
  {
    if sorted == [] || c.trackIndex <= sorted[0].trackIndex {
      assert ([c] + sorted)[1..] == sorted;
    } else {
      var r := [sorted[0]] + InsertByTrack(c, sorted[1..]);
      assert r[1..] == InsertByTrack(c, sorted[1..]);
      assert sorted == [sorted[0]] + sorted[1..];
      InsertByTrackOnTrack(c, sorted[1..], k);
    }
  }

  lemma {:induction false} SortByTrackSorted(s: seq<Clip>)
    ensures SortedByTrack(SortByTrack(s))
  {
    if s != [] {
      SortByTrackSorted(s[1..]);
      InsertByTrackSorted(s[0], SortByTrack(s[1..]));
    }
  }

  /**
   * The draw order is sorted by track, is a permutation of its input, and keeps the input order
   * of the clips of each track; these three facts determine it uniquely.
   */
  lemma {:induction false} SortByTrackCorrect(s: seq<Clip>)
    ensures SortedByTrack(SortByTrack(s))
    ensures multiset(SortByTrack(s)) == multiset(s)
    ensures forall k :: OnTrack(SortByTrack(s), k) == OnTrack(s, k)
  {
    SortByTrackSorted(s);
    if s != [] {
      SortByTrackCorrect(s[1..]);
      forall k ensures OnTrack(SortByTrack(s), k) == OnTrack(s, k) {
        InsertByTrackOnTrack(s[0], SortByTrack(s[1..]), k);
      }
    }
  }

  /** Clips in `s` that are already in track order are left where they are. */
  lemma {:induction false} SortByTrackOfSorted(s: seq<Clip>)
    requires SortedByTrack(s)
    ensures SortByTrack(s) == s
  {
    if s != [] {
      SortByTrackOfSorted(s[1..]);
      var rest := s[1..];
      assert rest == [] || s[0].trackIndex <= rest[0].trackIndex;
      assert [s[0]] + rest == s;
    }
  }

  /** Filtering a list that is in track order keeps it in track order. */
  lemma {:induction false} ActiveClipsOfSorted(clips: seq<Clip>, t: real)
    requires SortedByTrack(clips)
    ensures SortedByTrack(ActiveClips(clips, t))
  {
    if clips != [] {
      var rest := clips[1..];
      SortedHeadLowest(clips);
      ActiveClipsOfSorted(rest, t);
      var active := ActiveClips(rest, t);
      if IsActive(clips[0], t) {
        SortedCons(clips[0], active);
      }
    }
  }

  /** When the clip list is already in track order, clips are drawn in list order. */
  lemma SortedListDrawsInListOrder(clips: seq<Clip>, t: real)
    requires SortedByTrack(clips)
    ensures DrawOrder(clips, t) == ActiveClips(clips, t)
  {
    ActiveClipsOfSorted(clips, t);
    SortByTrackOfSorted(ActiveClips(clips, t));
  }

  /** The active clips in the order they are drawn. */
  function DrawOrder(clips: seq<Clip>, t: real): seq<Clip>
  {
    SortByTrack(ActiveClips(clips, t))
  }

  /** Of two active clips, the one on the higher track is drawn later, whatever their list order. */
  lemma HigherTrackDrawnLater(clips: seq<Clip>, t: real, i: int, j: int)
    requires 0 <= i < |DrawOrder(clips, t)| && 0 <= j < |DrawOrder(clips, t)|
    requires DrawOrder(clips, t)[i].trackIndex < DrawOrder(clips, t)[j].trackIndex
    ensures i < j
  {
    var order := DrawOrder(clips, t);
    SortByTrackSorted(ActiveClips(clips, t));
  }

  // ---------------------------------------------------------------- drawing

  datatype DrawOp =
    | FillBackground                                      // fillRect over the whole canvas
    | SeekVideo(clipId: string, seconds: real)            // video.currentTime := seconds
    | SetAlpha(alpha: Value)                              // ctx.globalAlpha := alpha
    | DrawVideo(clipId: string)                           // drawImage of the clip's video element
    | LoadImage(clipId: string, url: string, alpha: Value) // new Image; once loaded: alpha, draw, alpha 1
    | Placeholder                                         // the 'No clips at current time' text

  /** Position in the source, in ms, that is shown at timeline time `t`; speed plays no part.
      While the clip is active it lies in the trimmed window [trim_start, trim_start + duration). */
  function LocalTime(c: Clip, t: real): (r: real)
    ensures IsActive(c, t) ==> c.trimStart <= r < c.trimStart + c.duration
  {
    t - c.startTime + c.trimStart
  }

  /** `clip.properties.opacity ?? 1`: only null and undefined fall back to 1. */
  function DrawOpacity(properties: Bag): (a: Value)
    ensures "opacity" in properties && properties["opacity"] != Null ==> a == properties["opacity"]
    ensures "opacity" !in properties || properties["opacity"] == Null ==> a == Num(1.0)
  {
    Js.OrIfNullish(properties, "opacity", Num(1.0))
  }

  /** What one active clip contributes to the frame; `videoElements` are the ids that have an
      element. A clip never fills the background or draws the placeholder, audio draws nothing, and
      a video without an element draws nothing either. */
  function ClipOps(c: Clip, t: real, videoElements: set<string>): (ops: seq<DrawOp>)
    ensures |ops| <= 4
    ensures FillBackground !in ops && Placeholder !in ops
    ensures c.kind == Audio || (c.kind == Video && c.id !in videoElements) ==> ops == []
  {
    match c.kind
    case Video =>
      if c.id in videoElements then
        [SeekVideo(c.id, LocalTime(c, t) / 1000.0), SetAlpha(DrawOpacity(c.properties)), DrawVideo(c.id), SetAlpha(Num(1.0))]
      else []
    case Image => [LoadImage(c.id, c.sourceUrl, DrawOpacity(c.properties))]
    case Audio => []
  }

  function DrawAll(s: seq<Clip>, t: real, videoElements: set<string>): seq<DrawOp>
  {
    if s == [] then [] else DrawAll(s[..|s| - 1], t, videoElements) + ClipOps(s[|s| - 1], t, videoElements)
  }

  /** The operations one run of the render effect sends to the canvas at time `t`: the background
      comes first, and the placeholder is drawn exactly when no clip is active. */
  function Frame(clips: seq<Clip>, t: real, videoElements: set<string>): (f: seq<DrawOp>)
    ensures f != [] && f[0] == FillBackground
    ensures Placeholder in f <==> ActiveClips(clips, t) == []
  {
    DrawAllShape(DrawOrder(clips, t), t, videoElements);
    [FillBackground] + DrawAll(DrawOrder(clips, t), t, videoElements)
      + (if ActiveClips(clips, t) == [] then [Placeholder] else [])
  }

  /** The `forEach` of the render effect: one draw step per clip, in the given order. */
  method DrawInOrder(sorted: seq<Clip>, t: real, videoElements: set<string>) returns (ops: seq<DrawOp>)
    ensures ops == DrawAll(sorted, t, videoElements)
  {
    ops := [];
    var i := 0;
    while i < |sorted|
      invariant 0 <= i <= |sorted|
      invariant ops == DrawAll(sorted[..i], t, videoElements)
    {
      ops := ops + ClipOps(sorted[i], t, videoElements);
      assert sorted[..i + 1][..i] == sorted[..i];
      i := i + 1;
    }
    assert sorted[..i] == sorted;
  }

  /** The render effect: filter, background, sort, the draw loop, then the placeholder. */
  method RenderFrame(clips: seq<Clip>, t: real, videoElements: set<string>) returns (ops: seq<DrawOp>)
    ensures ops == Frame(clips, t, videoElements)
  {
    var active := ActiveClips(clips, t);
    ops := [FillBackground];
    var sorted := SortByTrack(active);
    var drawn := DrawInOrder(sorted, t, videoElements);
    ops := ops + drawn;
    if |active| == 0 {
      ops := ops + [Placeholder];
    }
  }

  // ---------------------------------------------------------------- properties of a frame

  lemma {:induction false} DrawAllShape(s: seq<Clip>, t: real, videoElements: set<string>)
    ensures FillBackground !in DrawAll(s, t, videoElements)
    ensures Placeholder !in DrawAll(s, t, videoElements)
  {
    if s != [] {
      DrawAllShape(s[..|s| - 1], t, videoElements);
    }
  }

  /** The background is filled first and only once; the placeholder is drawn exactly when no clip
      is active, and then last. */
  lemma BackgroundFirstPlaceholderIffIdle(clips: seq<Clip>, t: real, videoElements: set<string>)
    ensures Frame(clips, t, videoElements)[0] == FillBackground
    ensures forall i :: 0 < i < |Frame(clips, t, videoElements)| ==> Frame(clips, t, videoElements)[i] != FillBackground
    ensures Placeholder in Frame(clips, t, videoElements) <==> (forall c :: c in clips ==> !IsActive(c, t))
    ensures Placeholder in Frame(clips, t, videoElements) ==> Frame(clips, t, videoElements)[|Frame(clips, t, videoElements)| - 1] == Placeholder
  {
    var body := DrawAll(DrawOrder(clips, t), t, videoElements);
    DrawAllShape(DrawOrder(clips, t), t, videoElements);
    var f := Frame(clips, t, videoElements);
    forall i | 0 < i < |f| ensures f[i] != FillBackground {
      if i <= |body| {
        assert f[i] == body[i - 1];
      }
    }
    var active := ActiveClips(clips, t);
    if active != [] {
      assert active[0] in active;
    }
  }

  /** An active audio clip draws nothing but still suppresses the placeholder. */
  lemma AudioOnlyFrame(clips: seq<Clip>, t: real, videoElements: set<string>, a: Clip)
    requires a in clips && a.kind == Audio && IsActive(a, t)
    requires forall c :: c in clips && IsActive(c, t) ==> c.kind == Audio
    ensures Frame(clips, t, videoElements) == [FillBackground]
  {
    var order := DrawOrder(clips, t);
    assert a in ActiveClips(clips, t);
    forall c | c in order ensures c.kind == Audio {
      assert c in multiset(order);
    }
    AllAudioDrawsNothing(order, t, videoElements);
  }

  lemma {:induction false} AllAudioDrawsNothing(s: seq<Clip>, t: real, videoElements: set<string>)
    requires forall c :: c in s ==> c.kind == Audio
    ensures DrawAll(s, t, videoElements) == []
  {
    if s != [] {
      AllAudioDrawsNothing(s[..|s| - 1], t, videoElements);
    }
  }

  /** After every video draw the global alpha is set back to 1 by the very next operation. */
  predicate AlphaRestored(ops: seq<DrawOp>)
  {
    forall i :: 0 <= i < |ops| && ops[i].DrawVideo? ==> i + 1 < |ops| && ops[i + 1] == SetAlpha(Num(1.0))
  }

  lemma AlphaRestoredAppend(a: seq<DrawOp>, b: seq<DrawOp>)
    requires AlphaRestored(a) && AlphaRestored(b)
    ensures AlphaRestored(a + b)
  {
    forall i | 0 <= i < |a + b| && (a + b)[i].DrawVideo?
      ensures i + 1 < |a + b| && (a + b)[i + 1] == SetAlpha(Num(1.0))
    {
      if i < |a| {
        assert a[i].DrawVideo?;
      } else {
        assert b[i - |a|].DrawVideo?;
      }
    }
  }

  lemma {:induction false} DrawAllAlphaRestored(s: seq<Clip>, t: real, videoElements: set<string>)
    ensures AlphaRestored(DrawAll(s, t, videoElements))
  {
    if s != [] {
      DrawAllAlphaRestored(s[..|s| - 1], t, videoElements);
      AlphaRestoredAppend(DrawAll(s[..|s| - 1], t, videoElements), ClipOps(s[|s| - 1], t, videoElements));
    }
  }

  /** Each video frame is drawn with the clip's opacity and the alpha is reset to 1 right after. */
  lemma FrameRestoresAlpha(clips: seq<Clip>, t: real, videoElements: set<string>)
    ensures AlphaRestored(Frame(clips, t, videoElements))
  {
    var order := DrawOrder(clips, t);
    DrawAllAlphaRestored(order, t, videoElements);
    AlphaRestoredAppend([FillBackground], DrawAll(order, t, videoElements));
    AlphaRestoredAppend([FillBackground] + DrawAll(order, t, videoElements),
      if ActiveClips(clips, t) == [] then [Placeholder] else []);
  }

  lemma {:induction false} DrawAllContains(s: seq<Clip>, t: real, videoElements: set<string>, c: Clip, op: DrawOp)
    requires c in s && op in ClipOps(c, t, videoElements)
    ensures op in DrawAll(s, t, videoElements)
  {
    if s[|s| - 1] != c {
      assert s == s[..|s| - 1] + [s[|s| - 1]];
      DrawAllContains(s[..|s| - 1], t, videoElements, c, op);
    }
  }

  /** Every operation of an active clip appears in the frame. */
  lemma OpInFrame(clips: seq<Clip>, t: real, videoElements: set<string>, c: Clip, op: DrawOp)
    requires c in clips && IsActive(c, t) && op in ClipOps(c, t, videoElements)
    ensures op in Frame(clips, t, videoElements)
  {
    var order := DrawOrder(clips, t);
    assert c in ActiveClips(clips, t);
    assert c in multiset(order);
    DrawAllContains(order, t, videoElements, c, op);
  }

  lemma VideoClipIsDrawn(clips: seq<Clip>, t: real, videoElements: set<string>, c: Clip)
    requires c in clips && IsActive(c, t) && c.kind == Video && c.id in videoElements
    ensures SeekVideo(c.id, LocalTime(c, t) / 1000.0) in Frame(clips, t, videoElements)
    ensures SetAlpha(DrawOpacity(c.properties)) in Frame(clips, t, videoElements)
    ensures DrawVideo(c.id) in Frame(clips, t, videoElements)
  {
    OpInFrame(clips, t, videoElements, c, SeekVideo(c.id, LocalTime(c, t) / 1000.0));
    OpInFrame(clips, t, videoElements, c, SetAlpha(DrawOpacity(c.properties)));
    OpInFrame(clips, t, videoElements, c, DrawVideo(c.id));
  }

  lemma ActiveClipIsDrawn(clips: seq<Clip>, t: real, videoElements: set<string>, c: Clip)
    requires c in clips && IsActive(c, t)
    ensures c.kind == Video && c.id in videoElements ==>
      SeekVideo(c.id, LocalTime(c, t) / 1000.0) in Frame(clips, t, videoElements) &&
      SetAlpha(DrawOpacity(c.properties)) in Frame(clips, t, videoElements) &&
      DrawVideo(c.id) in Frame(clips, t, videoElements)
    ensures c.kind == Image ==> LoadImage(c.id, c.sourceUrl, DrawOpacity(c.properties)) in Frame(clips, t, videoElements)
  {
    if c.kind == Video && c.id in videoElements {
      VideoClipIsDrawn(clips, t, videoElements, c);
    } else if c.kind == Image {
      OpInFrame(clips, t, videoElements, c, LoadImage(c.id, c.sourceUrl, DrawOpacity(c.properties)));
    }
  }

  /** The `speed` property never reaches the canvas: changing it changes no drawing operation. */
  lemma SpeedNotApplied(c: Clip, t: real, videoElements: set<string>, speed: Value)
    ensures ClipOps(c.(properties := c.properties["speed" := speed]), t, videoElements) == ClipOps(c, t, videoElements)
  {
    var p := c.properties["speed" := speed];
    assert ("opacity" in p) == ("opacity" in c.properties);
    assert "opacity" in p ==> p["opacity"] == c.properties["opacity"];
  }

  // ---------------------------------------------------------------- video elements

  /** The ids of the video clips of `clips`. */
  function VideoIds(clips: seq<Clip>): set<string>
  {
    set c | c in clips && c.kind == Video :: c.id
  }

  /** The elements one run of the first effect creates: one per video clip id not yet known,
      with the `src` of the last such clip in the list. */
  function NewElements(known: map<string, string>, clips: seq<Clip>): map<string, string>
  {
    if clips == [] then map[]
    else
      var c := clips[|clips| - 1];
      var made := NewElements(known, clips[..|clips| - 1]);
      if c.kind == Video && c.id !in known then made[c.id := c.sourceUrl] else made
  }

  lemma {:induction false} NewElementsKeys(known: map<string, string>, clips: seq<Clip>)
    ensures NewElements(known, clips).Keys == VideoIds(clips) - known.Keys
  {
    if clips != [] {
      var init := clips[..|clips| - 1];
      var c := clips[|clips| - 1];
      NewElementsKeys(known, init);
      assert clips == init + [c];
      assert VideoIds(clips) == VideoIds(init) + (if c.kind == Video then {c.id} else {});
    }
  }

  /** Merging the new elements into the map: existing entries are kept as they were, and every
      video clip id ends up with an element. */
  lemma SyncKeepsAndCovers(known: map<string, string>, clips: seq<Clip>)
    ensures forall id :: id in known ==> id in known + NewElements(known, clips) && (known + NewElements(known, clips))[id] == known[id]
    ensures (known + NewElements(known, clips)).Keys == known.Keys + VideoIds(clips)
    ensures VideoIds(clips) <= known.Keys ==> known + NewElements(known, clips) == known
  {
    NewElementsKeys(known, clips);
    if VideoIds(clips) <= known.Keys {
      assert NewElements(known, clips) == map[];
    }
  }

  /** The `videoElements` state: clip id to the `src` of the element created for it. */
  class VideoElementCache {
    var elements: map<string, string>

    constructor ()
      ensures elements == map[]
    {
      elements := map[];
    }

    /** One run of the effect over `clips`: create the missing elements, then merge them in. */
    method Sync(clips: seq<Clip>)
      modifies this
      ensures elements == old(elements) + NewElements(old(elements), clips)
      ensures forall id :: id in old(elements) ==> id in elements && elements[id] == old(elements)[id]
      ensures elements.Keys == old(elements).Keys + VideoIds(clips)
    {
      var made: map<string, string> := map[];
      var i := 0;
      while i < |clips|
        invariant 0 <= i <= |clips|
        invariant made == NewElements(elements, clips[..i])
      {
        var c := clips[i];
        if c.kind == Video && c.id !in elements {
          made := made[c.id := c.sourceUrl];
        }
        assert clips[..i + 1][..i] == clips[..i];
        i := i + 1;
      }
      assert clips[..i] == clips;
      SyncKeepsAndCovers(elements, clips);
      elements := elements + made;
    }
  }
}
