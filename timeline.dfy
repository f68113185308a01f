/**
 * The timeline panel: the playback tick, play/pause, skip and click-seek, zoom, the mapping
 * between milliseconds and pixels, dragging a clip, the `mm:ss.cc` clock and the track rows.
 * Times are milliseconds held as reals (JavaScript numbers); zoom is held in quarters, so the
 * zoom factors 0.25 .. 4 are the integers 1 .. 16.
 */
module Timeline {
  import opened Wrappers
  import opened Records
  import Decimal
  import Js

  /** The playback timer fires every 33 ms and advances the playhead by the same amount. */
  const TickMs: real := 33.0
  /** The skip buttons move the playhead by one second. */
  const SkipMs: real := 1000.0
  /** Zoom bounds and start value, in quarters (0.25, 4 and 1). */
  const MinZoom: int := 1
  const MaxZoom: int := 16
  const InitialZoom: int := 4

  function ZoomFactor(q: int): real
  {
    q as real / 4.0
  }

  /** At zoom 1 one second spans 100 pixels; no instant before 0 is drawn left of the origin. */
  function TimeToPixel(time: real, q: int): (p: real)
    requires q >= MinZoom
    ensures q == InitialZoom ==> p == time / 10.0
    ensures time >= 0.0 ==> p >= 0.0
  {
    (time / 1000.0) * 100.0 * ZoomFactor(q)
  }

  /** The instant drawn at a pixel offset: mapping it back to pixels gives that offset. */
  function PixelToTime(pixel: real, q: int): (t: real)
    requires q >= MinZoom
    ensures TimeToPixel(t, q) == pixel
  {
    var z := ZoomFactor(q);
    assert z > 0.0;
    assert (pixel / (100.0 * z) * 1000.0) / 1000.0 * 100.0 * z == pixel;
    (pixel / (100.0 * z)) * 1000.0
  }

  /** In exact arithmetic the two mappings are inverse to each other at every zoom. */
  lemma PixelTimeRoundTrip(time: real, pixel: real, q: int)
    requires q >= MinZoom
    ensures PixelToTime(TimeToPixel(time, q), q) == time
    ensures TimeToPixel(PixelToTime(pixel, q), q) == pixel
  {
    var z := ZoomFactor(q);
    assert z > 0.0;
    assert TimeToPixel(time, q) == time * z / 10.0;
    assert PixelToTime(pixel, q) == pixel * 10.0 / z;
    assert (time * z / 10.0) * 10.0 / z == time;
  }

  /** Later instants are further right, at every zoom. */
  lemma TimeToPixelIncreasing(a: real, b: real, q: int)
    requires q >= MinZoom && a < b
    ensures TimeToPixel(a, q) < TimeToPixel(b, q)
  {
    var z := ZoomFactor(q);
    assert z > 0.0;
    assert TimeToPixel(b, q) - TimeToPixel(a, q) == (b - a) * z / 10.0;
  }

  /** Zoom scales the mapping: at zoom q a duration is q/4 times as wide as at zoom 1, so zooming
      in widens every positive duration. */
  lemma TimeToPixelScalesWithZoom(time: real, q: int, q': int)
    requires q >= MinZoom && q' >= MinZoom
    ensures TimeToPixel(time, q) == ZoomFactor(q) * TimeToPixel(time, InitialZoom)
    ensures q < q' && time > 0.0 ==> TimeToPixel(time, q) < TimeToPixel(time, q')
  {
    if q < q' && time > 0.0 {
      assert TimeToPixel(time, q') - TimeToPixel(time, q) == (q' - q) as real / 4.0 * (time / 10.0);
    }
  }

  /** Pixel offsets add up like the durations they show. */
  lemma TimeToPixelAdditive(a: real, b: real, q: int)
    requires q >= MinZoom
    ensures TimeToPixel(a + b, q) == TimeToPixel(a, q) + TimeToPixel(b, q)
  {
  }

  /** The zoom percentage shown between the zoom buttons, `Math.round(zoom * 100)`. */
  function ZoomPercent(q: int): (p: int)
    ensures p == 25 * q
  {
    Js.Round(ZoomFactor(q) * 100.0)
  }

  // ---------------------------------------------------------------------------------------------
  // Playback

  /**
   * One firing of the playback timer while playing, from playhead `t`: the playhead advances
   * 33 ms, or, once that reaches the end, playback stops and the playhead rewinds to 0.
   * The result is the new playhead and whether playback continues.
   */
  function TickFrom(t: real, duration: real): (r: (real, bool))
    ensures r.1 <==> t + TickMs < duration
    ensures r.1 ==> r.0 == t + TickMs
    ensures !r.1 ==> r.0 == 0.0
    ensures 0.0 <= t && 0.0 < duration ==> 0.0 <= r.0 < duration
  {
    var next := t + TickMs;
    if next >= duration then (0.0, false) else (next, true)
  }

  /** `n` firings of the timer, each one reading the playhead the previous one left; a paused
      timeline does not move. */
  function Ticks(t: real, playing: bool, duration: real, n: nat): (real, bool)
    decreases n
  {
    if n == 0 || !playing then (t, playing)
    else
      var s := TickFrom(t, duration);
      Ticks(s.0, s.1, duration, n - 1)
  }

  lemma {:induction false} PausedTicksStill(t: real, duration: real, n: nat)
    ensures Ticks(t, false, duration, n) == (t, false)
    decreases n
  {
  }

  /** Playback moves the playhead 33 ms per firing as long as the end is not reached. */
  lemma {:induction false} TicksAdvance(t: real, duration: real, n: nat)
    requires t + TickMs * n as real < duration
    ensures Ticks(t, true, duration, n) == (t + TickMs * n as real, true)
    decreases n
  {
    if n > 0 {
      assert t + TickMs < duration;
      TicksAdvance(t + TickMs, duration, n - 1);
    }
  }

  /** The firing that reaches the end stops playback at 0, and nothing moves afterwards. */
  lemma {:induction false} TicksStopAtEnd(t: real, duration: real, n: nat, m: nat)
    requires n >= 1 && t + TickMs * (n - 1) as real < duration <= t + TickMs * n as real
    ensures Ticks(t, true, duration, n + m) == (0.0, false)
    decreases n
  {
    if n == 1 {
      PausedTicksStill(0.0, duration, m);
    } else {
      assert t + TickMs < duration;
      TicksStopAtEnd(t + TickMs, duration, n - 1, m);
    }
  }

  /**
   * The timer callback as the component writes it: `setCurrentTime(prev => …)` resolves `prev`
   * against the playhead `t0` captured when the timer was started, so every firing computes
   * from `t0`, whatever the playhead has become since.
   */
  function TicksAsWritten(t0: real, t: real, playing: bool, duration: real, n: nat): (r: (real, bool))
    ensures n == 0 || !playing ==> r == (t, playing)
    ensures n >= 1 && playing ==> r == TickFrom(t0, duration)
    decreases n
  {
    if n == 0 || !playing then (t, playing)
    else
      var s := TickFrom(t0, duration);
      TicksAsWritten(t0, s.0, s.1, duration, n - 1)
  }

  /** Two firings from 0 on a 30 s timeline: as written the playhead shows 33 ms, not 66 ms. */
  lemma StuckPlayheadExample()
    ensures TicksAsWritten(0.0, 0.0, true, 30000.0, 2) == (33.0, true)
    ensures Ticks(0.0, true, 30000.0, 2) == (66.0, true)
  {
    TicksAdvance(0.0, 30000.0, 2);
  }

  // ---------------------------------------------------------------------------------------------
  // Seeking

  function SkipBackTime(t: real): (r: real)
    ensures r >= 0.0 && r >= t - SkipMs
    ensures r == t - SkipMs || r == 0.0
  {
    if t - SkipMs >= 0.0 then t - SkipMs else 0.0
  }

  function SkipForwardTime(t: real, duration: real): (r: real)
    ensures r <= duration && r <= t + SkipMs
    ensures r == t + SkipMs || r == duration
  {
    if t + SkipMs <= duration then t + SkipMs else duration
  }

  /** `Math.max(0, Math.min(duration, time))`. */
  function ClampSeek(time: real, duration: real): (r: real)
    ensures r >= 0.0
    ensures 0.0 <= time <= duration ==> r == time
    ensures 0.0 <= duration < time ==> r == duration
    ensures time < 0.0 || duration < 0.0 ==> r == 0.0
  {
    var upper := if time <= duration then time else duration;
    if upper >= 0.0 then upper else 0.0
  }

  /** A click at `x` pixels from the ruler's left edge seeks to the time under the cursor,
      clamped into the timeline. */
  lemma ClickSeekHitsCursor(x: real, q: int, duration: real)
    requires q >= MinZoom && 0.0 <= x && 0.0 <= duration
    ensures 0.0 <= ClampSeek(PixelToTime(x, q), duration) <= duration
    ensures TimeToPixel(PixelToTime(x, q), q) == x
    ensures PixelToTime(x, q) <= duration ==> ClampSeek(PixelToTime(x, q), duration) == PixelToTime(x, q)
  {
    PixelTimeRoundTrip(0.0, x, q);
    assert PixelToTime(x, q) >= 0.0;
  }

  // ---------------------------------------------------------------------------------------------
  // Dragging

  /** Every row starts with an 80 px track-label column; the ruler and the track areas begin
      after it, and the playhead is drawn that far right of its time's pixel. */
  const LabelColumnPx: real := 80.0

  /**
   * A mouse move over clip `clipId` while a clip is being dragged, as the component computes it.
   * `rectLeft` is the left edge of the whole timeline container, label column included, so the
   * start sent is the time at `clientX - rectLeft` pixels: LabelColumnPx pixels (800 / zoom ms)
   * later than the time under the cursor on the track. The update carries only that start time,
   * kept non-negative and rounded to a whole millisecond. Nothing is sent when no drag is active
   * (an absent or empty id reads as false) or the timeline element is not mounted (`rectLeft`
   * absent).
   */
  function DragUpdate(dragged: Option<string>, rectLeft: Option<real>, clientX: real, clipId: string, q: int)
    : (r: Option<(string, ClipPatch)>)
    requires q >= MinZoom
    ensures r.Some? <==> dragged.Some? && dragged.value != "" && rectLeft.Some?
    ensures r.Some? ==> r.value.0 == clipId
    ensures r.Some? ==> r.value.1.trackIndex == None && r.value.1.properties == None && r.value.1.startTime.Some?
    ensures r.Some? ==>
      var s := r.value.1.startTime.value;
      var under := PixelToTime(clientX - rectLeft.value, q);
      s >= 0.0 && s == s.Floor as real &&
      (under >= 0.0 ==> s - 0.5 <= under < s + 0.5) &&
      (under < 0.0 ==> s == 0.0)
  {
    if dragged.None? || dragged.value == "" || rectLeft.None? then None
    else
      var under := PixelToTime(clientX - rectLeft.value, q);
      var start := if under >= 0.0 then under else 0.0;
      Some((clipId, ClipPatch(None, Some(Js.Round(start) as real), None)))
  }

  /**
   * Dragging measured from the left edge of the track area, that is with the label column taken
   * off: the start sent is the time under the cursor on the track.
   */
  function DragUpdateOnTrack(dragged: Option<string>, rectLeft: Option<real>, clientX: real, clipId: string, q: int)
    : (r: Option<(string, ClipPatch)>)
    requires q >= MinZoom
    ensures r.Some? <==> dragged.Some? && dragged.value != "" && rectLeft.Some?
    ensures r.Some? ==> r.value.0 == clipId
    ensures r.Some? ==> r.value.1.trackIndex == None && r.value.1.properties == None && r.value.1.startTime.Some?
    ensures r.Some? ==>
      var s := r.value.1.startTime.value;
      var under := PixelToTime(clientX - rectLeft.value - LabelColumnPx, q);
      s >= 0.0 && s == s.Floor as real &&
      (under >= 0.0 ==> s - 0.5 <= under < s + 0.5) &&
      (under < 0.0 ==> s == 0.0)
  {
    var trackLeft := if rectLeft.Some? then Some(rectLeft.value + LabelColumnPx) else None;
    DragUpdate(dragged, trackLeft, clientX, clipId, q)
  }

  /**
   * Measured from the track area, a dragged clip lands under the cursor: its left edge, drawn at
   * its new start's pixel plus the label column, is less than half a millisecond's width away
   * from the cursor.
   */
  lemma DragLandsUnderCursor(id: string, rectLeft: real, clientX: real, clipId: string, q: int)
    requires q >= MinZoom && id != "" && clientX - rectLeft >= LabelColumnPx
    ensures var r := DragUpdateOnTrack(Some(id), Some(rectLeft), clientX, clipId, q);
      r.Some? &&
      var edge := TimeToPixel(r.value.1.startTime.value, q) + LabelColumnPx;
      edge - TimeToPixel(0.5, q) <= clientX - rectLeft < edge + TimeToPixel(0.5, q)
  {
    var r := DragUpdateOnTrack(Some(id), Some(rectLeft), clientX, clipId, q);
    var s := r.value.1.startTime.value;
    var x := clientX - rectLeft - LabelColumnPx;
    var under := PixelToTime(x, q);
    assert under >= 0.0 by {
      var z := ZoomFactor(q);
      assert z > 0.0 && x >= 0.0;
      assert under == (x / (100.0 * z)) * 1000.0;
    }
    assert s - 0.5 <= under < s + 0.5;
    TimeToPixelAdditive(s, 0.5, q);
    TimeToPixelAdditive(s, -0.5, q);
    TimeToPixelIncreasing(under, s + 0.5, q);
    if s - 0.5 < under {
      TimeToPixelIncreasing(s - 0.5, under, q);
    }
  }

  /**
   * At zoom 1, with the cursor over the 2 s mark of a track (200 px into the track area, 280 px
   * into the container), the component sends a start of 2800 ms; measured from the track area
   * it is 2000 ms.
   */
  lemma DragLagExample()
    ensures DragUpdate(Some("c1"), Some(0.0), 280.0, "c1", InitialZoom)
      == Some(("c1", ClipPatch(None, Some(2800.0), None)))
    ensures DragUpdateOnTrack(Some("c1"), Some(0.0), 280.0, "c1", InitialZoom)
      == Some(("c1", ClipPatch(None, Some(2000.0), None)))
  {
    assert PixelToTime(280.0, InitialZoom) == 2800.0;
    assert Js.Round(2800.0) == 2800;
    assert PixelToTime(200.0, InitialZoom) == 2000.0;
    assert Js.Round(2000.0) == 2000;
  }

  // ---------------------------------------------------------------------------------------------
  // The clock

  /** `Math.trunc`. */
  function Trunc(x: real): (n: int)
    ensures x >= 0.0 ==> n == x.Floor
    ensures x < 0.0 ==> n == -((-x).Floor)
  {
    if x >= 0.0 then x.Floor else -((-x).Floor)
  }

  /** JavaScript's `a % 1000` on numbers: the remainder takes the sign of the dividend. */
  function RemThousand(a: real): (r: real)
    ensures a >= 0.0 ==> 0.0 <= r < 1000.0
    ensures a < 0.0 ==> -1000.0 < r <= 0.0
  {
    a - 1000.0 * Trunc(a / 1000.0) as real
  }

  /** JavaScript's `a % 60` on an integer. */
  function RemSixty(a: int): (r: int)
    ensures a >= 0 ==> 0 <= r < 60 && r == a % 60
    ensures a < 0 ==> -60 < r <= 0 && (a - r) % 60 == 0
  {
    if a >= 0 then a % 60 else -((-a) % 60)
  }

  /** The minutes, seconds and centiseconds `formatTime` prints. */
  datatype Clock = Clock(minutes: int, seconds: int, centis: int)

  /** For a non-negative time the fields are in range: minutes from 0, seconds 0..59 and
      centiseconds 0..99. */
  function ClockOf(ms: real): (c: Clock)
    ensures ms >= 0.0 ==> c.minutes >= 0 && 0 <= c.seconds < 60 && 0 <= c.centis < 100
  {
    var totalSeconds := (ms / 1000.0).Floor;
    // Math.floor(totalSeconds / 60): Dafny's `/` by a positive divisor rounds down.
    Clock(totalSeconds / 60, RemSixty(totalSeconds), (RemThousand(ms) / 10.0).Floor)
  }

  function FormatTime(ms: real): (s: string)
    ensures |s| >= 8
  {
    var c := ClockOf(ms);
    Decimal.PadStart2(Decimal.IntText(c.minutes)) + ":" + Decimal.PadStart2(Decimal.IntText(c.seconds))
      + "." + Decimal.PadStart2(Decimal.IntText(c.centis))
  }

  /** For a non-negative time the clock's fields are in range and the clock reads the time
      truncated to the centisecond. */
  lemma ClockBounds(ms: real)
    requires ms >= 0.0
    ensures var c := ClockOf(ms);
      c.minutes >= 0 && 0 <= c.seconds <= 59 && 0 <= c.centis <= 99 &&
      var shown := (c.minutes * 60000 + c.seconds * 1000 + c.centis * 10) as real;
      shown <= ms < shown + 10.0
  {
    var total := (ms / 1000.0).Floor;
    assert 1000.0 * total as real <= ms < 1000.0 * total as real + 1000.0;
    assert total >= 0;
    var rem := RemThousand(ms);
    assert rem == ms - 1000.0 * total as real;
    var c := ClockOf(ms);
    assert total == c.minutes * 60 + c.seconds;
    assert 10.0 * c.centis as real <= rem < 10.0 * c.centis as real + 10.0;
  }

  /** The fields of `mm:ss.cc` sit at fixed offsets from the end of the text. */
  lemma ClockLayout(mm: string, ss: string, cc: string)
    requires |ss| == 2 && |cc| == 2
    ensures var f := mm + ":" + ss + "." + cc;
      f[|f| - 6] == ':' && f[|f| - 3] == '.' &&
      f[..|f| - 6] == mm && f[|f| - 5..|f| - 3] == ss && f[|f| - 2..] == cc
  {
    var f := mm + ":" + ss + "." + cc;
    assert f[..|f| - 6] == mm;
    assert f[|f| - 5..|f| - 3] == ss;
    assert f[|f| - 2..] == cc;
  }

  /** The minutes are printed as at least two digits that read back as their value. */
  lemma MinutesField(n: int)
    requires n >= 0
    ensures |Decimal.PadStart2(Decimal.IntText(n))| >= 2
    ensures Decimal.AllDigits(Decimal.PadStart2(Decimal.IntText(n)))
    ensures Decimal.DigitsValue(Decimal.PadStart2(Decimal.IntText(n))) == n
  {
    assert Decimal.IntText(n) == Decimal.NatText(n);
    Decimal.PadStart2Value(Decimal.NatText(n));
    Decimal.NatTextRoundTrip(n);
  }

  /** A field below 100 is printed as two digits that read back as its value. */
  lemma TwoDigitField(n: int)
    requires 0 <= n < 100
    ensures |Decimal.PadStart2(Decimal.IntText(n))| == 2
    ensures Decimal.AllDigits(Decimal.PadStart2(Decimal.IntText(n)))
    ensures Decimal.DigitsValue(Decimal.PadStart2(Decimal.IntText(n))) == n
  {
    assert Decimal.IntText(n) == Decimal.NatText(n);
    Decimal.PadStart2Value(Decimal.NatText(n));
    Decimal.NatTextRoundTrip(n);
    Decimal.TwoDigits(n);
  }

  /**
   * `f` shows the clock `m`:`sec`.`cs`: at least two minute digits, then `:`, two second digits,
   * `.` and two centisecond digits, each field reading back as its value.
   */
  predicate ShowsClock(f: string, m: int, sec: int, cs: int)
  {
    |f| >= 8 && f[|f| - 6] == ':' && f[|f| - 3] == '.' &&
    Decimal.AllDigits(f[..|f| - 6]) && Decimal.DigitsValue(f[..|f| - 6]) == m &&
    Decimal.AllDigits(f[|f| - 5..|f| - 3]) && Decimal.DigitsValue(f[|f| - 5..|f| - 3]) == sec &&
    Decimal.AllDigits(f[|f| - 2..]) && Decimal.DigitsValue(f[|f| - 2..]) == cs
  }

  /** Padded fields joined as `mm:ss.cc` show the three values. */
  lemma FieldsShowClock(m: int, sec: int, cs: int)
    requires m >= 0 && 0 <= sec < 100 && 0 <= cs < 100
    ensures ShowsClock(Decimal.PadStart2(Decimal.IntText(m)) + ":" + Decimal.PadStart2(Decimal.IntText(sec))
      + "." + Decimal.PadStart2(Decimal.IntText(cs)), m, sec, cs)
  {
    MinutesField(m);
    TwoDigitField(sec);
    TwoDigitField(cs);
    ClockLayout(Decimal.PadStart2(Decimal.IntText(m)), Decimal.PadStart2(Decimal.IntText(sec)),
      Decimal.PadStart2(Decimal.IntText(cs)));
  }

  /** The text of a non-negative time shows its clock, so the printed fields read back as the
      minutes, seconds and centiseconds of the time. */
  lemma FormatTimeReadsBack(ms: real)
    requires ms >= 0.0
    ensures var c := ClockOf(ms); ShowsClock(FormatTime(ms), c.minutes, c.seconds, c.centis)
  {
    ClockBounds(ms);
    var c := ClockOf(ms);
    FieldsShowClock(c.minutes, c.seconds, c.centis);
  }

  // ---------------------------------------------------------------------------------------------
  // Track rows

  predicate StrictlyDescending(rows: seq<int>)
  {
    forall i, j :: 0 <= i < j < |rows| ==> rows[i] > rows[j]
  }

  /** Adds one track to descending, duplicate-free rows. */
  function InsertRow(k: int, rows: seq<int>): (r: seq<int>)
    requires StrictlyDescending(rows)
    ensures StrictlyDescending(r)
    ensures forall x :: x in r <==> x == k || x in rows
    ensures r != []
  {
    if rows == [] || k > rows[0] then [k] + rows
    else if k == rows[0] then rows
    else
      var tail := InsertRow(k, rows[1..]);
      BelowHead(rows, tail, k);
      [rows[0]] + tail
  }

  lemma BelowHead(rows: seq<int>, tail: seq<int>, k: int)
    requires StrictlyDescending(rows) && rows != [] && k < rows[0]
    requires forall x :: x in tail <==> x == k || x in rows[1..]
    ensures forall i :: 0 <= i < |tail| ==> tail[i] < rows[0]
  {
    forall i | 0 <= i < |tail| ensures tail[i] < rows[0] {
      var x := tail[i];
      assert x in tail;
      if x != k {
        var j :| 0 <= j < |rows[1..]| && rows[1..][j] == x;
        assert rows[j + 1] == x;
      }
    }
  }

  /** `Array.from(new Set(clips.map(c => c.track_index))).sort((a, b) => b - a)`. */
  function DistinctTracks(clips: seq<Clip>): (r: seq<int>)
    ensures StrictlyDescending(r)
    ensures forall x :: x in r <==> exists c :: c in clips && c.trackIndex == x
  {
    if clips == [] then []
    else
      var rest := DistinctTracks(clips[1..]);
      assert forall c :: c in clips <==> c == clips[0] || c in clips[1..];
      InsertRow(clips[0].trackIndex, rest)
  }

  /** The rows the timeline shows: the distinct tracks of the clips, highest first, or the single
      track 0 when there are no clips. */
  function TrackRows(clips: seq<Clip>): (r: seq<int>)
    ensures r != [] && StrictlyDescending(r)
    ensures clips == [] ==> r == [0]
    ensures clips != [] ==> forall x :: x in r <==> exists c :: c in clips && c.trackIndex == x
  {
    var rows := DistinctTracks(clips);
    if rows == [] then [0] else rows
  }

  /** Descending rows are fixed by the tracks they hold: any other descending, duplicate-free
      listing of the same tracks is the same sequence. */
  lemma {:induction false} DescendingUnique(a: seq<int>, b: seq<int>)
    requires StrictlyDescending(a) && StrictlyDescending(b)
    requires forall x :: x in a <==> x in b
    ensures a == b
  {
    if a != [] {
      assert a[0] in a;
    }
    if b != [] {
      assert b[0] in b;
    }
    if a != [] && b != [] {
      forall x ensures x in a[1..] <==> x in b[1..] {
        if x in a[1..] {
          assert x < a[0];
          assert x in b;
        }
        if x in b[1..] {
          assert x < b[0];
          assert x in a;
        }
      }
      DescendingUnique(a[1..], b[1..]);
    }
  }

  /** The rows depend only on which tracks are used, not on the order of the clips. */
  lemma RowsIgnoreClipOrder(clips: seq<Clip>, other: seq<Clip>)
    requires multiset(clips) == multiset(other)
    ensures TrackRows(clips) == TrackRows(other)
  {
    forall c ensures c in clips <==> c in other {
      assert c in clips <==> c in multiset(clips);
      assert c in other <==> c in multiset(other);
    }
    if clips != [] {
      assert clips[0] in other;
      DescendingUnique(TrackRows(clips), TrackRows(other));
    } else {
      assert |other| == |multiset(other)|;
    }
  }

  // ---------------------------------------------------------------------------------------------
  // The component's state

  /**
   * The playhead, play flag, zoom and drag state of the timeline. The playhead and play flag
   * may belong to the parent editor (controlled props); either way they are the values the
   * handlers read and write.
   */
  class TimelineState {
    var currentTime: real
    var isPlaying: bool
    var zoom: int
    var draggedClip: Option<string>

    ghost predicate Valid()
      reads this
    {
      MinZoom <= zoom <= MaxZoom
    }

    constructor()
      ensures Valid()
      ensures currentTime == 0.0 && !isPlaying && zoom == InitialZoom && draggedClip == None
    {
      currentTime := 0.0;
      isPlaying := false;
      zoom := InitialZoom;
      draggedClip := None;
    }

    /** One firing of the playback timer; the timer only runs while playing. */
    method Tick(duration: real)
      modifies this
      ensures !old(isPlaying) ==> currentTime == old(currentTime) && !isPlaying
      ensures old(isPlaying) ==> (currentTime, isPlaying) == TickFrom(old(currentTime), duration)
      ensures (currentTime, isPlaying) == Ticks(old(currentTime), old(isPlaying), duration, 1)
      ensures zoom == old(zoom) && draggedClip == old(draggedClip)
    {
      if isPlaying {
        var next := currentTime + TickMs;
        if next >= duration {
          isPlaying := false;
          currentTime := 0.0;
        } else {
          currentTime := next;
        }
      }
    }

    method PlayPause()
      modifies this
      ensures isPlaying == !old(isPlaying)
      ensures currentTime == old(currentTime) && zoom == old(zoom) && draggedClip == old(draggedClip)
    {
      isPlaying := !isPlaying;
    }

    method SkipBack()
      modifies this
      ensures currentTime == SkipBackTime(old(currentTime))
      ensures isPlaying == old(isPlaying) && zoom == old(zoom) && draggedClip == old(draggedClip)
    {
      currentTime := if currentTime - SkipMs >= 0.0 then currentTime - SkipMs else 0.0;
    }

    method SkipForward(duration: real)
      modifies this
      ensures currentTime == SkipForwardTime(old(currentTime), duration)
      ensures isPlaying == old(isPlaying) && zoom == old(zoom) && draggedClip == old(draggedClip)
    {
      currentTime := if currentTime + SkipMs <= duration then currentTime + SkipMs else duration;
    }

    /** A click on the ruler, `clientX - rectLeft` pixels from its left edge. */
    method ClickSeek(clientX: real, rectLeft: real, duration: real)
      requires Valid()
      modifies this
      ensures currentTime == ClampSeek(PixelToTime(clientX - rectLeft, old(zoom)), duration)
      ensures isPlaying == old(isPlaying) && zoom == old(zoom) && draggedClip == old(draggedClip)
    {
      var time := PixelToTime(clientX - rectLeft, zoom);
      currentTime := ClampSeek(time, duration);
    }

    method ZoomIn()
      requires Valid()
      modifies this
      ensures Valid()
      ensures zoom == if old(zoom) < MaxZoom then old(zoom) + 1 else MaxZoom
      ensures currentTime == old(currentTime) && isPlaying == old(isPlaying) && draggedClip == old(draggedClip)
    {
      zoom := if zoom + 1 <= MaxZoom then zoom + 1 else MaxZoom;
    }

    method ZoomOut()
      requires Valid()
      modifies this
      ensures Valid()
      ensures zoom == if old(zoom) > MinZoom then old(zoom) - 1 else MinZoom
      ensures currentTime == old(currentTime) && isPlaying == old(isPlaying) && draggedClip == old(draggedClip)
    {
      zoom := if zoom - 1 >= MinZoom then zoom - 1 else MinZoom;
    }

    /** Mouse-down on a clip starts dragging it. */
    method DragStart(clipId: string)
      modifies this
      ensures draggedClip == Some(clipId)
      ensures currentTime == old(currentTime) && isPlaying == old(isPlaying) && zoom == old(zoom)
    {
      draggedClip := Some(clipId);
    }

    /** A mouse move over clip `clipId`, `rectLeft` being the container's left edge; returns the
        update sent to the editor, if any, measured from the track area. */
    method Drag(clientX: real, rectLeft: Option<real>, clipId: string) returns (update: Option<(string, ClipPatch)>)
      requires Valid()
      ensures update == DragUpdateOnTrack(draggedClip, rectLeft, clientX, clipId, zoom)
    {
      if draggedClip.None? || draggedClip.value == "" || rectLeft.None? {
        return None;
      }
      var x := clientX - rectLeft.value - LabelColumnPx;
      var under := PixelToTime(x, zoom);
      var start := if under >= 0.0 then under else 0.0;
      update := Some((clipId, ClipPatch(None, Some(Js.Round(start) as real), None)));
    }

    /** Mouse-up ends the drag. */
    method DragEnd()
      modifies this
      ensures draggedClip == None
      ensures currentTime == old(currentTime) && isPlaying == old(isPlaying) && zoom == old(zoom)
    {
      draggedClip := None;
    }
  }
}
