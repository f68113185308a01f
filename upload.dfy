/**
 * The upload dialog: classifying a file by its MIME type and the state sequence of one upload
 * (simulated progress, the upload, the duration probe, the asset row, and the reset at the end).
 * The storage replies, the number of progress-timer firings before the upload finishes, and the
 * result of the browser's metadata probe are parameters.
 */
module Upload {
  import opened Wrappers
  import opened Records

  predicate StartsWith(s: string, prefix: string)
  {
    |prefix| <= |s| && s[..|prefix|] == prefix
  }

  /** `getAssetType`: the first matching prefix wins, and anything else counts as video. */
  function AssetKindOfMime(mime: string): (k: ClipKind)
    ensures StartsWith(mime, "video/") ==> k == Video
    ensures k == Image <==> !StartsWith(mime, "video/") && StartsWith(mime, "image/")
    ensures k == Audio <==> !StartsWith(mime, "video/") && !StartsWith(mime, "image/") && StartsWith(mime, "audio/")
  {
    if StartsWith(mime, "video/") then Video
    else if StartsWith(mime, "image/") then Image
    else if StartsWith(mime, "audio/") then Audio
    else Video
  }

  /** A MIME type built from a kind's stored name classifies back to that kind. */
  lemma MimeRoundTrip(k: ClipKind, subtype: string)
    ensures AssetKindOfMime(KindName(k) + "/" + subtype) == k
  {
    var mime := KindName(k) + "/" + subtype;
    assert mime[..6] == KindName(k) + "/";
    assert mime[0] == KindName(k)[0];
  }

  /** A file of no known media type is stored as a video asset, and gets no measured duration. */
  lemma UnknownTypeIsDurationlessVideo(mime: string, probe: Option<real>)
    requires !StartsWith(mime, "video/") && !StartsWith(mime, "image/") && !StartsWith(mime, "audio/")
    ensures AssetKindOfMime(mime) == Video
    ensures UploadedDuration(mime, probe) == None
  {
  }

  /** The file the browser hands over: its name, MIME type and size in bytes. */
  datatype FileInfo = FileInfo(name: string, mime: string, size: real)

  /**
   * The stored duration: only video files are probed; `probe` is the reported duration in
   * seconds, or `None` when the metadata could not be read, which counts as 5 seconds.
   */
  function UploadedDuration(mime: string, probe: Option<real>): (d: Option<real>)
    ensures d.Some? <==> StartsWith(mime, "video/")
    ensures d.Some? && probe.None? ==> d.value == 5000.0
    ensures d.Some? && probe.Some? ==> d.value == probe.value * 1000.0
  {
    if !StartsWith(mime, "video/") then None
    else if probe.Some? then Some(probe.value * 1000.0)
    else Some(5000.0)
  }

  /** The asset row for an uploaded file. */
  function UploadedAsset(file: FileInfo, url: string, probe: Option<real>): (a: AssetInsert)
    ensures a.kind == AssetKindOfMime(file.mime) && a.source == Upload
    ensures a.url == url && a.filename == file.name && a.thumbnailUrl == None && a.aiJobId == None
    ensures a.duration == UploadedDuration(file.mime, probe)
    ensures a.metadata.Keys == {"size", "format"}
    ensures a.metadata["size"] == Num(file.size) && a.metadata["format"] == Text(file.mime)
  {
    AssetInsert(AssetKindOfMime(file.mime), Upload, url, None, file.name, UploadedDuration(file.mime, probe),
      map["size" := Num(file.size), "format" := Text(file.mime)], None)
  }

  /** `err.message || 'Upload failed'`. */
  function FailureText(message: string): (s: string)
    ensures s != ""
    ensures message != "" ==> s == message
  {
    if message == "" then "Upload failed" else message
  }

  /** One firing of the progress timer: `Math.min(prev + 10, 90)`. */
  function Bump(p: int): int
  {
    if p + 10 <= 90 then p + 10 else 90
  }

  /** The progress after `n` firings from `p`. */
  function Level(p: int, n: nat): int
  {
    if n == 0 then p else Bump(Level(p, n - 1))
  }

  /** The progress values the timer sets, one per firing, starting from `p`. */
  function Climb(p: int, n: nat): (r: seq<int>)
    ensures |r| == n
  {
    if n == 0 then [] else Climb(p, n - 1) + [Level(p, n)]
  }

  /** Every progress value one upload shows, in order: reset, timer steps, 95 once the file is
      stored, 100 once the asset row exists, and the final reset. It has one value per timer
      firing plus the two resets and the two completion values that were reached. */
  function ProgressTrace(ticks: nat, uploaded: bool, created: bool): (tr: seq<int>)
    ensures |tr| == ticks + 2 + (if uploaded then 1 else 0) + (if uploaded && created then 1 else 0)
    ensures tr[0] == 0 && tr[|tr| - 1] == 0
  {
    [0] + Climb(0, ticks) + (if uploaded then [95] + (if created then [100] else []) else []) + [0]
  }

  /** From 0 the timer counts up in tens and then holds at 90. */
  lemma {:induction false} LevelFromZero(n: nat)
    ensures Level(0, n) == if 10 * n <= 90 then 10 * n else 90
  {
    if n > 0 {
      LevelFromZero(n - 1);
    }
  }

  lemma {:induction false} ClimbShape(n: nat)
    ensures forall i :: 0 <= i < n ==> Climb(0, n)[i] == Level(0, i + 1)
  {
    if n > 0 {
      ClimbShape(n - 1);
    }
  }

  /**
   * Simulated progress never passes 90 and never goes down before the upload finishes; the
   * trace ends at 0, and shows 100 exactly when the asset was created.
   */
  lemma ProgressTraceShape(ticks: nat, uploaded: bool, created: bool)
    ensures var tr := ProgressTrace(ticks, uploaded, created);
      tr[0] == 0 && tr[|tr| - 1] == 0 &&
      (forall i :: 1 <= i <= ticks ==> 10 <= tr[i] <= 90) &&
      (forall i, j :: 0 <= i < j <= ticks ==> tr[i] <= tr[j]) &&
      (forall v :: v in tr ==> 0 <= v <= 100) &&
      (100 in tr <==> uploaded && created) &&
      (95 in tr <==> uploaded)
  {
    ClimbShape(ticks);
    var tr := ProgressTrace(ticks, uploaded, created);
    var climb := Climb(0, ticks);
    var tail := (if uploaded then [95] + (if created then [100] else []) else []) + [0];
    assert tr == [0] + climb + tail;
    forall i | 0 <= i <= ticks
      ensures tr[i] == if 10 * i <= 90 then 10 * i else 90
    {
      if i > 0 {
        assert tr[i] == climb[i - 1];
        LevelFromZero(i);
      }
    }
    forall v | v in climb
      ensures 10 <= v <= 90
    {
      var i :| 0 <= i < |climb| && climb[i] == v;
      assert tr[i + 1] == v;
    }
  }

  /** `uploading`, `progress` and `error` of the dialog. */
  class UploadDialog {
    var uploading: bool
    var progress: int
    var error: Option<string>

    constructor()
      ensures !uploading && progress == 0 && error == None
    {
      uploading := false;
      progress := 0;
      error := None;
    }

    /**
     * `handleFiles` on a selection: only the first file is used. Returns the asset row sent (if
     * the upload got that far), the asset handed to `onUploadComplete` (which is followed by
     * `onClose`), and every progress value set, in order.
     */
    method HandleFiles(files: seq<FileInfo>, ticks: nat, uploaded: Result<string>, probe: Option<real>,
                       created: Result<MediaAsset>)
      returns (insert: Option<AssetInsert>, completed: Option<MediaAsset>, trace: seq<int>)
      modifies this
      ensures files == [] ==> uploading == old(uploading) && progress == old(progress) && error == old(error)
      ensures files == [] ==> insert == None && completed == None && trace == []
      ensures files != [] ==> !uploading && progress == 0
      ensures files != [] ==> trace == ProgressTrace(ticks, uploaded.Ok?, uploaded.Ok? && created.Ok?)
      ensures files != [] && uploaded.Ok? ==> insert == Some(UploadedAsset(files[0], uploaded.value, probe))
      ensures uploaded.Err? ==> insert == None
      ensures completed.Some? <==> files != [] && uploaded.Ok? && created.Ok?
      ensures completed.Some? ==> completed.value == created.value
      ensures files != [] && uploaded.Err? ==> error == Some(FailureText(uploaded.message))
      ensures files != [] && uploaded.Ok? && created.Err? ==> error == Some(FailureText(created.message))
      ensures files != [] && uploaded.Ok? && created.Ok? ==> error == None
    {
      insert, completed, trace := None, None, [];
      if files == [] {
        return;
      }
      var file := files[0];
      error := None;
      uploading := true;
      progress := 0;
      trace := [0];
      var k := 0;
      while k < ticks
        invariant 0 <= k <= ticks
        invariant progress == Level(0, k) && error == None
        invariant trace == [0] + Climb(0, k)
      {
        progress := if progress + 10 <= 90 then progress + 10 else 90;
        trace := trace + [progress];
        k := k + 1;
      }
      match uploaded {
        case Err(m) =>
          error := Some(FailureText(m));
        case Ok(url) =>
          progress := 95;
          trace := trace + [95];
          var asset := UploadedAsset(file, url, probe);
          insert := Some(asset);
          match created {
            case Err(m) =>
              error := Some(FailureText(m));
            case Ok(row) =>
              progress := 100;
              trace := trace + [100];
              completed := Some(row);
          }
      }
      uploading := false;
      progress := 0;
      trace := trace + [0];
    }
  }
}
