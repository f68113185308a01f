/**
 * The media library dialog: the type filter over the loaded assets, the icon shown for an asset
 * without a thumbnail, the duration label, and what a click on an asset does.
 */
module MediaLibrary {
  import opened Wrappers
  import opened Records
  import Seqs
  import Js

  /** The filter buttons: 'all', or one asset type. */
  datatype LibraryFilter = All | OnlyKind(kind: ClipKind)

  function FilteredAssets(assets: seq<MediaAsset>, filter: LibraryFilter): (r: seq<MediaAsset>)
    ensures filter == All ==> r == assets
    ensures filter.OnlyKind? ==> forall a :: a in r <==> a in assets && a.kind == filter.kind
    ensures Seqs.IsSubsequence(r, assets)
  {
    match filter
    case All =>
      SubsequenceOfSelf(assets);
      assets
    case OnlyKind(k) =>
      Seqs.FilterIsSubsequence(assets, (a: MediaAsset) => a.kind == k);
      Seqs.Filter(assets, (a: MediaAsset) => a.kind == k)
  }

  lemma {:induction false} SubsequenceOfSelf(s: seq<MediaAsset>)
    ensures Seqs.IsSubsequence(s, s)
  {
    if s != [] {
      SubsequenceOfSelf(s[1..]);
    }
  }

  /** Filtering by a type keeps each asset of that type as often as it occurs, and drops the rest. */
  lemma FilterByKindCounts(assets: seq<MediaAsset>, k: ClipKind, a: MediaAsset)
    ensures multiset(FilteredAssets(assets, OnlyKind(k)))[a] == if a.kind == k then multiset(assets)[a] else 0
  {
    Seqs.FilterCount(assets, (x: MediaAsset) => x.kind == k, a);
  }

  datatype Icon = VideoIcon | ImageIcon | MusicIcon

  /** The icon for an `asset_type` string; an unknown type gets the video icon. */
  function IconFor(assetType: string): (i: Icon)
    ensures assetType == "image" <==> i == ImageIcon
    ensures assetType == "audio" <==> i == MusicIcon
    ensures assetType != "image" && assetType != "audio" ==> i == VideoIcon
  {
    if assetType == "video" then VideoIcon
    else if assetType == "image" then ImageIcon
    else if assetType == "audio" then MusicIcon
    else VideoIcon
  }

  /** Each stored type gets its own icon. */
  lemma IconsDistinguishKinds(a: ClipKind, b: ClipKind)
    ensures IconFor(KindName(a)) == IconFor(KindName(b)) <==> a == b
  {
  }

  /**
   * The line under an asset's name: `{asset.duration && <p>{Math.round(duration / 1000)}s</p>}`.
   * React renders the left operand when it is falsy, so a duration of 0 prints a stray "0"
   * (`StrayZero`), and an absent duration prints nothing.
   */
  datatype DurationCell = Hidden | StrayZero | Seconds(n: int)

  function DurationCellAsWritten(duration: Option<real>): (c: DurationCell)
    ensures duration == None ==> c == Hidden
    ensures duration == Some(0.0) ==> c == StrayZero
    ensures duration.Some? && duration.value != 0.0 ==> c == Seconds(Js.Round(duration.value / 1000.0))
  {
    match duration
    case None => Hidden
    case Some(d) => if d == 0.0 then StrayZero else Seconds(Js.Round(d / 1000.0))
  }

  /** The label as evidently intended: shown exactly for a non-zero duration, as whole seconds. */
  function DurationLabel(duration: Option<real>): (c: DurationCell)
    ensures c != StrayZero
    ensures c.Seconds? <==> duration.Some? && duration.value != 0.0
    ensures c.Seconds? ==> c.n as real - 0.5 <= duration.value / 1000.0 < c.n as real + 0.5
  {
    match duration
    case None => Hidden
    case Some(d) => if d == 0.0 then Hidden else Seconds(Js.Round(d / 1000.0))
  }

  /** The two agree except on a zero duration, where the page shows a "0". */
  lemma ZeroDurationShowsZero()
    ensures DurationCellAsWritten(Some(0.0)) == StrayZero
    ensures DurationLabel(Some(0.0)) == Hidden
  {
  }

  lemma DurationLabelAgrees(duration: Option<real>)
    requires duration != Some(0.0)
    ensures DurationCellAsWritten(duration) == DurationLabel(duration)
  {
  }

  /** The callbacks a click on an asset invokes, in order. */
  datatype LibraryCall = SelectAsset(asset: MediaAsset) | CloseLibrary

  function ClickCalls(asset: MediaAsset): (calls: seq<LibraryCall>)
    ensures |calls| == 2 && calls[0] == SelectAsset(asset) && calls[1] == CloseLibrary
  {
    [SelectAsset(asset), CloseLibrary]
  }
}
