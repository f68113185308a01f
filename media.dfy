/**
 * The media service: the asset row it inserts, reading one asset, and the object path an
 * uploaded file is stored under. The signed-in user, the clock and every storage reply are
 * parameters.
 */
module Media {
  import opened Wrappers
  import opened Records
  import opened Storage
  import Decimal

  const AssetNotFound: string := "Asset not found"
  /** The bucket `uploadFile` uses unless told otherwise. */
  const DefaultBucket: string := "media"

  /** The row inserted into `media_assets`: the user id beside the caller's fields. */
  datatype AssetRow = AssetRow(userId: string, asset: AssetInsert)

  datatype Request =
    | InsertAsset(row: AssetRow)
    | SelectUserAssets(userId: string, newestFirst: bool)
    | SelectAsset(assetId: string)
    | RemoveAsset(assetId: string)
    | UploadObject(bucket: string, path: string)

  /** `file.name.split('.').pop()`: the text after the last dot, or the whole name without one. */
  function FileExtension(name: string): (ext: string)
    ensures '.' !in ext
    ensures |ext| <= |name| && name[|name| - |ext|..] == ext
  {
    if name == [] then []
    else if name[|name| - 1] == '.' then []
    else
      var init := name[..|name| - 1];
      assert name == init + [name[|name| - 1]];
      FileExtension(init) + [name[|name| - 1]]
  }

  /** When the extension is shorter than the name, a dot comes right before it. */
  lemma {:induction false} ExtensionFollowsDot(name: string)
    ensures var ext := FileExtension(name);
      |ext| < |name| ==> name[|name| - |ext| - 1] == '.'
  {
    if name != [] && name[|name| - 1] != '.' {
      var init := name[..|name| - 1];
      ExtensionFollowsDot(init);
      var e := FileExtension(init);
      assert FileExtension(name) == e + [name[|name| - 1]];
      if |e| < |init| {
        assert name[|name| - |e| - 2] == init[|init| - |e| - 1];
      }
    }
  }

  /** A name without a dot is its own extension. */
  lemma {:induction false} DotlessExtension(name: string)
    requires '.' !in name
    ensures FileExtension(name) == name
  {
    if name != [] {
      var init := name[..|name| - 1];
      assert '.' !in init by {
        forall i | 0 <= i < |init| ensures init[i] != '.' {
          assert init[i] == name[i];
        }
      }
      DotlessExtension(init);
      assert name == init + [name[|name| - 1]];
    }
  }

  /** `${user.id}/${Date.now()}.${fileExt}`: the stored object keeps the file's extension. */
  function ObjectPath(userId: string, now: int, fileName: string): (p: string)
    ensures FileExtension(p) == FileExtension(fileName)
  {
    ExtensionAfterDot(userId + "/" + Decimal.IntText(now), FileExtension(fileName));
    userId + "/" + Decimal.IntText(now) + "." + FileExtension(fileName)
  }

  /** Whatever comes before it, a dot followed by dot-free text ends in that text's extension. */
  lemma {:induction false} ExtensionAfterDot(prefix: string, ext: string)
    requires '.' !in ext
    ensures FileExtension(prefix + "." + ext) == ext
  {
    var s := prefix + "." + ext;
    if ext != [] {
      var init := ext[..|ext| - 1];
      assert s[..|s| - 1] == prefix + "." + init;
      ExtensionAfterDot(prefix, init);
    }
  }

  /** A user's folder, a stamp, a dot and an extension can be sliced back out of the path they make. */
  lemma PathShape(userId: string, stamp: string, ext: string)
    ensures var p := userId + "/" + stamp + "." + ext;
      |p| == |userId| + 1 + |stamp| + 1 + |ext| &&
      p[..|userId| + 1] == userId + "/" && p[|userId| + 1..|p| - |ext| - 1] == stamp
  {
    var folder := userId + "/";
    var p := folder + stamp + "." + ext;
    assert forall i :: 0 <= i < |folder| ==> p[i] == folder[i];
    assert forall i :: 0 <= i < |stamp| ==> p[|folder| + i] == stamp[i];
  }

  lemma PathFolder(userId: string, now: int, fileName: string)
    ensures var p := ObjectPath(userId, now, fileName);
      |p| > |userId| && p[..|userId| + 1] == userId + "/"
  {
    PathShape(userId, Decimal.IntText(now), FileExtension(fileName));
  }

  lemma PathStamp(userId: string, now: int, fileName: string)
    ensures var p := ObjectPath(userId, now, fileName);
      |p| == |userId| + 1 + |Decimal.IntText(now)| + 1 + |FileExtension(fileName)| &&
      p[|userId| + 1..|p| - |FileExtension(fileName)| - 1] == Decimal.IntText(now)
  {
    PathShape(userId, Decimal.IntText(now), FileExtension(fileName));
  }

  /** The stored object sits in the user's folder, is named by the upload time, and keeps the
      file's extension. */
  lemma ObjectPathParts(userId: string, now: int, fileName: string)
    ensures var p := ObjectPath(userId, now, fileName);
      |p| > |userId| + |FileExtension(fileName)| + 1 &&
      p[..|userId| + 1] == userId + "/" &&
      FileExtension(p) == FileExtension(fileName) &&
      Decimal.ParseInt(p[|userId| + 1..|p| - |FileExtension(fileName)| - 1]) == Some(now)
  {
    PathFolder(userId, now, fileName);
    PathStamp(userId, now, fileName);
    Decimal.IntTextRoundTrip(now);
  }

  /** `createMediaAsset`: refused before any table access when nobody is signed in. */
  function CreateMediaAsset(user: Option<string>, asset: AssetInsert, reply: Result<MediaAsset>)
    : (o: Outcome<Request, MediaAsset>)
    ensures user.None? ==> o.requests == [] && o.result == Err(NotAuthenticated)
    ensures user.Some? ==> o.requests == [InsertAsset(AssetRow(user.value, asset))] && o.result == reply
  {
    match user
    case None => Outcome([], Err(NotAuthenticated))
    case Some(id) => Outcome([InsertAsset(AssetRow(id, asset))], reply)
  }

  /** `getUserAssets`: the user's assets, newest first; refused before any table access when nobody
      is signed in. */
  function GetUserAssets(user: Option<string>, reply: Result<seq<MediaAsset>>): (o: Outcome<Request, seq<MediaAsset>>)
    ensures user.None? ==> o.requests == [] && o.result == Err(NotAuthenticated)
    ensures user.Some? ==> o.requests == [SelectUserAssets(user.value, true)] && o.result == reply
  {
    match user
    case None => Outcome([], Err(NotAuthenticated))
    case Some(id) => Outcome([SelectUserAssets(id, true)], reply)
  }

  function GetAssetById(assetId: string, reply: Result<Option<MediaAsset>>): (o: Outcome<Request, MediaAsset>)
    ensures o.requests == [SelectAsset(assetId)]
    ensures reply == Ok(None) ==> o.result == Err(AssetNotFound)
    ensures reply.Err? ==> o.result == Err(reply.message)
    ensures o.result.Ok? <==> reply.Ok? && reply.value.Some?
    ensures o.result.Ok? ==> o.result.value == reply.value.value
  {
    Outcome([SelectAsset(assetId)], FoundOr(reply, AssetNotFound))
  }

  function DeleteAsset(assetId: string, reply: Result<()>): (o: Outcome<Request, ()>)
    ensures o.requests == [RemoveAsset(assetId)] && o.result == reply
  {
    Outcome([RemoveAsset(assetId)], reply)
  }

  /**
   * `uploadFile`: stores the file under its object path and returns the public URL of that path
   * (`publicUrl`, computed locally by the storage client). Refused before any storage access
   * when nobody is signed in.
   */
  function UploadFile(user: Option<string>, now: int, fileName: string, bucket: string := DefaultBucket,
                      reply: Result<()>, publicUrl: string -> string): (o: Outcome<Request, string>)
    ensures user.None? ==> o.requests == [] && o.result == Err(NotAuthenticated)
    ensures user.Some? ==> o.requests == [UploadObject(bucket, ObjectPath(user.value, now, fileName))]
    ensures user.Some? && reply.Ok? ==> o.result == Ok(publicUrl(ObjectPath(user.value, now, fileName)))
    ensures user.Some? && reply.Err? ==> o.result == Err(reply.message)
  {
    match user
    case None => Outcome([], Err(NotAuthenticated))
    case Some(id) =>
      var path := ObjectPath(id, now, fileName);
      Outcome([UploadObject(bucket, path)], if reply.Ok? then Ok(publicUrl(path)) else Err(reply.message))
  }

  /** Without a bucket argument the file goes to the `media` bucket. */
  lemma UploadDefaultBucket(user: string, now: int, fileName: string, reply: Result<()>, publicUrl: string -> string)
    ensures UploadFile(Some(user), now, fileName, reply := reply, publicUrl := publicUrl).requests
      == [UploadObject("media", ObjectPath(user, now, fileName))]
  {
  }
}
