/**
 * The rows the editor works with (projects, timeline clips, media assets, AI generation jobs)
 * and the free-form JSON bags some of their columns hold.
 */
module Records {
  import opened Wrappers

  /** A JSON value inside a `Record<string, any>` column. */
  datatype Value = Null | Num(n: real) | Text(s: string) | Obj(fields: map<string, Value>)

  /** A JSON object; a key that is absent reads as `undefined`. */
  type Bag = map<string, Value>

  datatype ClipKind = Video | Image | Audio

  /** The string stored in `clip_type` / `asset_type`. */
  function KindName(k: ClipKind): string
  {
    match k
    case Video => "video"
    case Image => "image"
    case Audio => "audio"
  }

  /** A row of `timeline_clips`; times are milliseconds. */
  datatype Clip = Clip(
    id: string,
    projectId: string,
    trackIndex: int,
    startTime: real,
    duration: real,
    kind: ClipKind,
    sourceUrl: string,
    trimStart: real,
    trimEnd: Option<real>,
    properties: Bag)

  /** The caller-supplied part of a clip: everything but `id`, `project_id` and `created_at`. */
  datatype ClipFields = ClipFields(
    trackIndex: int,
    startTime: real,
    duration: real,
    kind: ClipKind,
    sourceUrl: string,
    trimStart: real,
    trimEnd: Option<real>,
    properties: Bag)

  function FieldsOf(c: Clip): ClipFields
  {
    ClipFields(c.trackIndex, c.startTime, c.duration, c.kind, c.sourceUrl, c.trimStart, c.trimEnd, c.properties)
  }

  /** The record inserted into `timeline_clips`. */
  datatype ClipInsert = ClipInsert(projectId: string, fields: ClipFields)

  /** A `Partial<TimelineClip>` as the editor sends it: only the fields it ever edits. */
  datatype ClipPatch = ClipPatch(trackIndex: Option<int>, startTime: Option<real>, properties: Option<Bag>)

  datatype AssetSource = Upload | AiGenerated | Rendered

  /** The argument of `createMediaAsset`. */
  datatype AssetInsert = AssetInsert(
    kind: ClipKind,
    source: AssetSource,
    url: string,
    thumbnailUrl: Option<string>,
    filename: string,
    duration: Option<real>,
    metadata: Bag,
    aiJobId: Option<string>)

  /** A row of `media_assets`. */
  datatype MediaAsset = MediaAsset(
    id: string,
    userId: string,
    kind: ClipKind,
    source: AssetSource,
    url: string,
    thumbnailUrl: Option<string>,
    filename: string,
    duration: Option<real>,
    metadata: Bag,
    aiJobId: Option<string>)

  /** A row of `ai_generation_jobs`; `status` is the provider-reported string. */
  datatype AIJob = AIJob(
    id: string,
    userId: string,
    projectId: Option<string>,
    provider: string,
    jobType: string,
    prompt: string,
    sourceImageUrl: Option<string>,
    parameters: Bag,
    status: string,
    resultUrl: Option<string>,
    errorMessage: Option<string>)

  /** A row of `projects`. */
  datatype Project = Project(
    id: string,
    userId: string,
    name: string,
    duration: real,
    resolution: string,
    fps: int,
    thumbnailUrl: Option<string>)
}

/** The JavaScript number and truthiness rules the components rely on. */
module Js {
  import opened Wrappers
  import opened Records

  /** `Math.round`: halves go up. */
  function Round(x: real): (n: int)
    ensures n as real <= x + 0.5 < n as real + 1.0
  {
    (x + 0.5).Floor
  }

  /** Whether a property read (`None` when the key is absent) is truthy; NaN is not modelled. */
  predicate Truthy(v: Option<Value>)
  {
    match v
    case None => false
    case Some(Null) => false
    case Some(Num(n)) => n != 0.0
    case Some(Text(s)) => s != ""
    case Some(Obj(_)) => true
  }

  /** Reads `bag[key]`, `None` when the key is absent. */
  function Get(bag: Bag, key: string): (v: Option<Value>)
    ensures v.Some? <==> key in bag
    ensures v.Some? ==> v.value == bag[key]
  {
    if key in bag then Some(bag[key]) else None
  }

  /** `bag[key] || fallback`. */
  function OrElse(bag: Bag, key: string, fallback: Value): (v: Value)
    ensures Truthy(Get(bag, key)) ==> v == bag[key]
    ensures !Truthy(Get(bag, key)) ==> v == fallback
  {
    if Truthy(Get(bag, key)) then bag[key] else fallback
  }

  /** `bag[key] ?? fallback`. */
  function OrIfNullish(bag: Bag, key: string, fallback: Value): (v: Value)
    ensures key in bag && bag[key] != Null ==> v == bag[key]
    ensures key !in bag || bag[key] == Null ==> v == fallback
  {
    if key in bag && bag[key] != Null then bag[key] else fallback
  }
}
