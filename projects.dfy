/**
 * The project service: creating, reading, updating and duplicating projects, and the clip rows
 * of a project. The signed-in user and every storage reply are parameters; a function returns the
 * requests it issues, in order, beside its result.
 */
module Projects {
  import opened Wrappers
  import opened Records
  import opened Storage
  import Compositor

  const ProjectNotFound: string := "Project not found"
  const CopySuffix: string := " (Copy)"

  /** The row inserted into `projects`. */
  datatype ProjectInsert = ProjectInsert(userId: string, name: string, duration: real, resolution: string, fps: int)

  /** A `Partial<Project>`: the fields an update may set. */
  datatype ProjectPatch = ProjectPatch(name: Option<string>, duration: Option<real>, thumbnailUrl: Option<string>)

  datatype Request =
    | InsertProject(row: ProjectInsert)
    | SelectUserProjects(userId: string, recentlyUpdatedFirst: bool)
    | SelectProject(projectId: string)
    | UpdateProjectRow(projectId: string, patch: ProjectPatch)
    | RemoveProject(projectId: string)
    /** The clips of a project, by ascending track and then ascending start time. */
    | SelectClips(projectId: string)
    | InsertClips(rows: seq<ClipInsert>)
    | InsertClip(clipRow: ClipInsert)
    | UpdateClipRow(clipId: string, clipPatch: ClipPatch)
    | RemoveClip(clipId: string)

  /** A new project: no content yet, full HD at 30 frames per second. */
  function NewProjectRow(userId: string, name: string): (r: ProjectInsert)
    ensures r.userId == userId && r.name == name
    ensures r.duration == 0.0 && r.resolution == "1920x1080" && r.fps == 30
  {
    ProjectInsert(userId, name, 0.0, "1920x1080", 30)
  }

  function CreateProject(user: Option<string>, name: string, reply: Result<Project>): (o: Outcome<Request, Project>)
    ensures user.None? ==> o.requests == [] && o.result == Err(NotAuthenticated)
    ensures user.Some? ==> o.requests == [InsertProject(NewProjectRow(user.value, name))] && o.result == reply
  {
    match user
    case None => Outcome([], Err(NotAuthenticated))
    case Some(id) => Outcome([InsertProject(NewProjectRow(id, name))], reply)
  }

  /** `getUserProjects`: the user's projects, most recently updated first. */
  function GetUserProjects(user: Option<string>, reply: Result<seq<Project>>): (o: Outcome<Request, seq<Project>>)
    ensures user.None? ==> o.requests == [] && o.result == Err(NotAuthenticated)
    ensures user.Some? ==> o.requests == [SelectUserProjects(user.value, true)] && o.result == reply
  {
    match user
    case None => Outcome([], Err(NotAuthenticated))
    case Some(id) => Outcome([SelectUserProjects(id, true)], reply)
  }

  function GetProjectById(projectId: string, reply: Result<Option<Project>>): (o: Outcome<Request, Project>)
    ensures o.requests == [SelectProject(projectId)]
    ensures reply == Ok(None) ==> o.result == Err(ProjectNotFound)
    ensures reply.Err? ==> o.result == Err(reply.message)
    ensures o.result.Ok? <==> reply.Ok? && reply.value.Some?
    ensures o.result.Ok? ==> o.result.value == reply.value.value
  {
    Outcome([SelectProject(projectId)], FoundOr(reply, ProjectNotFound))
  }

  function UpdateProject(projectId: string, patch: ProjectPatch, reply: Result<Project>): (o: Outcome<Request, Project>)
    ensures o.requests == [UpdateProjectRow(projectId, patch)] && o.result == reply
  {
    Outcome([UpdateProjectRow(projectId, patch)], reply)
  }

  function DeleteProject(projectId: string, reply: Result<()>): (o: Outcome<Request, ()>)
    ensures o.requests == [RemoveProject(projectId)] && o.result == reply
  {
    Outcome([RemoveProject(projectId)], reply)
  }

  // ---------------------------------------------------------------- clips

  /** The order the clip listing comes back in: by track, and by start time within a track. */
  predicate OrderedByTrackThenStart(clips: seq<Clip>)
  {
    forall i, j :: 0 <= i < j < |clips| ==>
      clips[i].trackIndex < clips[j].trackIndex ||
      (clips[i].trackIndex == clips[j].trackIndex && clips[i].startTime <= clips[j].startTime)
  }

  /** `getProjectClips`: the rows are returned as the store orders them. */
  function GetProjectClips(projectId: string, reply: Result<seq<Clip>>): (o: Outcome<Request, seq<Clip>>)
    ensures o.requests == [SelectClips(projectId)] && o.result == reply
  {
    Outcome([SelectClips(projectId)], reply)
  }

  /**
   * A listing in that order is already in the compositor's draw order: at any time the active
   * clips are drawn in list order, so within a track the earlier-starting clip is drawn first.
   */
  lemma ListingIsDrawOrder(clips: seq<Clip>, t: real)
    requires OrderedByTrackThenStart(clips)
    ensures Compositor.DrawOrder(clips, t) == Compositor.ActiveClips(clips, t)
  {
    assert Compositor.SortedByTrack(clips);
    Compositor.SortedListDrawsInListOrder(clips, t);
  }

  /** The row a stored clip comes back as: the store's id beside the inserted fields. */
  function StoredClip(id: string, row: ClipInsert): (c: Clip)
    ensures c.id == id && c.projectId == row.projectId && FieldsOf(c) == row.fields
  {
    var f := row.fields;
    Clip(id, row.projectId, f.trackIndex, f.startTime, f.duration, f.kind, f.sourceUrl, f.trimStart, f.trimEnd, f.properties)
  }

  /** A clip is its id, its project and its caller-visible fields, nothing more. */
  lemma ClipFieldsRoundTrip(c: Clip)
    ensures StoredClip(c.id, ClipInsert(c.projectId, FieldsOf(c))) == c
  {
  }

  /** `addClipToProject`: the project id beside the caller's fields, unchanged. */
  function AddClipToProject(projectId: string, fields: ClipFields, reply: Result<Clip>): (o: Outcome<Request, Clip>)
    ensures o.requests == [InsertClip(ClipInsert(projectId, fields))] && o.result == reply
  {
    Outcome([InsertClip(ClipInsert(projectId, fields))], reply)
  }

  function UpdateClip(clipId: string, patch: ClipPatch, reply: Result<Clip>): (o: Outcome<Request, Clip>)
    ensures o.requests == [UpdateClipRow(clipId, patch)] && o.result == reply
  {
    Outcome([UpdateClipRow(clipId, patch)], reply)
  }

  function DeleteClip(clipId: string, reply: Result<()>): (o: Outcome<Request, ()>)
    ensures o.requests == [RemoveClip(clipId)] && o.result == reply
  {
    Outcome([RemoveClip(clipId)], reply)
  }

  // ---------------------------------------------------------------- duplication

  /** The copy's row: the original's name with " (Copy)" appended, and its length, size and rate. */
  function CopyRow(userId: string, original: Project): (r: ProjectInsert)
    ensures r.userId == userId
    ensures |r.name| == |original.name| + 7 && r.name[..|original.name|] == original.name
    ensures r.name[|original.name|..] == " (Copy)"
    ensures r.duration == original.duration && r.resolution == original.resolution && r.fps == original.fps
  {
    ProjectInsert(userId, original.name + CopySuffix, original.duration, original.resolution, original.fps)
  }

  /** The clip rows of the copy, one per original clip, in the original order. */
  function CopyClips(newProjectId: string, clips: seq<Clip>): (rows: seq<ClipInsert>)
    ensures |rows| == |clips|
    ensures forall i :: 0 <= i < |clips| ==> rows[i].projectId == newProjectId
  {
    if clips == [] then []
    else [ClipInsert(newProjectId, FieldsOf(clips[0]))] + CopyClips(newProjectId, clips[1..])
  }

  /**
   * Stored under the original ids, the copied rows give back the original clips moved to the
   * new project: track, start, length, type, source, trims and properties are all kept.
   */
  lemma {:induction false} CopyClipsKeepFields(newProjectId: string, clips: seq<Clip>, i: int)
    requires 0 <= i < |clips|
    ensures StoredClip(clips[i].id, CopyClips(newProjectId, clips)[i]) == clips[i].(projectId := newProjectId)
  {
    if i > 0 {
      CopyClipsKeepFields(newProjectId, clips[1..], i - 1);
    }
  }

  /**
   * `duplicateProject`: after the auth check, reads the original and its clips, inserts the copy,
   * and then inserts the copied clips in one request when there are any. The replies are those
   * of the four storage calls in that order; the first failure ends the operation.
   */
  function DuplicateProject(user: Option<string>, projectId: string, original: Result<Option<Project>>,
                            clips: Result<seq<Clip>>, inserted: Result<Project>, clipsInserted: Result<()>)
    : (o: Outcome<Request, Project>)
    ensures user.None? ==> o.requests == [] && o.result == Err(NotAuthenticated)
    ensures user.Some? ==> |o.requests| >= 1 && o.requests[0] == SelectProject(projectId)
    ensures user.Some? && original == Ok(None) ==> o.requests == [SelectProject(projectId)] && o.result == Err(ProjectNotFound)
    ensures o.result.Ok? <==>
      user.Some? && original.Ok? && original.value.Some? && clips.Ok? && inserted.Ok? &&
      (clips.value == [] || clipsInserted.Ok?)
    ensures o.result.Ok? ==> o.result == inserted
    ensures o.result.Ok? ==> |o.requests| >= 3
    ensures o.result.Ok? ==> o.requests[..3] == [SelectProject(projectId), SelectClips(projectId), InsertProject(CopyRow(user.value, original.value.value))]
    ensures o.result.Ok? && clips.value == [] ==> |o.requests| == 3
    ensures o.result.Ok? && clips.value != [] ==>
      o.requests == o.requests[..3] + [InsertClips(CopyClips(inserted.value.id, clips.value))]
    ensures forall r :: r in o.requests && r.InsertClips? ==> r.rows != []
  {
    match user
    case None => Outcome([], Err(NotAuthenticated))
    case Some(userId) =>
      var read := GetProjectById(projectId, original);
      match read.result
      case Err(e) => Outcome(read.requests, Err(e))
      case Ok(project) =>
        var listing := GetProjectClips(projectId, clips);
        var rq := read.requests + listing.requests;
        match clips
        case Err(e) => Outcome(rq, Err(e))
        case Ok(rows) =>
          var rq := rq + [InsertProject(CopyRow(userId, project))];
          match inserted
          case Err(e) => Outcome(rq, Err(e))
          case Ok(copy) =>
            if |rows| > 0 then
              var rq := rq + [InsertClips(CopyClips(copy.id, rows))];
              if clipsInserted.Err? then Outcome(rq, Err(clipsInserted.message))
              else Outcome(rq, Ok(copy))
            else Outcome(rq, Ok(copy))
  }

  /** The copy's name keeps the original as a prefix, so copying twice appends the suffix twice. */
  lemma CopyOfCopyName(userId: string, original: Project, copy: Project)
    requires copy.name == CopyRow(userId, original).name
    ensures CopyRow(userId, copy).name == original.name + " (Copy) (Copy)"
  {
  }
}
