/**
 * The editor page's session state (the project, its clips and the watched AI jobs) and the
 * handlers that change it. Every service reply is a parameter; a handler changes the state only
 * as far as its replies succeeded, and returns the storage requests it issued.
 */
module Editor {
  import opened Wrappers
  import opened Records
  import Seqs
  import Js
  import Compositor
  import Projects
  import AiGeneration
  import JobCycle

  /** The number of jobs loading asks for. */
  const JobListLimit: int := 10
  /** The timeline length shown for a project whose duration is 0. */
  const EmptyTimelineMs: real := 30000.0
  /** The length given to a clip whose asset has no duration. */
  const DefaultClipMs: real := 5000.0

  // ---------------------------------------------------------------- clip list

  /** `clips.map(c => c.id === clipId ? updated : c)`. */
  function ReplaceById(clips: seq<Clip>, clipId: string, updated: Clip): (r: seq<Clip>)
    ensures |r| == |clips|
    ensures forall i :: 0 <= i < |clips| ==> r[i] == if clips[i].id == clipId then updated else clips[i]
  {
    if clips == [] then []
    else [if clips[0].id == clipId then updated else clips[0]] + ReplaceById(clips[1..], clipId, updated)
  }

  /** Replacing by the id the stored row still carries keeps the list's ids, in order. */
  lemma {:induction false} ReplaceKeepsIds(clips: seq<Clip>, updated: Clip)
    ensures Ids(ReplaceById(clips, updated.id, updated)) == Ids(clips)
  {
    if clips != [] {
      ReplaceKeepsIds(clips[1..], updated);
    }
  }

  /** Replacing twice with the same row is replacing once. */
  lemma ReplaceIdempotent(clips: seq<Clip>, clipId: string, updated: Clip)
    ensures ReplaceById(ReplaceById(clips, clipId, updated), clipId, updated) == ReplaceById(clips, clipId, updated)
  {
    var once := ReplaceById(clips, clipId, updated);
    var twice := ReplaceById(once, clipId, updated);
    forall i | 0 <= i < |clips| ensures twice[i] == once[i] {
      if clips[i].id != clipId {
        assert once[i] == clips[i];
      }
    }
  }

  function Ids(clips: seq<Clip>): (r: seq<string>)
    ensures |r| == |clips|
  {
    if clips == [] then [] else [clips[0].id] + Ids(clips[1..])
  }

  /** `clips.filter(c => c.id !== clipId)`. */
  function WithoutClip(clips: seq<Clip>, clipId: string): (r: seq<Clip>)
    ensures forall c :: c in r <==> c in clips && c.id != clipId
    ensures Seqs.IsSubsequence(r, clips)
  {
    Seqs.FilterIsSubsequence(clips, (c: Clip) => c.id != clipId);
    Seqs.Filter(clips, (c: Clip) => c.id != clipId)
  }

  /** Deleting a clip removes every copy of it and keeps the others with their multiplicity. */
  lemma DeleteCounts(clips: seq<Clip>, clipId: string, c: Clip)
    ensures multiset(WithoutClip(clips, clipId))[c] == if c.id == clipId then 0 else multiset(clips)[c]
  {
    Seqs.FilterCount(clips, (x: Clip) => x.id != clipId, c);
  }

  // ---------------------------------------------------------------- adding an asset

  /** `project?.duration || 0`. */
  function StartOf(project: Option<Project>): (t: real)
    ensures project.Some? ==> t == project.value.duration
    ensures project.None? ==> t == 0.0
  {
    if project.Some? && project.value.duration != 0.0 then project.value.duration else 0.0
  }

  /** `asset.duration || 5000`. */
  function ClipLength(asset: MediaAsset): (d: real)
    ensures asset.duration.Some? && asset.duration.value != 0.0 ==> d == asset.duration.value
    ensures asset.duration.None? || asset.duration == Some(0.0) ==> d == DefaultClipMs
  {
    if asset.duration.Some? && asset.duration.value != 0.0 then asset.duration.value else DefaultClipMs
  }

  /** The fields of the clip an asset becomes: on track 0 at the project's end, untrimmed. */
  function AssetClipFields(project: Option<Project>, asset: MediaAsset): (f: ClipFields)
    ensures f.trackIndex == 0 && f.startTime == StartOf(project) && f.duration == ClipLength(asset)
    ensures f.kind == asset.kind && f.sourceUrl == asset.url
    ensures f.trimStart == 0.0 && f.trimEnd == None && f.properties == map[]
  {
    ClipFields(0, StartOf(project), ClipLength(asset), asset.kind, asset.url, 0.0, None, map[])
  }

  /** `Math.max(project?.duration || 0, newClip.start_time + newClip.duration)`. */
  function GrownDuration(project: Option<Project>, added: Clip): (d: real)
    ensures d >= StartOf(project) && d >= added.startTime + added.duration
    ensures d == StartOf(project) || d == added.startTime + added.duration
  {
    if StartOf(project) >= added.startTime + added.duration then StartOf(project) else added.startTime + added.duration
  }

  /**
   * When the store echoes the inserted fields, the project grows by exactly the new clip's
   * length: the clip starts where the project ended.
   */
  lemma AppendGrowsByClip(project: Option<Project>, asset: MediaAsset, id: string, projectId: string)
    requires ClipLength(asset) >= 0.0
    ensures var added := Projects.StoredClip(id, ClipInsert(projectId, AssetClipFields(project, asset)));
      GrownDuration(project, added) == StartOf(project) + ClipLength(asset)
  {
  }

  /** A 12 s project and a 5 s asset make a 17 s project. */
  lemma AppendExample(p: Project, asset: MediaAsset)
    requires p.duration == 12000.0 && asset.duration == Some(5000.0)
    ensures GrownDuration(Some(p), Projects.StoredClip("c", ClipInsert(p.id, AssetClipFields(Some(p), asset)))) == 17000.0
  {
  }

  // ---------------------------------------------------------------- property panel

  /** `{ ...properties, [key]: value }`: a shallow copy with one key replaced. */
  function WithProperty(properties: Bag, key: string, value: real): (r: Bag)
    ensures r.Keys == properties.Keys + {key}
    ensures r[key] == Num(value)
    ensures forall k :: k in properties && k != key ==> r[k] == properties[k]
  {
    properties[key := Num(value)]
  }

  /** The update the opacity slider sends. */
  function OpacityEdit(properties: Bag, value: real): (p: ClipPatch)
    ensures p.trackIndex == None && p.startTime == None && p.properties == Some(WithProperty(properties, "opacity", value))
  {
    ClipPatch(None, None, Some(WithProperty(properties, "opacity", value)))
  }

  /** The update the speed slider sends. */
  function SpeedEdit(properties: Bag, value: real): (p: ClipPatch)
    ensures p.trackIndex == None && p.startTime == None && p.properties == Some(WithProperty(properties, "speed", value))
  {
    ClipPatch(None, None, Some(WithProperty(properties, "speed", value)))
  }

  /** The update the track field sends; the text has already been read as a whole number. */
  function TrackEdit(track: int): (p: ClipPatch)
    ensures p == ClipPatch(Some(track), None, None)
  {
    ClipPatch(Some(track), None, None)
  }

  /** Setting the speed keeps a set opacity, and setting the opacity keeps a set speed. */
  lemma EditsKeepTheOtherKey(properties: Bag, opacity: real, speed: real)
    ensures var afterSpeed := SpeedEdit(properties, speed).properties.value;
      "opacity" in properties ==> afterSpeed["opacity"] == properties["opacity"]
    ensures var afterOpacity := OpacityEdit(properties, opacity).properties.value;
      "speed" in properties ==> afterOpacity["speed"] == properties["speed"]
    ensures WithProperty(WithProperty(properties, "opacity", opacity), "speed", speed) ==
            WithProperty(WithProperty(properties, "speed", speed), "opacity", opacity)
  {
  }

  /** `{opacity: 0.5}` edited to speed 2 becomes `{opacity: 0.5, speed: 2}`. */
  lemma SpeedEditExample()
    ensures SpeedEdit(map["opacity" := Num(0.5)], 2.0).properties == Some(map["opacity" := Num(0.5), "speed" := Num(2.0)])
  {
  }

  /** What a slider shows: `properties[key] || 1`. */
  function SliderValue(properties: Bag, key: string): (v: Value)
    ensures Js.Truthy(Js.Get(properties, key)) ==> v == properties[key]
    ensures !Js.Truthy(Js.Get(properties, key)) ==> v == Num(1.0)
  {
    Js.OrElse(properties, key, Num(1.0))
  }

  /**
   * An opacity edited to 0 is stored and drawn as 0 (fully transparent), while the slider reads
   * the same 0 as 1. For any other edited value the slider and the compositor agree.
   */
  lemma OpacitySliderVersusDraw(properties: Bag, value: real)
    ensures var p := OpacityEdit(properties, value).properties.value;
      Compositor.DrawOpacity(p) == Num(value) &&
      SliderValue(p, "opacity") == (if value == 0.0 then Num(1.0) else Num(value))
  {
  }

  /** `project.duration || 30000`: the length handed to the timeline. */
  function TimelineLength(project: Project): (d: real)
    ensures project.duration != 0.0 ==> d == project.duration
    ensures project.duration == 0.0 ==> d == EmptyTimelineMs
    ensures project.duration >= 0.0 ==> d > 0.0
  {
    if project.duration != 0.0 then project.duration else EmptyTimelineMs
  }

  // ---------------------------------------------------------------- the session

  class EditorSession {
    const projectId: string
    var project: Option<Project>
    var clips: seq<Clip>
    var aiJobs: seq<AIJob>
    var loading: bool

    constructor(projectId: string)
      ensures this.projectId == projectId
      ensures project == None && clips == [] && aiJobs == [] && loading
    {
      this.projectId := projectId;
      project := None;
      clips := [];
      aiJobs := [];
      loading := true;
    }

    /**
     * `loadProject`: reads the project, then its clips; both are set only when both reads
     * succeeded, and loading ends either way.
     */
    method LoadProject(projectReply: Result<Option<Project>>, clipsReply: Result<seq<Clip>>)
      returns (requests: seq<Projects.Request>)
      modifies this
      ensures !loading && aiJobs == old(aiJobs)
      ensures var read := Projects.GetProjectById(projectId, projectReply);
        read.result.Err? ==> requests == read.requests && project == old(project) && clips == old(clips)
      ensures var read := Projects.GetProjectById(projectId, projectReply);
        read.result.Ok? ==> requests == read.requests + [Projects.SelectClips(projectId)]
      ensures var read := Projects.GetProjectById(projectId, projectReply);
        read.result.Ok? && clipsReply.Ok? ==> project == Some(read.result.value) && clips == clipsReply.value
      ensures clipsReply.Err? ==> project == old(project) && clips == old(clips)
    {
      var read := Projects.GetProjectById(projectId, projectReply);
      requests := read.requests;
      if read.result.Ok? {
        var listing := Projects.GetProjectClips(projectId, clipsReply);
        requests := requests + listing.requests;
        if listing.result.Ok? {
          project := Some(read.result.value);
          clips := listing.result.value;
        }
      }
      loading := false;
    }

    /** `loadAIJobs`: the user's ten newest jobs, of which only the pending or processing stay. */
    method LoadAIJobs(user: Option<string>, reply: Result<seq<AIJob>>) returns (requests: seq<AiGeneration.Request>)
      modifies this
      ensures requests == AiGeneration.GetUserJobs(user, JobListLimit, reply).requests
      ensures user.Some? && reply.Ok? ==> aiJobs == JobCycle.PendingJobs(reply.value)
      ensures user.None? || reply.Err? ==> aiJobs == old(aiJobs)
      ensures project == old(project) && clips == old(clips) && loading == old(loading)
    {
      var o := AiGeneration.GetUserJobs(user, JobListLimit, reply);
      requests := o.requests;
      if o.result.Ok? {
        aiJobs := JobCycle.PendingJobs(o.result.value);
      }
    }

    /** `handleAIGenerate`: the request carries this project's id; a created job is watched. */
    method HandleAIGenerate(user: Option<string>, params: AiGeneration.GenerateParams, reply: Result<AIJob>)
      returns (requests: seq<AiGeneration.Request>, result: Result<AIJob>)
      modifies this
      ensures requests == AiGeneration.CreateGenerationJob(user, params.(projectId := Some(projectId)), reply).requests
      ensures result == AiGeneration.CreateGenerationJob(user, params.(projectId := Some(projectId)), reply).result
      ensures result.Ok? ==> aiJobs == old(aiJobs) + [result.value]
      ensures result.Err? ==> aiJobs == old(aiJobs)
      ensures project == old(project) && clips == old(clips) && loading == old(loading)
    {
      var o := AiGeneration.CreateGenerationJob(user, params.(projectId := Some(projectId)), reply);
      requests, result := o.requests, o.result;
      if result.Ok? {
        aiJobs := aiJobs + [result.value];
      }
    }

    /** `handleClipUpdate`: the stored row replaces the clip with that id. */
    method HandleClipUpdate(clipId: string, patch: ClipPatch, reply: Result<Clip>) returns (requests: seq<Projects.Request>)
      modifies this
      ensures requests == [Projects.UpdateClipRow(clipId, patch)]
      ensures reply.Ok? ==> clips == ReplaceById(old(clips), clipId, reply.value)
      ensures reply.Err? ==> clips == old(clips)
      ensures project == old(project) && aiJobs == old(aiJobs) && loading == old(loading)
    {
      var o := Projects.UpdateClip(clipId, patch, reply);
      requests := o.requests;
      if o.result.Ok? {
        clips := ReplaceById(clips, clipId, o.result.value);
      }
    }

    /** `handleClipDelete`: the clips with that id leave the list. */
    method HandleClipDelete(clipId: string, reply: Result<()>) returns (requests: seq<Projects.Request>)
      modifies this
      ensures requests == [Projects.RemoveClip(clipId)]
      ensures reply.Ok? ==> clips == WithoutClip(old(clips), clipId)
      ensures reply.Err? ==> clips == old(clips)
      ensures project == old(project) && aiJobs == old(aiJobs) && loading == old(loading)
    {
      var o := Projects.DeleteClip(clipId, reply);
      requests := o.requests;
      if o.result.Ok? {
        clips := WithoutClip(clips, clipId);
      }
    }

    /**
     * `handleAssetSelect`: inserts the asset's clip, appends the stored row, then stores the grown
     * duration and applies it to the loaded project. The clip stays appended when the duration
     * update fails.
     */
    method HandleAssetSelect(asset: MediaAsset, inserted: Result<Clip>, updated: Result<Project>)
      returns (requests: seq<Projects.Request>)
      modifies this
      ensures |requests| >= 1 && requests[0] == Projects.InsertClip(ClipInsert(projectId, AssetClipFields(old(project), asset)))
      ensures inserted.Err? ==> requests == requests[..1] && clips == old(clips) && project == old(project)
      ensures inserted.Ok? ==> clips == old(clips) + [inserted.value]
      ensures inserted.Ok? ==> (requests == requests[..1] +
        [Projects.UpdateProjectRow(projectId, Projects.ProjectPatch(None, Some(GrownDuration(old(project), inserted.value)), None))])
      ensures inserted.Ok? && updated.Ok? && old(project).Some? ==>
        project == Some(old(project).value.(duration := GrownDuration(old(project), inserted.value)))
      ensures inserted.Ok? && (updated.Err? || old(project).None?) ==> project == old(project)
      ensures aiJobs == old(aiJobs) && loading == old(loading)
    {
      var fields := AssetClipFields(project, asset);
      var add := Projects.AddClipToProject(projectId, fields, inserted);
      requests := add.requests;
      if add.result.Err? {
        return;
      }
      var added := add.result.value;
      clips := clips + [added];
      var grown := GrownDuration(project, added);
      var store := Projects.UpdateProject(projectId, Projects.ProjectPatch(None, Some(grown), None), updated);
      requests := requests + store.requests;
      if store.result.Ok? && project.Some? {
        project := Some(project.value.(duration := grown));
      }
    }

    /** The body of `checkPendingJobs`'s loop for one job. */
    method CheckJob(job: AIJob, poll: string -> Result<AIJob>, create: AssetInsert -> Result<MediaAsset>)
      returns (made: seq<JobCycle.JobCall>)
      modifies this
      ensures made == JobCycle.JobCalls(job, poll)
      ensures aiJobs == if JobCycle.Claimed(job, poll, create) then JobCycle.WithoutId(old(aiJobs), job.id) else old(aiJobs)
      ensures project == old(project) && clips == old(clips) && loading == old(loading)
    {
      made := [JobCycle.Poll(job.id)];
      var polled := poll(job.id);
      var url := JobCycle.ReadyUrl(polled);
      if url.Some? {
        var asset := JobCycle.GeneratedAsset(job, url.value);
        made := made + [JobCycle.CreateAsset(asset)];
        var created := create(asset);
        if created.Ok? {
          aiJobs := JobCycle.WithoutId(aiJobs, job.id);
        }
      }
    }

    /**
     * `checkPendingJobs`: polls each job of the pending snapshot in turn; for a job reported
     * completed with a URL, creates its asset and, once that succeeds, drops every job with its
     * id. A failed poll or creation leaves the list as it is.
     */
    method CheckPendingJobs(poll: string -> Result<AIJob>, create: AssetInsert -> Result<MediaAsset>)
      returns (calls: seq<JobCycle.JobCall>)
      modifies this
      ensures calls == JobCycle.CycleCalls(JobCycle.PendingJobs(old(aiJobs)), poll)
      ensures aiJobs == JobCycle.AfterCycle(old(aiJobs), poll, create)
      ensures project == old(project) && clips == old(clips) && loading == old(loading)
    {
      var pending := JobCycle.PendingJobs(aiJobs);
      ghost var start := aiJobs;
      calls := [];
      var i := 0;
      while i < |pending|
        invariant 0 <= i <= |pending|
        invariant calls == JobCycle.CallsUpTo(pending, i, poll)
        invariant aiJobs == JobCycle.JobsUpTo(start, pending, i, poll, create)
        invariant project == old(project) && clips == old(clips) && loading == old(loading)
      {
        var made := CheckJob(pending[i], poll, create);
        calls := calls + made;
        i := i + 1;
      }
      JobCycle.CycleComplete(start, poll, create);
    }
  }
}
