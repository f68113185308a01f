/**
 * One cycle of the editor's AI-job reconciliation, as functions of the job list and of two
 * oracles: `poll` gives the outcome of `pollJobStatus` for a job id, and `create` the outcome of
 * `createMediaAsset` for an asset record. The editor's loop is proved against these functions.
 */
module JobCycle {
  import opened Wrappers
  import opened Records
  import Seqs
  import Js

  /** The statuses the editor keeps watching. */
  predicate IsPending(j: AIJob)
  {
    j.status == "pending" || j.status == "processing"
  }

  /** The jobs a cycle polls, and the jobs loading keeps: pending or processing, in list order. */
  function PendingJobs(jobs: seq<AIJob>): (r: seq<AIJob>)
    ensures forall j :: j in r <==> j in jobs && IsPending(j)
    ensures Seqs.IsSubsequence(r, jobs)
  {
    Seqs.FilterIsSubsequence(jobs, IsPending);
    Seqs.Filter(jobs, IsPending)
  }

  /** The result URL of a poll that reports the job completed with a non-empty URL. */
  function ReadyUrl(polled: Result<AIJob>): (url: Option<string>)
    ensures url.Some? <==> polled.Ok? && polled.value.status == "completed" &&
                           polled.value.resultUrl.Some? && polled.value.resultUrl.value != ""
    ensures url.Some? ==> url.value == polled.value.resultUrl.value
  {
    if polled.Ok? && polled.value.status == "completed" && polled.value.resultUrl.Some? && polled.value.resultUrl.value != ""
    then Some(polled.value.resultUrl.value)
    else None
  }

  /**
   * `(parameters.duration || 5) * 1000`. A falsy duration gives 5 seconds; a non-numeric one
   * gives NaN, which the JSON insert stores as null (`None`).
   */
  function GeneratedDuration(parameters: Bag): (d: Option<real>)
    ensures !Js.Truthy(Js.Get(parameters, "duration")) ==> d == Some(5000.0)
    ensures "duration" in parameters && parameters["duration"].Num? && parameters["duration"].n != 0.0 ==>
      d == Some(parameters["duration"].n * 1000.0)
    ensures d.Some? <==> !Js.Truthy(Js.Get(parameters, "duration")) || parameters["duration"].Num?
  {
    var v := Js.OrElse(parameters, "duration", Num(5.0));
    if v.Num? then Some(v.n * 1000.0) else None
  }

  /** The asset created for a job whose poll reported `url`; provider, prompt and parameters come
      from the job as it was listed, not from the poll. */
  function GeneratedAsset(job: AIJob, url: string): (a: AssetInsert)
    ensures a.kind == Video && a.source == AiGenerated && a.url == url && a.aiJobId == Some(job.id)
    ensures a.thumbnailUrl == None && a.filename == "AI Generated - " + job.provider
    ensures a.duration == GeneratedDuration(job.parameters)
    ensures a.metadata == map["provider" := Text(job.provider), "prompt" := Text(job.prompt)]
  {
    AssetInsert(Video, AiGenerated, url, None, "AI Generated - " + job.provider, GeneratedDuration(job.parameters),
      map["provider" := Text(job.provider), "prompt" := Text(job.prompt)], Some(job.id))
  }

  /** The service calls a cycle makes. */
  datatype JobCall = Poll(jobId: string) | CreateAsset(asset: AssetInsert)

  /** The calls made for one job: its poll, then the asset creation if the poll reports it ready. */
  function JobCalls(job: AIJob, poll: string -> Result<AIJob>): seq<JobCall>
  {
    [Poll(job.id)] + (match ReadyUrl(poll(job.id))
                      case Some(url) => [CreateAsset(GeneratedAsset(job, url))]
                      case None => [])
  }

  /** The calls made for `jobs`, one job after the other: a poll for each job and at most one
      asset creation for each. */
  function CycleCalls(jobs: seq<AIJob>, poll: string -> Result<AIJob>): (calls: seq<JobCall>)
    ensures |jobs| <= |calls| <= 2 * |jobs|
  {
    if jobs == [] then [] else JobCalls(jobs[0], poll) + CycleCalls(jobs[1..], poll)
  }

  /** Whether a job is dropped: its poll reported it ready and its asset was created. */
  predicate Claimed(job: AIJob, poll: string -> Result<AIJob>, create: AssetInsert -> Result<MediaAsset>)
  {
    ReadyUrl(poll(job.id)).Some? && create(GeneratedAsset(job, ReadyUrl(poll(job.id)).value)).Ok?
  }

  /** The ids a cycle over `jobs` removes from the job list. */
  function ClaimedIds(jobs: seq<AIJob>, poll: string -> Result<AIJob>, create: AssetInsert -> Result<MediaAsset>)
    : set<string>
  {
    set j | j in jobs && Claimed(j, poll, create) :: j.id
  }

  /** The jobs whose id is not in `ids`, in list order. */
  function WithoutIds(jobs: seq<AIJob>, ids: set<string>): (r: seq<AIJob>)
    ensures forall j :: j in r <==> j in jobs && j.id !in ids
    ensures Seqs.IsSubsequence(r, jobs)
  {
    var keep := (j: AIJob) => j.id !in ids;
    Seqs.FilterIsSubsequence(jobs, keep);
    Seqs.Filter(jobs, keep)
  }

  /** The job list after a cycle that starts from `jobs`: some jobs are dropped, none is added,
      and the rest keep their order. */
  function AfterCycle(jobs: seq<AIJob>, poll: string -> Result<AIJob>, create: AssetInsert -> Result<MediaAsset>)
    : (r: seq<AIJob>)
    ensures Seqs.IsSubsequence(r, jobs)
    ensures |r| <= |jobs|
  {
    WithoutIds(jobs, ClaimedIds(PendingJobs(jobs), poll, create))
  }

  // ---------------------------------------------------------------- loop steps

  lemma {:induction false} CycleCallsAppend(jobs: seq<AIJob>, job: AIJob, poll: string -> Result<AIJob>)
    ensures CycleCalls(jobs + [job], poll) == CycleCalls(jobs, poll) + JobCalls(job, poll)
  {
    if jobs == [] {
      assert [] + [job] == [job];
    } else {
      assert (jobs + [job])[1..] == jobs[1..] + [job];
      CycleCallsAppend(jobs[1..], job, poll);
    }
  }

  lemma ClaimedIdsAppend(jobs: seq<AIJob>, job: AIJob, poll: string -> Result<AIJob>,
                         create: AssetInsert -> Result<MediaAsset>)
    ensures ClaimedIds(jobs + [job], poll, create) ==
      ClaimedIds(jobs, poll, create) + (if Claimed(job, poll, create) then {job.id} else {})
  {
    var s := jobs + [job];
    forall j | j in s ensures j in jobs || j == job {
    }
  }

  /** Before the first job nothing is dropped. */
  lemma NothingClaimedYet(start: seq<AIJob>, jobs: seq<AIJob>, poll: string -> Result<AIJob>,
                          create: AssetInsert -> Result<MediaAsset>)
    ensures CycleCalls(jobs[..0], poll) == []
    ensures WithoutIds(start, ClaimedIds(jobs[..0], poll, create)) == start
  {
    assert jobs[..0] == [];
    assert ClaimedIds(jobs[..0], poll, create) == {};
    WithoutNoIds(start);
  }

  /** Dropping no id keeps the list. */
  lemma {:induction false} WithoutNoIds(jobs: seq<AIJob>)
    ensures WithoutIds(jobs, {}) == jobs
  {
    if jobs != [] {
      WithoutNoIds(jobs[1..]);
      assert [jobs[0]] + jobs[1..] == jobs;
    }
  }

  /** `jobs.filter(j => j.id !== id)`. */
  function WithoutId(jobs: seq<AIJob>, id: string): (r: seq<AIJob>)
    ensures forall j :: j in r <==> j in jobs && j.id != id
  {
    Seqs.Filter(jobs, (j: AIJob) => j.id != id)
  }

  /** Dropping one more id from the filtered list is filtering by the larger set. */
  lemma WithoutOneMore(jobs: seq<AIJob>, ids: set<string>, id: string)
    ensures WithoutId(WithoutIds(jobs, ids), id) == WithoutIds(jobs, ids + {id})
  {
    Seqs.FilterTwice(jobs, (j: AIJob) => j.id !in ids, (j: AIJob) => j.id != id, (j: AIJob) => j.id !in ids + {id});
  }

  /** What visiting the `i`-th job of `jobs` (counting from one) removes from the job list. */
  lemma ClaimStep(start: seq<AIJob>, jobs: seq<AIJob>, i: int, poll: string -> Result<AIJob>,
                  create: AssetInsert -> Result<MediaAsset>)
    requires 0 < i <= |jobs|
    ensures var before := WithoutIds(start, ClaimedIds(jobs[..i - 1], poll, create));
      WithoutIds(start, ClaimedIds(jobs[..i], poll, create)) ==
        if Claimed(jobs[i - 1], poll, create) then WithoutId(before, jobs[i - 1].id) else before
  {
    var job := jobs[i - 1];
    Seqs.TakeOneMore(jobs, i);
    ClaimedIdsAppend(jobs[..i - 1], job, poll, create);
    var claimed := ClaimedIds(jobs[..i - 1], poll, create);
    if Claimed(job, poll, create) {
      assert ClaimedIds(jobs[..i], poll, create) == claimed + {job.id};
      WithoutOneMore(start, claimed, job.id);
    } else {
      assert ClaimedIds(jobs[..i], poll, create) == claimed;
    }
  }

  /** The calls made for the first `i` jobs of `jobs`, built one job at a time. */
  function CallsUpTo(jobs: seq<AIJob>, i: nat, poll: string -> Result<AIJob>): seq<JobCall>
    requires i <= |jobs|
  {
    if i == 0 then [] else CallsUpTo(jobs, i - 1, poll) + JobCalls(jobs[i - 1], poll)
  }

  /** The job list after visiting the first `i` jobs of `jobs`, starting from `start`. */
  function JobsUpTo(start: seq<AIJob>, jobs: seq<AIJob>, i: nat, poll: string -> Result<AIJob>,
                    create: AssetInsert -> Result<MediaAsset>): seq<AIJob>
    requires i <= |jobs|
  {
    if i == 0 then start
    else
      var before := JobsUpTo(start, jobs, i - 1, poll, create);
      if Claimed(jobs[i - 1], poll, create) then WithoutId(before, jobs[i - 1].id) else before
  }

  /** Making the calls one job at a time makes the calls of the cycle over those jobs. */
  lemma {:induction false} CallsUpToIsPrefix(jobs: seq<AIJob>, i: nat, poll: string -> Result<AIJob>)
    requires i <= |jobs|
    ensures CallsUpTo(jobs, i, poll) == CycleCalls(jobs[..i], poll)
  {
    if i == 0 {
      assert jobs[..0] == [];
    } else {
      CallsUpToIsPrefix(jobs, i - 1, poll);
      Seqs.TakeOneMore(jobs, i);
      CycleCallsAppend(jobs[..i - 1], jobs[i - 1], poll);
    }
  }

  /** Removing claimed jobs one at a time removes every id the cycle over those jobs claims. */
  lemma {:induction false} JobsUpToIsPrefix(start: seq<AIJob>, jobs: seq<AIJob>, i: nat, poll: string -> Result<AIJob>,
                                            create: AssetInsert -> Result<MediaAsset>)
    requires i <= |jobs|
    ensures JobsUpTo(start, jobs, i, poll, create) == WithoutIds(start, ClaimedIds(jobs[..i], poll, create))
  {
    if i == 0 {
      NothingClaimedYet(start, jobs, poll, create);
    } else {
      JobsUpToIsPrefix(start, jobs, i - 1, poll, create);
      ClaimStep(start, jobs, i, poll, create);
    }
  }

  /** Visiting every pending job of `start` is the cycle. */
  lemma CycleComplete(start: seq<AIJob>, poll: string -> Result<AIJob>, create: AssetInsert -> Result<MediaAsset>)
    ensures var pending := PendingJobs(start);
      CallsUpTo(pending, |pending|, poll) == CycleCalls(pending, poll) &&
      JobsUpTo(start, pending, |pending|, poll, create) == AfterCycle(start, poll, create)
  {
    var pending := PendingJobs(start);
    CallsUpToIsPrefix(pending, |pending|, poll);
    JobsUpToIsPrefix(start, pending, |pending|, poll, create);
    assert pending[..|pending|] == pending;
  }

  // ---------------------------------------------------------------- properties of a cycle

  /** The ids of the polls among `calls`, in order. */
  function PolledIds(calls: seq<JobCall>): seq<string>
  {
    if calls == [] then []
    else (if calls[0].Poll? then [calls[0].jobId] else []) + PolledIds(calls[1..])
  }

  /** The assets created among `calls`, in order. */
  function Creations(calls: seq<JobCall>): seq<AssetInsert>
  {
    if calls == [] then []
    else (if calls[0].CreateAsset? then [calls[0].asset] else []) + Creations(calls[1..])
  }

  lemma CallsAppend(a: seq<JobCall>, b: seq<JobCall>)
    ensures PolledIds(a + b) == PolledIds(a) + PolledIds(b)
    ensures Creations(a + b) == Creations(a) + Creations(b)
  {
    PolledIdsAppend(a, b);
    CreationsAppend(a, b);
  }

  lemma {:induction false} PolledIdsAppend(a: seq<JobCall>, b: seq<JobCall>)
    ensures PolledIds(a + b) == PolledIds(a) + PolledIds(b)
  {
    if a == [] {
      assert a + b == b;
    } else {
      assert (a + b)[0] == a[0];
      assert (a + b)[1..] == a[1..] + b;
      PolledIdsAppend(a[1..], b);
    }
  }

  lemma {:induction false} CreationsAppend(a: seq<JobCall>, b: seq<JobCall>)
    ensures Creations(a + b) == Creations(a) + Creations(b)
  {
    if a == [] {
      assert a + b == b;
    } else {
      assert (a + b)[0] == a[0];
      assert (a + b)[1..] == a[1..] + b;
      CreationsAppend(a[1..], b);
    }
  }

  /** The job ids of a list, in order. */
  function Ids(jobs: seq<AIJob>): (r: seq<string>)
    ensures |r| == |jobs|
  {
    if jobs == [] then [] else [jobs[0].id] + Ids(jobs[1..])
  }

  /** Every job is polled exactly once, in list order, and nothing else is polled. */
  lemma {:induction false} PollsFollowJobs(jobs: seq<AIJob>, poll: string -> Result<AIJob>)
    ensures PolledIds(CycleCalls(jobs, poll)) == Ids(jobs)
  {
    if jobs != [] {
      var first := JobCalls(jobs[0], poll);
      CallsAppend(first, CycleCalls(jobs[1..], poll));
      assert first[1..] == (if ReadyUrl(poll(jobs[0].id)).Some? then [CreateAsset(GeneratedAsset(jobs[0], ReadyUrl(poll(jobs[0].id)).value))] else []);
      PollsFollowJobs(jobs[1..], poll);
    }
  }

  /** A job is ready when its poll reports it completed with a result URL. */
  predicate Ready(job: AIJob, poll: string -> Result<AIJob>)
  {
    ReadyUrl(poll(job.id)).Some?
  }

  /** The asset of each ready job, in list order. */
  function ReadyAssets(jobs: seq<AIJob>, poll: string -> Result<AIJob>): seq<AssetInsert>
  {
    if jobs == [] then []
    else (match ReadyUrl(poll(jobs[0].id))
          case Some(url) => [GeneratedAsset(jobs[0], url)]
          case None => []) + ReadyAssets(jobs[1..], poll)
  }

  /** The assets a cycle creates are those of its ready jobs, in order. */
  lemma {:induction false} CreationsAreReadyAssets(jobs: seq<AIJob>, poll: string -> Result<AIJob>)
    ensures Creations(CycleCalls(jobs, poll)) == ReadyAssets(jobs, poll)
  {
    if jobs != [] {
      var first := JobCalls(jobs[0], poll);
      CallsAppend(first, CycleCalls(jobs[1..], poll));
      CallsAppend([Poll(jobs[0].id)], first[1..]);
      assert first == [Poll(jobs[0].id)] + first[1..];
      CreationsAreReadyAssets(jobs[1..], poll);
    }
  }

  /** One asset per ready job: the `i`-th ready job gets the `i`-th asset, made from its own URL. */
  lemma {:induction false} ReadyAssetsMatchReadyJobs(jobs: seq<AIJob>, poll: string -> Result<AIJob>)
    ensures var ready := Seqs.Filter(jobs, (j: AIJob) => Ready(j, poll));
      var made := ReadyAssets(jobs, poll);
      |made| == |ready| &&
      forall i :: 0 <= i < |made| ==>
        Ready(ready[i], poll) && made[i] == GeneratedAsset(ready[i], ReadyUrl(poll(ready[i].id)).value)
  {
    if jobs != [] {
      ReadyAssetsMatchReadyJobs(jobs[1..], poll);
      var ready := Seqs.Filter(jobs, (j: AIJob) => Ready(j, poll));
      var rest := Seqs.Filter(jobs[1..], (j: AIJob) => Ready(j, poll));
      var made := ReadyAssets(jobs, poll);
      var restMade := ReadyAssets(jobs[1..], poll);
      if Ready(jobs[0], poll) {
        assert ready == [jobs[0]] + rest;
        assert made == [GeneratedAsset(jobs[0], ReadyUrl(poll(jobs[0].id)).value)] + restMade;
        forall i | 0 < i < |made|
          ensures Ready(ready[i], poll) && made[i] == GeneratedAsset(ready[i], ReadyUrl(poll(ready[i].id)).value)
        {
          assert ready[i] == rest[i - 1] && made[i] == restMade[i - 1];
        }
      } else {
        assert ready == rest && made == restMade;
      }
    }
  }

  /** Exactly one asset is created per ready job, in list order. */
  lemma OneAssetPerReadyJob(jobs: seq<AIJob>, poll: string -> Result<AIJob>)
    ensures var ready := Seqs.Filter(jobs, (j: AIJob) => Ready(j, poll));
      var made := Creations(CycleCalls(jobs, poll));
      |made| == |ready| &&
      forall i :: 0 <= i < |made| ==>
        Ready(ready[i], poll) && made[i] == GeneratedAsset(ready[i], ReadyUrl(poll(ready[i].id)).value)
  {
    CreationsAreReadyAssets(jobs, poll);
    ReadyAssetsMatchReadyJobs(jobs, poll);
  }

  /** Polls are issued for exactly the ids of the listed jobs. */
  lemma {:induction false} PollIffListed(jobs: seq<AIJob>, poll: string -> Result<AIJob>, id: string)
    ensures Poll(id) in CycleCalls(jobs, poll) <==> exists j :: j in jobs && j.id == id
  {
    if jobs != [] {
      PollIffListed(jobs[1..], poll, id);
      var first := JobCalls(jobs[0], poll);
      assert CycleCalls(jobs, poll) == first + CycleCalls(jobs[1..], poll);
      assert jobs == [jobs[0]] + jobs[1..];
      if Poll(id) in first {
        assert id == jobs[0].id;
      }
    }
  }

  /** Every asset a cycle creates is an AI-generated video carrying the URL a completed poll of
      one of the listed jobs reported, and that job's id. */
  lemma {:induction false} CreatedAssetShape(jobs: seq<AIJob>, poll: string -> Result<AIJob>, a: AssetInsert)
    requires CreateAsset(a) in CycleCalls(jobs, poll)
    ensures a.kind == Video && a.source == AiGenerated
    ensures exists j :: (j in jobs && a.aiJobId == Some(j.id) && poll(j.id).Ok? &&
      poll(j.id).value.status == "completed" && poll(j.id).value.resultUrl == Some(a.url) && a.url != "")
  {
    var first := JobCalls(jobs[0], poll);
    assert CycleCalls(jobs, poll) == first + CycleCalls(jobs[1..], poll);
    if CreateAsset(a) in first {
      assert jobs[0] in jobs;
    } else {
      CreatedAssetShape(jobs[1..], poll, a);
      var j :| j in jobs[1..] && a.aiJobId == Some(j.id) && poll(j.id).Ok? &&
        poll(j.id).value.status == "completed" && poll(j.id).value.resultUrl == Some(a.url) && a.url != "";
      assert j in jobs;
    }
  }

  /** A cycle polls only jobs listed as pending or processing. */
  lemma PollsOnlyPending(jobs: seq<AIJob>, poll: string -> Result<AIJob>, id: string)
    ensures Poll(id) in CycleCalls(PendingJobs(jobs), poll) <==> exists j :: j in jobs && IsPending(j) && j.id == id
  {
    PollIffListed(PendingJobs(jobs), poll, id);
  }

  /**
   * A job whose poll does not report it ready (not completed, no URL, or the poll failed) is
   * kept, and so is any job whose status is not watched and whose id no claimed job shares.
   * A failed job is no exception: there is no branch for it.
   */
  lemma NotReadyJobStays(jobs: seq<AIJob>, poll: string -> Result<AIJob>, create: AssetInsert -> Result<MediaAsset>,
                         j: AIJob)
    requires j in jobs && !Ready(j, poll)
    ensures j in AfterCycle(jobs, poll, create)
  {
  }

  /** With distinct ids, a ready job whose asset could not be created is kept for the next cycle. */
  lemma FailedCreateStays(jobs: seq<AIJob>, poll: string -> Result<AIJob>, create: AssetInsert -> Result<MediaAsset>,
                          j: AIJob)
    requires forall a, b :: a in jobs && b in jobs && a.id == b.id ==> a == b
    requires j in jobs && Ready(j, poll) && create(GeneratedAsset(j, ReadyUrl(poll(j.id)).value)).Err?
    ensures j in AfterCycle(jobs, poll, create)
  {
  }

  /** A claimed job leaves the list together with every job sharing its id, and no job it
      removes is polled by the next cycle. */
  lemma ClaimedJobGone(jobs: seq<AIJob>, poll: string -> Result<AIJob>, create: AssetInsert -> Result<MediaAsset>,
                       j: AIJob)
    requires j in jobs && IsPending(j) && Claimed(j, poll, create)
    ensures forall k :: k in AfterCycle(jobs, poll, create) ==> k.id != j.id
    ensures Poll(j.id) !in CycleCalls(PendingJobs(AfterCycle(jobs, poll, create)), poll)
  {
    var after := AfterCycle(jobs, poll, create);
    assert j in PendingJobs(jobs);
    assert j.id in ClaimedIds(PendingJobs(jobs), poll, create);
    PollsOnlyPending(after, poll, j.id);
  }

  /** A job that stays pending is polled again by the next cycle: failed jobs, for one, never leave. */
  lemma StillPendingPolledAgain(jobs: seq<AIJob>, poll: string -> Result<AIJob>,
                                create: AssetInsert -> Result<MediaAsset>, j: AIJob)
    requires j in jobs && IsPending(j) && !Ready(j, poll)
    ensures Poll(j.id) in CycleCalls(PendingJobs(AfterCycle(jobs, poll, create)), poll)
  {
    NotReadyJobStays(jobs, poll, create, j);
    PollsOnlyPending(AfterCycle(jobs, poll, create), poll, j.id);
  }

  /** The duration rule: a missing, null or zero duration gives 5000 ms. */
  lemma DefaultGeneratedDuration(parameters: Bag)
    requires "duration" !in parameters || parameters["duration"] in {Null, Num(0.0), Text("")}
    ensures GeneratedDuration(parameters) == Some(5000.0)
  {
  }
}
