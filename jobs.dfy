/** Jobs and what one sweep of processJobs does to the job store, stated as
    pure functions: the snapshot of queued job ids taken when the sweep
    starts, one job's run from queued to finished, and the fold over the
    snapshot that stops at the first failed save of the jobs file. */
module Jobs {
  import opened Utilities
  import opened Items

  datatype Status = Queued | Running | Finished

  /** A job record as kept in the jobs dictionary and the jobs file. */
  datatype Job = Job(
    id: JobId,
    jobName: Option<string>,
    status: Status,
    createdAt: string,
    startedAt: Option<string>,
    finishedAt: Option<string>,
    items: seq<Item>,
    results: seq<ItemResult>)

  type Jobs = map<JobId, Job>

  /** How the items of a job are dispatched: the sweep functions take the
      item loop as a value (the dispatcher passes ItemRunner(cfg, env)). */
  type Runner = (JobId, seq<Item>) -> ItemsRun

  /** The item loop yields one result per item. */
  ghost predicate OneResultPerItem(run: Runner)
  {
    forall id, items :: |run(id, items).results| == |items|
  }

  /** What holds of every job the dispatcher creates and runs. */
  ghost predicate JobValid(j: Job)
  {
    && |j.results| <= |j.items|
    && (j.status == Queued ==> j.results == [])
    && (j.status == Finished ==> |j.results| == |j.items|)
  }

  /** Every job of the store satisfies the job invariant. */
  ghost predicate StoreValid(jobs: Jobs)
  {
    forall id :: id in jobs ==> JobValid(jobs[id])
  }

  ghost predicate NoDup(s: seq<JobId>)
  {
    forall a, b :: 0 <= a < b < |s| ==> s[a] != s[b]
  }

  /** Object.keys(jobs).filter(j => jobs[j].status === 'queued'), where
      `order` is the insertion order of the keys. Object.keys lists
      integer-like keys first, in numeric order; job ids are uuids, which
      never look like integers, so the keys come in insertion order. */
  function QueuedIds(order: seq<JobId>, jobs: Jobs): (ids: seq<JobId>)
    ensures forall id :: id in ids <==> id in order && id in jobs && jobs[id].status == Queued
    ensures |ids| <= |order|
  {
    if order == [] then []
    else
      var last := order[|order| - 1];
      assert order == order[..|order| - 1] + [last];
      QueuedIds(order[..|order| - 1], jobs)
        + (if last in jobs && jobs[last].status == Queued then [last] else [])
  }

  /** The snapshot keeps key order: of two queued ids, the one taken first
      was inserted first. */
  lemma {:induction false} QueuedIdsInOrder(order: seq<JobId>, jobs: Jobs, a: nat, b: nat)
    requires a < b < |QueuedIds(order, jobs)|
    ensures exists p, q :: 0 <= p < q < |order|
              && order[p] == QueuedIds(order, jobs)[a] && order[q] == QueuedIds(order, jobs)[b]
  {
    var prefix := order[..|order| - 1];
    var last := order[|order| - 1];
    var before := QueuedIds(prefix, jobs);
    var ids := QueuedIds(order, jobs);
    assert ids == before + (if last in jobs && jobs[last].status == Queued then [last] else []);
    if b < |before| {
      QueuedIdsInOrder(prefix, jobs, a, b);
      var p, q :| 0 <= p < q < |prefix| && prefix[p] == before[a] && prefix[q] == before[b];
      assert order[p] == ids[a] && order[q] == ids[b];
    } else {
      assert ids[a] == before[a] && before[a] in before;
      var p :| 0 <= p < |prefix| && prefix[p] == ids[a];
      assert order[p] == ids[a] && order[|order| - 1] == ids[b];
    }
  }

  /** The snapshot holds each queued job once when the keys are distinct. */
  lemma {:induction false} QueuedIdsNoDup(order: seq<JobId>, jobs: Jobs)
    requires NoDup(order)
    ensures NoDup(QueuedIds(order, jobs))
  {
    if order != [] {
      var prefix := order[..|order| - 1];
      var last := order[|order| - 1];
      assert NoDup(prefix);
      QueuedIdsNoDup(prefix, jobs);
      assert last !in prefix;
      assert last !in QueuedIds(prefix, jobs);
    }
  }

  /** A job submitted under a new id is queued behind every job already
      queued: the sweep takes jobs in insertion order. */
  lemma {:induction false} NewJobQueuesLast(order: seq<JobId>, jobs: Jobs, id: JobId, job: Job)
    requires id !in order
    requires job.status == Queued
    ensures QueuedIds(order + [id], jobs[id := job]) == QueuedIds(order, jobs) + [id]
  {
    QueuedIdsIgnoresOthers(order, jobs, id, job);
    assert (order + [id])[..|order|] == order;
  }

  lemma {:induction false} QueuedIdsIgnoresOthers(order: seq<JobId>, jobs: Jobs, id: JobId, job: Job)
    requires id !in order
    ensures QueuedIds(order, jobs[id := job]) == QueuedIds(order, jobs)
  {
    if order != [] {
      QueuedIdsIgnoresOthers(order[..|order| - 1], jobs, id, job);
    }
  }

  /** The state a sweep threads through its jobs: the store, the events
      emitted, the snapshots written to the jobs file, and whether an
      exception ended the sweep. */
  datatype SweepState = SweepState(jobs: Jobs, events: seq<Event>, saves: seq<Jobs>, aborted: bool)

  /** The job as it is when the first save of its run happens. */
  function Started(job: Job, at: string): Job
  {
    job.(status := Running, startedAt := Some(at))
  }

  /** The jobs map with rs pushed onto the results of job id. */
  function PushResults(jobs: Jobs, id: JobId, rs: seq<ItemResult>): Jobs
    requires id in jobs
  {
    jobs[id := jobs[id].(results := jobs[id].results + rs)]
  }

  /** Pushing a, then b, is pushing a + b. */
  lemma PushResultsTwice(jobs: Jobs, id: JobId, a: seq<ItemResult>, b: seq<ItemResult>)
    requires id in jobs
    ensures PushResults(PushResults(jobs, id, a), id, b) == PushResults(jobs, id, a + b)
  {
    assert jobs[id].results + a + b == jobs[id].results + (a + b);
  }

  /** One iteration of the job loop of processJobs. A save that throws ends
      the sweep: the job keeps the status it had in memory at that point. */
  function RunJob(run: Runner, env: Env, st: SweepState, id: JobId): SweepState
  {
    if id !in st.jobs then st.(aborted := true)
    else
      var job := st.jobs[id];
      var n := |job.items|;
      var started := Started(job, env.clock(id, AtStart));
      var jobs1 := st.jobs[id := started];
      if !env.saveOk(id, AtStart) then SweepState(jobs1, st.events, st.saves, true)
      else
        var out := run(id, job.items);
        var finished := started.(status := Finished,
                                 finishedAt := Some(env.clock(id, AtFinish)),
                                 results := job.results + out.results);
        var jobs2 := st.jobs[id := finished];
        var evs := st.events + [StartedEvent(id, n)] + out.events;
        if !env.saveOk(id, AtFinish) then SweepState(jobs2, evs, st.saves + [jobs1], true)
        else SweepState(jobs2, evs + [FinishedEvent(id, finished.results)], st.saves + [jobs1] + [jobs2], false)
  }

  /** A job's run keeps every job id and changes no other job; it only
      appends to the events emitted and to the snapshots saved. */
  lemma RunJobFrame(run: Runner, env: Env, st: SweepState, id: JobId)
    ensures var st' := RunJob(run, env, st, id);
      && st'.jobs.Keys == st.jobs.Keys
      && (forall j :: j in st.jobs && j != id ==> st'.jobs[j] == st.jobs[j])
      && |st.events| <= |st'.events| && st'.events[..|st.events|] == st.events
      && |st.saves| <= |st'.saves| && st'.saves[..|st.saves|] == st.saves
  {
  }

  /** The state after the first k jobs of the snapshot, or after the job whose
      save threw. */
  function SweepPrefix(run: Runner, env: Env, st0: SweepState, ids: seq<JobId>, k: nat): SweepState
    requires k <= |ids|
  {
    if k == 0 then st0
    else
      var prev := SweepPrefix(run, env, st0, ids, k - 1);
      if prev.aborted then prev else RunJob(run, env, prev, ids[k - 1])
  }

  /** A whole sweep over the snapshot `ids`. */
  function RunSweep(run: Runner, env: Env, st0: SweepState, ids: seq<JobId>): SweepState
  {
    SweepPrefix(run, env, st0, ids, |ids|)
  }

  /** A sweep keeps every job id, and leaves every job outside the part of
      the snapshot it has reached exactly as it was. */
  lemma {:induction false} SweepFrame(run: Runner, env: Env, st0: SweepState, ids: seq<JobId>, k: nat)
    requires k <= |ids|
    ensures var st := SweepPrefix(run, env, st0, ids, k);
      && st.jobs.Keys == st0.jobs.Keys
      && forall j :: j in st0.jobs && !InPrefix(ids, k, j) ==> st.jobs[j] == st0.jobs[j]
  {
    if k > 0 {
      SweepFrame(run, env, st0, ids, k - 1);
      RunJobFrame(run, env, SweepPrefix(run, env, st0, ids, k - 1), ids[k - 1]);
    }
  }

  /** SweepFrame for one job j. */
  lemma {:induction false} SweepFrameAt(run: Runner, env: Env, st0: SweepState, ids: seq<JobId>, k: nat, j: JobId)
    requires k <= |ids| && j in st0.jobs && !InPrefix(ids, k, j)
    ensures j in SweepPrefix(run, env, st0, ids, k).jobs
    ensures SweepPrefix(run, env, st0, ids, k).jobs[j] == st0.jobs[j]
  {
    if k > 0 {
      SweepFrameAt(run, env, st0, ids, k - 1, j);
      RunJobFrame(run, env, SweepPrefix(run, env, st0, ids, k - 1), ids[k - 1]);
    }
  }

  /** Whether j is among the first k ids. */
  function InPrefix(ids: seq<JobId>, k: nat, j: JobId): bool
    requires k <= |ids|
  {
    k > 0 && (ids[k - 1] == j || InPrefix(ids, k - 1, j))
  }

  lemma {:induction false} InPrefixAt(ids: seq<JobId>, k: nat, a: nat)
    requires a < k <= |ids|
    ensures InPrefix(ids, k, ids[a])
  {
    if a < k - 1 {
      InPrefixAt(ids, k - 1, a);
    }
  }

  lemma {:induction false} InPrefixIn(ids: seq<JobId>, k: nat, j: JobId)
    requires k <= |ids| && InPrefix(ids, k, j)
    ensures j in ids
  {
    if ids[k - 1] != j {
      InPrefixIn(ids, k - 1, j);
    }
  }

  /** The first k ids are pairwise distinct, stated without quantifiers. */
  function Distinct(ids: seq<JobId>, k: nat): bool
    requires k <= |ids|
  {
    k == 0 || (Distinct(ids, k - 1) && !InPrefix(ids, k - 1, ids[k - 1]))
  }

  lemma {:induction false} NoDupDistinct(ids: seq<JobId>, k: nat)
    requires NoDup(ids) && k <= |ids|
    ensures Distinct(ids, k)
  {
    if k > 0 {
      NoDupDistinct(ids, k - 1);
      NotInPrefix(ids, k - 1, k - 1);
    }
  }

  lemma {:induction false} NotInPrefix(ids: seq<JobId>, k: nat, m: nat)
    requires NoDup(ids) && m <= k < |ids|
    ensures !InPrefix(ids, m, ids[k])
  {
    if m > 0 {
      NotInPrefix(ids, k, m - 1);
    }
  }

  /** Once a save has thrown, the rest of the snapshot is not touched. */
  lemma {:induction false} AbortIsFinal(run: Runner, env: Env, st0: SweepState, ids: seq<JobId>, k: nat, m: nat)
    requires k <= m <= |ids|
    requires SweepPrefix(run, env, st0, ids, k).aborted
    ensures SweepPrefix(run, env, st0, ids, m) == SweepPrefix(run, env, st0, ids, k)
    decreases m - k
  {
    if k < m {
      AbortIsFinal(run, env, st0, ids, k, m - 1);
    }
  }

  /** Running a queued job keeps the job invariant of the store, however
      the run ends: the job is running with no results, or finished with one
      result per item. */
  lemma RunJobKeepsValid(run: Runner, env: Env, st: SweepState, id: JobId)
    requires OneResultPerItem(run) && StoreValid(st.jobs)
    requires id in st.jobs ==> st.jobs[id].status == Queued
    ensures StoreValid(RunJob(run, env, st, id).jobs)
  {
    if id in st.jobs {
      var job := st.jobs[id];
      assert |run(id, job.items).results| == |job.items|;
    }
  }

  /** A sweep over distinct queued ids keeps the job invariant of the store:
      each job it reaches is still queued, as the snapshot found it. */
  lemma {:induction false} SweepKeepsValid(run: Runner, env: Env, st0: SweepState, ids: seq<JobId>, k: nat)
    requires k <= |ids| && OneResultPerItem(run) && StoreValid(st0.jobs) && Distinct(ids, |ids|)
    requires forall id :: id in ids && id in st0.jobs ==> st0.jobs[id].status == Queued
    ensures StoreValid(SweepPrefix(run, env, st0, ids, k).jobs)
  {
    if k > 0 {
      SweepKeepsValid(run, env, st0, ids, k - 1);
      var prev := SweepPrefix(run, env, st0, ids, k - 1);
      var id := ids[k - 1];
      if !prev.aborted {
        SweepFrame(run, env, st0, ids, k - 1);
        if id in st0.jobs {
          DistinctPrefix(ids, k, |ids|);
          SweepFrameAt(run, env, st0, ids, k - 1, id);
        }
        RunJobKeepsValid(run, env, prev, id);
      }
    }
  }

  /** SweepKeepsValid for the snapshot of queued ids that processJobs takes. */
  lemma SnapshotSweepKeepsValid(run: Runner, env: Env, order: seq<JobId>, st0: SweepState, k: nat)
    requires OneResultPerItem(run) && StoreValid(st0.jobs) && NoDup(order)
    requires k <= |QueuedIds(order, st0.jobs)|
    ensures StoreValid(SweepPrefix(run, env, st0, QueuedIds(order, st0.jobs), k).jobs)
  {
    var ids := QueuedIds(order, st0.jobs);
    QueuedIdsNoDup(order, st0.jobs);
    NoDupDistinct(ids, |ids|);
    SweepKeepsValid(run, env, st0, ids, k);
  }

  /** The job a completed run leaves behind. */
  ghost predicate RanToCompletion(run: Runner, env: Env, id: JobId, before: Job, after: Job)
  {
    && after.status == Finished
    && after.items == before.items
    && after.results == run(id, before.items).results
    && after.startedAt == Some(env.clock(id, AtStart))
    && after.finishedAt == Some(env.clock(id, AtFinish))
  }

  ghost predicate SavesSucceed(env: Env, ids: seq<JobId>)
  {
    forall a :: 0 <= a < |ids| ==> env.saveOk(ids[a], AtStart) && env.saveOk(ids[a], AtFinish)
  }

  /** The preconditions of a sweep over a snapshot of queued jobs. */
  ghost predicate SweepReady(env: Env, st0: SweepState, ids: seq<JobId>)
  {
    && Distinct(ids, |ids|) && !st0.aborted && SavesSucceed(env, ids)
    && forall a :: 0 <= a < |ids| ==>
         ids[a] in st0.jobs && st0.jobs[ids[a]].status == Queued && st0.jobs[ids[a]].results == []
  }

  lemma {:induction false} DistinctPrefix(ids: seq<JobId>, k: nat, m: nat)
    requires k <= m <= |ids| && Distinct(ids, m)
    ensures Distinct(ids, k)
    decreases m - k
  {
    if k < m {
      DistinctPrefix(ids, k, m - 1);
    }
  }

  /** Without a failed save, no job of the snapshot ends the sweep early, and
      the job the sweep reaches next is still as the snapshot found it. */
  lemma {:induction false} SweepNotAborted(run: Runner, env: Env, st0: SweepState, ids: seq<JobId>, k: nat)
    requires k <= |ids| && SweepReady(env, st0, ids)
    ensures !SweepPrefix(run, env, st0, ids, k).aborted
  {
    if k > 0 {
      SweepNotAborted(run, env, st0, ids, k - 1);
      DistinctPrefix(ids, k, |ids|);
      assert !InPrefix(ids, k - 1, ids[k - 1]);
      SweepFrameAt(run, env, st0, ids, k - 1, ids[k - 1]);
      var prev := SweepPrefix(run, env, st0, ids, k - 1);
      RunJobCompletes(run, env, prev, ids[k - 1]);
    }
  }

  /** Without a failed save, job number a of the snapshot goes from queued to
      finished with one result per item, and stays so for the rest of the
      sweep. */
  lemma {:induction false} SweepCompletes(run: Runner, env: Env, st0: SweepState, ids: seq<JobId>, k: nat, a: nat)
    requires a < k <= |ids| && SweepReady(env, st0, ids)
    ensures ids[a] in SweepPrefix(run, env, st0, ids, k).jobs
    ensures RanToCompletion(run, env, ids[a], st0.jobs[ids[a]], SweepPrefix(run, env, st0, ids, k).jobs[ids[a]])
    decreases k
  {
    if a == k - 1 {
      SweepRunsNext(run, env, st0, ids, k);
    } else {
      SweepCompletes(run, env, st0, ids, k - 1, a);
      DistinctPrefix(ids, k, |ids|);
      InPrefixAt(ids, k - 1, a);
      SweepStepFrame(run, env, st0, ids, k, ids[a]);
    }
  }

  /** Job number k - 1 of the snapshot runs to completion at step k. */
  lemma SweepRunsNext(run: Runner, env: Env, st0: SweepState, ids: seq<JobId>, k: nat)
    requires 0 < k <= |ids| && SweepReady(env, st0, ids)
    ensures ids[k - 1] in SweepPrefix(run, env, st0, ids, k).jobs
    ensures RanToCompletion(run, env, ids[k - 1], st0.jobs[ids[k - 1]],
                            SweepPrefix(run, env, st0, ids, k).jobs[ids[k - 1]])
  {
    var prev := SweepPrefix(run, env, st0, ids, k - 1);
    var id := ids[k - 1];
    SweepNotAborted(run, env, st0, ids, k - 1);
    DistinctPrefix(ids, k, |ids|);
    assert !InPrefix(ids, k - 1, id);
    SweepFrameAt(run, env, st0, ids, k - 1, id);
    assert env.saveOk(id, AtStart) && env.saveOk(id, AtFinish);
    RunJobCompletes(run, env, prev, id);
  }

  /** Step k of a sweep changes no job but job number k - 1. */
  lemma SweepStepFrame(run: Runner, env: Env, st0: SweepState, ids: seq<JobId>, k: nat, j: JobId)
    requires 0 < k <= |ids| && j != ids[k - 1]
    requires j in SweepPrefix(run, env, st0, ids, k - 1).jobs
    ensures j in SweepPrefix(run, env, st0, ids, k).jobs
    ensures SweepPrefix(run, env, st0, ids, k).jobs[j] == SweepPrefix(run, env, st0, ids, k - 1).jobs[j]
  {
    RunJobFrame(run, env, SweepPrefix(run, env, st0, ids, k - 1), ids[k - 1]);
  }

  /** A queued job whose saves succeed runs to completion. */
  lemma RunJobCompletes(run: Runner, env: Env, st: SweepState, id: JobId)
    requires id in st.jobs && st.jobs[id].status == Queued && st.jobs[id].results == []
    requires env.saveOk(id, AtStart) && env.saveOk(id, AtFinish)
    ensures var st' := RunJob(run, env, st, id);
      !st'.aborted && RanToCompletion(run, env, id, st.jobs[id], st'.jobs[id])
  {
    var job := st.jobs[id];
    assert job.results + run(id, job.items).results == run(id, job.items).results;
  }

  lemma {:induction false} InPrefixTake(ids: seq<JobId>, m: nat, k: nat, j: JobId)
    requires k <= m <= |ids|
    ensures InPrefix(ids[..m], k, j) == InPrefix(ids, k, j)
  {
    if k > 0 {
      assert ids[..m][k - 1] == ids[k - 1];
      InPrefixTake(ids, m, k - 1, j);
    }
  }

  lemma {:induction false} DistinctTake(ids: seq<JobId>, m: nat, k: nat)
    requires k <= m <= |ids|
    ensures Distinct(ids[..m], k) == Distinct(ids, k)
  {
    if k > 0 {
      DistinctTake(ids, m, k - 1);
      InPrefixTake(ids, m, k - 1, ids[k - 1]);
      assert ids[..m][k - 1] == ids[k - 1];
    }
  }

  /** The first k steps of a sweep depend only on the first k ids. */
  lemma {:induction false} SweepPrefixTake(run: Runner, env: Env, st0: SweepState, ids: seq<JobId>, m: nat, k: nat)
    requires k <= m <= |ids|
    ensures SweepPrefix(run, env, st0, ids[..m], k) == SweepPrefix(run, env, st0, ids, k)
  {
    if k > 0 {
      SweepPrefixTake(run, env, st0, ids, m, k - 1);
      assert ids[..m][k - 1] == ids[k - 1];
    }
  }

  /** Whatever happens later in the sweep, the first k jobs of the snapshot
      are finished once the sweep has passed them, provided their own saves
      succeeded: each went from queued to finished with its item loop's
      results. */
  lemma EarlierJobsFinished(run: Runner, env: Env, st0: SweepState, ids: seq<JobId>, k: nat, a: nat)
    requires a < k <= |ids| && Distinct(ids, k) && !st0.aborted
    requires forall b :: 0 <= b < k ==> env.saveOk(ids[b], AtStart) && env.saveOk(ids[b], AtFinish)
    requires forall b :: 0 <= b < k ==>
               ids[b] in st0.jobs && st0.jobs[ids[b]].status == Queued && st0.jobs[ids[b]].results == []
    ensures !SweepPrefix(run, env, st0, ids, k).aborted
    ensures ids[a] in SweepPrefix(run, env, st0, ids, k).jobs
    ensures RanToCompletion(run, env, ids[a], st0.jobs[ids[a]], SweepPrefix(run, env, st0, ids, k).jobs[ids[a]])
  {
    var pre := ids[..k];
    DistinctTake(ids, k, k);
    assert pre[a] == ids[a];
    assert SweepReady(env, st0, pre);
    SweepPrefixTake(run, env, st0, ids, k, k);
    SweepNotAborted(run, env, st0, pre, k);
    SweepCompletes(run, env, st0, pre, k, a);
  }

  /** A sweep that a failed start save ends at job number k: that job stays
      running, and every job before it in the snapshot is finished with its
      item loop's results. */
  lemma FailedStartSaveAfterFinishedJobs(run: Runner, env: Env, st0: SweepState, ids: seq<JobId>, k: nat, a: nat)
    requires a < k < |ids| && Distinct(ids, |ids|) && !st0.aborted
    requires forall b :: 0 <= b < k ==> env.saveOk(ids[b], AtStart) && env.saveOk(ids[b], AtFinish)
    requires forall b :: 0 <= b <= k ==>
               ids[b] in st0.jobs && st0.jobs[ids[b]].status == Queued && st0.jobs[ids[b]].results == []
    requires !env.saveOk(ids[k], AtStart)
    ensures var st := RunSweep(run, env, st0, ids);
      && st.aborted && ids[k] in st.jobs && st.jobs[ids[k]].status == Running
      && ids[a] in st.jobs && RanToCompletion(run, env, ids[a], st0.jobs[ids[a]], st.jobs[ids[a]])
  {
    DistinctPrefix(ids, k + 1, |ids|);
    DistinctPrefix(ids, k, |ids|);
    EarlierJobsFinished(run, env, st0, ids, k, a);
    FailedStartSaveStrandsJob(run, env, st0, ids, k);
    InPrefixAt(ids, k, a);
  }

  /** A job the sweep leaves running because a save threw is never picked up
      again: later sweeps only take queued jobs, so they leave it as it is. */
  lemma StrandedJobStaysRunning(run: Runner, env: Env, order: seq<JobId>, st0: SweepState, id: JobId)
    requires id in st0.jobs && st0.jobs[id].status == Running
    ensures var st := RunSweep(run, env, st0, QueuedIds(order, st0.jobs));
      id in st.jobs && st.jobs[id] == st0.jobs[id]
  {
    var ids := QueuedIds(order, st0.jobs);
    SweepFrame(run, env, st0, ids, |ids|);
    if InPrefix(ids, |ids|, id) {
      InPrefixIn(ids, |ids|, id);
    }
  }

  /** When saving the start of job number k of the snapshot throws, the
      sweep ends there with that job running: the start is neither emitted
      nor saved, the jobs after it are not touched, and every other job is
      as the first k jobs left it. */
  lemma FailedStartSaveStrandsJob(run: Runner, env: Env, st0: SweepState, ids: seq<JobId>, k: nat)
    requires k < |ids| && ids[k] in st0.jobs
    requires !SweepPrefix(run, env, st0, ids, k).aborted
    requires !env.saveOk(ids[k], AtStart)
    ensures var prev := SweepPrefix(run, env, st0, ids, k);
      var st := RunSweep(run, env, st0, ids);
      && st.aborted
      && ids[k] in prev.jobs
      && st.jobs == prev.jobs[ids[k] := Started(prev.jobs[ids[k]], env.clock(ids[k], AtStart))]
      && st.jobs[ids[k]].status == Running
      && st.events == prev.events && st.saves == prev.saves
  {
    SweepFrame(run, env, st0, ids, k);
    AbortIsFinal(run, env, st0, ids, k + 1, |ids|);
  }

  /** A full sweep over the queued snapshot of a store in which no job is
      running and no save fails: every queued job is finished with one
      result per item, every other job is untouched, and no job is left
      running. */
  lemma CleanSweep(run: Runner, env: Env, order: seq<JobId>, st0: SweepState)
    requires OneResultPerItem(run)
    requires NoDup(order) && !st0.aborted
    requires forall id :: id in st0.jobs ==> JobValid(st0.jobs[id]) && st0.jobs[id].status != Running
    requires SavesSucceed(env, QueuedIds(order, st0.jobs))
    ensures var st := RunSweep(run, env, st0, QueuedIds(order, st0.jobs));
      && !st.aborted
      && st.jobs.Keys == st0.jobs.Keys
      && (forall id :: id in st.jobs ==> st.jobs[id].status != Running)
      && (forall id :: id in st0.jobs && st0.jobs[id].status == Queued && id in order ==>
            st.jobs[id].status == Finished && |st.jobs[id].results| == |st.jobs[id].items|)
      && (forall id :: id in st0.jobs && st0.jobs[id].status != Queued ==> st.jobs[id] == st0.jobs[id])
  {
    var ids := QueuedIds(order, st0.jobs);
    QueuedIdsNoDup(order, st0.jobs);
    NoDupDistinct(ids, |ids|);
    assert SweepReady(env, st0, ids);
    SweepNotAborted(run, env, st0, ids, |ids|);
    SweepFrame(run, env, st0, ids, |ids|);
    var st := RunSweep(run, env, st0, ids);
    forall id | id in st0.jobs && st0.jobs[id].status == Queued && id in order
      ensures st.jobs[id].status == Finished && |st.jobs[id].results| == |st.jobs[id].items|
    {
      var a :| 0 <= a < |ids| && ids[a] == id;
      SweepCompletes(run, env, st0, ids, |ids|, a);
    }
    forall id | id in st0.jobs && st0.jobs[id].status != Queued
      ensures st.jobs[id] == st0.jobs[id]
    {
      if InPrefix(ids, |ids|, id) {
        InPrefixIn(ids, |ids|, id);
      }
    }
    forall id | id in st.jobs
      ensures st.jobs[id].status != Running
    {
      if InPrefix(ids, |ids|, id) {
        InPrefixIn(ids, |ids|, id);
        var a :| 0 <= a < |ids| && ids[a] == id;
        SweepCompletes(run, env, st0, ids, |ids|, a);
      }
    }
  }
}
