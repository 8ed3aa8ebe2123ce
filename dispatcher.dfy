/** The dispatcher's shared state and its two entry points: processJobs,
    which the polling timer and every submission start, and the /send-bulk
    handler, which validates a request and queues a job. */
module Dispatch {
  import opened Utilities
  import opened Items
  import opened Jobs
  import opened Submission

  /** The job record /send-bulk stores: queued, with no results yet. */
  function NewJob(id: JobId, jobName: string, now: string, items: seq<Item>): (j: Job)
    ensures j.id == id && j.status == Queued && j.items == items && j.results == []
    ensures JobValid(j)
  {
    Job(id, if jobName == "" then None else Some(jobName), Queued, now, None, None, items, [])
  }

  /** The module-level state of the server: the jobs dictionary with its
      key order, the busy flag of processJobs, and, as ghost state, what
      was emitted on socket.io and what was written to the jobs file. */
  class Dispatcher {
    const cfg: Config
    var jobs: Jobs
    var order: seq<JobId>
    var processing: bool
    ghost var events: seq<Event>
    ghost var saves: seq<Jobs>

    /** `order` lists the keys of `jobs` once each, in insertion order (the
        order of Object.keys, since uuid keys are never integer-like), and
        every job satisfies the job invariant. */
    ghost predicate Valid()
      reads this
    {
      && (forall id :: id in jobs <==> id in order)
      && NoDup(order)
      && StoreValid(jobs)
    }

    /** The state a sweep starts from. */
    ghost function State(): SweepState
      reads this
    {
      SweepState(jobs, events, saves, false)
    }

    /** The server at start-up: no job, not processing. */
    constructor (cfg: Config)
      ensures Valid() && this.cfg == cfg && !processing
      ensures jobs == map[] && order == [] && events == [] && saves == []
    {
      this.cfg := cfg;
      jobs := map[];
      order := [];
      processing := false;
      events := [];
      saves := [];
    }

    /** processJobs(). A call that finds the flag set returns at once and
        changes nothing; otherwise the flag is set, the queued jobs are
        taken in key order and run until one throws, and the flag is
        cleared again in every case. */
    method ProcessJobs(env: Env)
      requires !processing ==> Valid()
      modifies this
      decreases if processing then 0 else 5
      ensures old(processing) ==> unchanged(this)
      ensures !old(processing) ==> Valid()
      ensures !old(processing) ==>
        && !processing && order == old(order)
        && var st := RunSweep(ItemRunner(cfg, env), env, old(State()), QueuedIds(old(order), old(jobs)));
           jobs == st.jobs && events == st.events && saves == st.saves
    {
      if processing {
        return;
      }
      processing := true;
      var jobIds := QueuedIds(order, jobs);
      ghost var run := ItemRunner(cfg, env);
      ghost var st0 := State();
      var k := 0;
      var aborted := false;
      while k < |jobIds| && !aborted
        invariant 0 <= k <= |jobIds|
        invariant processing && order == old(order) && Valid()
        invariant SweepPrefix(run, env, st0, jobIds, k) == SweepState(jobs, events, saves, aborted)
      {
        aborted := RunOneJob(env, jobIds[k]);
        k := k + 1;
        SnapshotSweepKeepsValid(run, env, old(order), st0, k);
      }
      if aborted {
        AbortIsFinal(run, env, st0, jobIds, k, |jobIds|);
      }
      processing := false;
    }

    /** One iteration of the job loop: mark the job running and save, walk
        its items, mark it finished and save. The result says whether an
        exception ended the sweep. */
    method RunOneJob(env: Env, id: JobId) returns (aborted: bool)
      requires processing
      modifies this
      decreases 4
      ensures processing && order == old(order) && jobs.Keys == old(jobs).Keys
      ensures SweepState(jobs, events, saves, aborted) == RunJob(ItemRunner(cfg, env), env, old(State()), id)
    {
      if id !in jobs {
        return true;
      }
      var job := jobs[id];
      ghost var before := job;
      var n := |job.items|;
      job := job.(status := Running, startedAt := Some(env.clock(id, AtStart)));
      jobs := jobs[id := job];
      if !env.saveOk(id, AtStart) {
        return true;
      }
      saves := saves + [jobs];
      events := events + [StartedEvent(id, n)];
      RunItemLoop(env, id);
      ghost var out := RunItems(cfg, env, id, before.items);
      assert ItemRunner(cfg, env)(id, before.items) == out;
      job := jobs[id].(status := Finished, finishedAt := Some(env.clock(id, AtFinish)));
      assert job.results == before.results + out.results;
      jobs := jobs[id := job];
      assert jobs == old(jobs)[id := job];
      if !env.saveOk(id, AtFinish) {
        return true;
      }
      saves := saves + [jobs];
      events := events + [FinishedEvent(id, job.results)];
      aborted := false;
    }

    /** The item loop of one job: item by item, the result is pushed onto the
        job's results and the item's events are emitted. While a dispatched
        item's delay is awaited, the polling timer may fire. */
    method RunItemLoop(env: Env, id: JobId)
      requires processing && id in jobs
      modifies this
      decreases 3
      ensures processing && order == old(order) && saves == old(saves)
      ensures var out := RunItems(cfg, env, id, old(jobs[id].items));
        && jobs == PushResults(old(jobs), id, out.results)
        && events == old(events) + out.events
    {
      var items := jobs[id].items;
      var i := 0;
      ghost var body := ItemStepper(cfg, env);
      assert jobs[id].results + [] == jobs[id].results;
      while i < |items|
        invariant 0 <= i <= |items|
        invariant processing && order == old(order) && saves == old(saves)
        invariant jobs == PushResults(old(jobs), id, ResultsFor(body, id, items, i))
        invariant events == old(events) + EventsFor(body, id, items, i)
      {
        var step := RunItem(env, id, i, items[i]);
        PushResultsTwice(old(jobs), id, ResultsFor(body, id, items, i), [step.result]);
        assert old(events) + EventsFor(body, id, items, i) + step.events
            == old(events) + (EventsFor(body, id, items, i) + step.events);
        i := i + 1;
      }
    }

    /** One pass of the item loop body: dispatch item i, record it, and, when
        it was dispatched, await its delay, during which the polling timer
        may fire. */
    method RunItem(env: Env, id: JobId, i: nat, it: Item) returns (step: ItemStep)
      requires processing && id in jobs
      modifies this
      decreases 2
      ensures step == ItemStepper(cfg, env)(id, i, it)
      ensures processing && order == old(order) && saves == old(saves)
      ensures jobs == PushResults(old(jobs), id, [step.result]) && events == old(events) + step.events
    {
      step := DispatchItem(cfg, env, id, i, it);
      Record(id, step);
      if !step.result.Error? && env.timerFires(id, i) {
        TimerTick(env);
      }
    }

    /** Recording one item: its result is pushed onto the job's results and
        its events are emitted; nothing else changes. */
    method Record(id: JobId, step: ItemStep)
      requires id in jobs
      modifies this
      ensures processing == old(processing) && order == old(order) && saves == old(saves)
      ensures jobs == PushResults(old(jobs), id, [step.result]) && events == old(events) + step.events
    {
      jobs := PushResults(jobs, id, [step.result]);
      events := events + step.events;
    }

    /** The polling timer firing while a sweep is under way: processJobs is
        called again and finds the flag set. */
    method TimerTick(env: Env)
      requires processing
      modifies this
      decreases 1
      ensures unchanged(this)
    {
      ProcessJobs(env);
    }

    /** The /send-bulk handler after authentication and upload: check the
        request and attach uploaded files to its items, store a
        queued job under the fresh id `freshId` at time `now`, save the jobs
        file (which succeeds when `saveOk`) and announce the job. A save
        that throws answers 500, yet the job stays in memory. */
    method SendBulk(req: Request, freshId: JobId, now: string, saveOk: bool) returns (resp: Response)
      requires Valid()
      modifies this
      ensures Valid() && processing == old(processing)
      ensures match CheckRequest(cfg.uploadDir, req)
        case Rejected(r) => resp == r && unchanged(this)
        case ItemsOk(items) =>
          && jobs == old(jobs)[freshId := NewJob(freshId, req.jobName, now, items)]
          && order == (if freshId in old(jobs) then old(order) else old(order) + [freshId])
          && (saveOk ==> && resp == AcceptedFor(freshId)
                         && saves == old(saves) + [jobs]
                         && events == old(events) + [QueuedEvent(freshId, |items|)])
          && (!saveOk ==> resp == ServerError && saves == old(saves) && events == old(events))
    {
      var checked := ValidateRequest(cfg.uploadDir, req);
      if checked.Rejected? {
        return checked.response;
      }
      var items := checked.items;
      var job := NewJob(freshId, req.jobName, now, items);
      if freshId !in jobs {
        order := order + [freshId];
      }
      jobs := jobs[freshId := job];
      if !saveOk {
        return ServerError;
      }
      saves := saves + [jobs];
      events := events + [QueuedEvent(freshId, |items|)];
      resp := AcceptedFor(freshId);
    }
  }
}
