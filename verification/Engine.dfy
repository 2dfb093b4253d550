/** `IronDefer::start`: poll, drain with a timeout, abort, release. */
module Engine {
  import Domain
  import Store
  import PollLoop
  import TaskRepository

  /** How the drain goes: the dispatches that end while it waits, whether its
      timeout fires first, and whether the release reaches the database. */
  datatype Drain = Drain(ends: seq<nat>, timesOut: bool, releaseReaches: bool)

  class IronDefer {
    var started: bool
    const settings: PollLoop.Settings

    constructor (settings: PollLoop.Settings)
      ensures !started && this.settings == settings
    {
      this.settings := settings;
      started := false;
    }

    /** Runs one worker until its token is cancelled at the end of `turns`. The
        repository is the table as the release finds it. */
    method Start(repo: TaskRepository.PostgresTaskRepository, workerId: Domain.WorkerId, turns: seq<PollLoop.Turn>,
                 drain: Drain, now: Domain.Time)
      returns (result: Domain.Result<PollLoop.WorkerService>)
      requires repo.Valid()
      modifies this`started, repo
      ensures started && repo.Valid()
      ensures old(started) ==>
                result == Domain.Err(Domain.AlreadyStarted) && repo.Contents() == old(repo.Contents())
      ensures !old(started) ==> (result.Ok? <==> settings.concurrency > 0)
      ensures result.Err? ==> repo.Contents() == old(repo.Contents())
      ensures result.Ok? ==>
                && fresh(result.value) && result.value.config == settings
                && result.value.joinSet == [] && !result.value.permitHeld && result.value.available == settings.concurrency
                && repo.Contents() == if drain.timesOut && drain.releaseReaches
                                      then Store.Commit(old(repo.Contents()), Store.ReleaseWorker(workerId), now)
                                      else old(repo.Contents())
    {
      if started {
        return Domain.Err(Domain.AlreadyStarted);
      }
      started := true;
      var worker := new PollLoop.WorkerService(settings);
      var ok := worker.RunPollLoop(turns);
      if !ok {
        return Domain.Err(Domain.InvalidPayload("worker concurrency must be >= 1"));
      }
      ghost var polled := worker.Snapshot();
      worker.EndDispatches(drain.ends);
      PollLoop.EndAllConserves(polled, drain.ends, settings.concurrency);
      if !drain.timesOut {
        worker.DrainJoinSet();
      } else {
        AbortAll(worker);
        worker.DrainJoinSet();
        if drain.releaseReaches {
          var released := repo.ReleaseLeasesForWorker(workerId, now);
        }
      }
      result := Domain.Ok(worker);
    }

    /** `join_set.abort_all()`: every future is dropped, and its permit with it. */
    method AbortAll(worker: PollLoop.WorkerService)
      requires worker.available + PollLoop.Active(worker.joinSet) == worker.config.concurrency && !worker.permitHeld
      modifies worker`available, worker`joinSet
      ensures PollLoop.Active(worker.joinSet) == 0 && worker.available == worker.config.concurrency
      ensures |worker.joinSet| == |old(worker.joinSet)|
    {
      ghost var jobs := worker.joinSet;
      for j := 0 to |worker.joinSet|
        invariant |worker.joinSet| == |jobs|
        invariant worker.available + PollLoop.Active(worker.joinSet) == worker.config.concurrency
        invariant forall k :: 0 <= k < j ==> !worker.joinSet[k]
      {
        PollLoop.EndConserves(worker.Snapshot(), j, worker.config.concurrency);
        if worker.joinSet[j] {
          worker.joinSet := worker.joinSet[j := false];
          worker.available := worker.available + 1;
        }
      }
      NoneActive(worker.joinSet);
    }
  }

  lemma {:induction false} NoneActive(jobs: seq<bool>)
    requires forall k :: 0 <= k < |jobs| ==> !jobs[k]
    ensures PollLoop.Active(jobs) == 0
  {
    if jobs != [] {
      NoneActive(jobs[..|jobs| - 1]);
    }
  }
}
