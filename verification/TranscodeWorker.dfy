/** How a worker ends its job: the one closing write that follows an encode, made against the repository. */
module TranscodeWorker {
  import opened MediaTables
  import opened JobRepository
  import opened Fencing

  /**
   * `x` is where the worker `w` stands after its encode, `asset` what its claim returned for the job. The write
   * is the cluster's Close step: none when a heartbeat has found the job stolen or the success is written already.
   */
  method CloseJob(repo: Repo, w: nat, x: Worker, asset: nat, max: int, dbOk: bool, shutdown: bool, ghost c: Cluster)
    requires c.m == repo.View() && w < |c.workers| && c.workers[w] == x && (x.Reported? || x.Returned?)
    requires x.job < |repo.jobs| && asset == repo.jobs[x.job].asset
    modifies repo
    ensures repo.View() == Next(c, max, Close(w, dbOk, shutdown)).m
  {
    if x.stolen || x.Reported? {
      return;
    }
    if x.rejects {
      if dbOk {
        var _ := repo.Reject(x.job, asset, w);
      }
      return;
    }
    var retryable := x.attempt < max && !shutdown;
    if dbOk {
      var _ := repo.Fail(x.job, w, retryable);
    }
  }

  /** The last statement of an encode that went well; whether it is recorded decides what is left to close. */
  method ReportSuccess(repo: Repo, w: nat, x: Worker, asset: nat, max: int, master: string, dbOk: bool, ghost c: Cluster)
    returns (next: Worker)
    requires c.m == repo.View() && w < |c.workers| && c.workers[w] == x && x.Encoding?
    requires x.job < |repo.jobs| && asset == repo.jobs[x.job].asset
    modifies repo
    ensures repo.View() == Next(c, max, CallSucceed(w, master, dbOk)).m
    ensures next == Next(c, max, CallSucceed(w, master, dbOk)).workers[w]
  {
    var lost := true;
    if dbOk {
      lost := repo.Succeed(x.job, asset, w, master);
    }
    if lost {
      return Returned(x.job, x.attempt, x.stolen, false);
    }
    return Reported(x.job, x.attempt, x.stolen);
  }
}
