/**
 * Any number of transcode workers against one job table: claims, heartbeats, expired leases, stale
 * workers that still call in, crashes and database errors, as interleaved steps.
 */
module Fencing {
  import opened Results
  import opened MediaTables
  import opened Sums

  /**
   * Where a worker stands in process(). `Encoding`: runJob is under way; `Reported`: its Succeed has
   * committed; `Returned`: runJob returned an error and the one closing write is still to come.
   * `stolen` records that a heartbeat matched no row.
   */
  datatype Worker =
    | Idle
    | Encoding(job: nat, attempt: nat, stolen: bool)
    | Reported(job: nat, attempt: nat, stolen: bool)
    | Returned(job: nat, attempt: nat, stolen: bool, rejects: bool)
    | Dead

  /** The tables, the workers, and per job how many retryable failures and expired claims took effect. */
  datatype Cluster = Cluster(m: Media, workers: seq<Worker>, retries: seq<nat>, reclaims: seq<nat>)

  datatype Step =
    | AddAsset
    | Upload(asset: nat)
    | Enqueue(asset: nat)
    | Join
    | Claim(w: nat, j: nat, now: int, ttl: int)
    | Beat(w: nat, now: int, ttl: int, dbOk: bool)
    | CallSucceed(w: nat, master: string, dbOk: bool)
    | EncodeFails(w: nat, rejects: bool)
    | Close(w: nat, dbOk: bool, shutdown: bool)
    | Crash(w: nat)

  function Busy(c: Cluster, w: nat): bool {
    w < |c.workers| && (c.workers[w].Encoding? || c.workers[w].Reported? || c.workers[w].Returned?)
  }

  /** The row the worker's job id refers to, when it refers to one. */
  function AssetOf(c: Cluster, j: nat): nat {
    if j < |c.m.jobs| then c.m.jobs[j].asset else 0
  }

  function Bump(counts: seq<nat>, j: nat): seq<nat> {
    if j < |counts| then counts[j := counts[j] + 1] else counts
  }

  /** Whether the worker may try again, as its configuration of MaxAttempts says. */
  predicate Retryable(attempt: nat, max: int, shutdown: bool) {
    attempt < max && !shutdown
  }

  function Next(c: Cluster, max: int, s: Step): Cluster {
    match s
    case AddAsset => c.(m := MediaTables.AddAsset(c.m))
    case Upload(a) => c.(m := MarkUploaded(c.m, a))
    case Enqueue(a) =>
      var m := MediaTables.Enqueue(c.m, a, PIPELINE_VERSION);
      if |m.jobs| == |c.m.jobs| then c
      else c.(m := m, retries := c.retries + [0], reclaims := c.reclaims + [0])
    case Join => c.(workers := c.workers + [Idle])
    case Claim(w, j, now, ttl) =>
      if w < |c.workers| && c.workers[w].Idle? && j < |c.m.jobs| && Claimable(c.m.jobs[j], now) then
        var m := MediaTables.Claim(c.m, j, w, now, ttl);
        c.(m := m,
           workers := c.workers[w := Encoding(j, m.jobs[j].attempt, false)],
           reclaims := if c.m.jobs[j].status == Running then Bump(c.reclaims, j) else c.reclaims)
      else c
    case Beat(w, now, ttl, dbOk) =>
      if !Busy(c, w) || c.workers[w].stolen || !dbOk then c
      else if BeatMatches(c.m, c.workers[w].job, w) then
        c.(m := MediaTables.Heartbeat(c.m, c.workers[w].job, w, now, ttl))
      else c.(workers := c.workers[w := c.workers[w].(stolen := true)])
    case CallSucceed(w, master, dbOk) =>
      if w >= |c.workers| || !c.workers[w].Encoding? then c
      else
        var x := c.workers[w];
        if dbOk && Fenced(c.m, x.job, w) then
          c.(m := Succeed(c.m, x.job, AssetOf(c, x.job), w, master),
             workers := c.workers[w := Reported(x.job, x.attempt, x.stolen)])
        else c.(workers := c.workers[w := Returned(x.job, x.attempt, x.stolen, false)])
    case EncodeFails(w, rejects) =>
      if w >= |c.workers| || !c.workers[w].Encoding? then c
      else
        var x := c.workers[w];
        c.(workers := c.workers[w := Returned(x.job, x.attempt, x.stolen, rejects)])
    case Close(w, dbOk, shutdown) =>
      if w >= |c.workers| || !(c.workers[w].Reported? || c.workers[w].Returned?) then c
      else
        var x := c.workers[w];
        var c1 := c.(workers := c.workers[w := Idle]);
        if x.Reported? || x.stolen || !dbOk then c1
        else if x.rejects then c1.(m := Reject(c.m, x.job, AssetOf(c, x.job), w))
        else
          var retry := Retryable(x.attempt, max, shutdown);
          c1.(m := Fail(c.m, x.job, w, retry),
              retries := if retry && Fenced(c.m, x.job, w) then Bump(c.retries, x.job) else c.retries)
    case Crash(w) => if w < |c.workers| then c.(workers := c.workers[w := Dead]) else c
  }

  function Run(c: Cluster, max: int, steps: seq<Step>): Cluster
    decreases |steps|
  {
    if steps == [] then c else Run(Next(c, max, steps[0]), max, steps[1..])
  }

  const START := Cluster(Media([], [], []), [], [], [])

  // ---------------------------------------------------------------- fencing

  /**
   * The worker id on the row tells the attempt: a busy worker whose id is still there holds the job's
   * latest attempt of a running job, or has itself reported success.
   */
  ghost predicate TokensMatch(c: Cluster) {
    forall w: nat | Busy(c, w) ::
      var x := c.workers[w];
      && x.job < |c.m.jobs|
      && x.attempt <= c.m.jobs[x.job].attempt
      && (c.m.jobs[x.job].worker == Some(w) ==>
            && c.m.jobs[x.job].attempt == x.attempt
            && c.m.jobs[x.job].status == if x.Reported? then Succeeded else Running)
  }

  lemma {:induction false} ClaimKeepsTokens(c: Cluster, max: int, s: Step)
    requires TokensMatch(c) && s.Claim?
    ensures TokensMatch(Next(c, max, s))
  {
  }

  lemma {:induction false} CloseKeepsTokens(c: Cluster, max: int, s: Step)
    requires TokensMatch(c) && s.Close?
    ensures TokensMatch(Next(c, max, s))
  {
  }

  lemma {:induction false} SucceedKeepsTokens(c: Cluster, max: int, s: Step)
    requires TokensMatch(c) && s.CallSucceed?
    ensures TokensMatch(Next(c, max, s))
  {
  }

  lemma {:induction false} NextKeepsTokens(c: Cluster, max: int, s: Step)
    requires TokensMatch(c)
    ensures TokensMatch(Next(c, max, s))
  {
    match s
    case Claim(_, _, _, _) => ClaimKeepsTokens(c, max, s);
    case Close(_, _, _) => CloseKeepsTokens(c, max, s);
    case CallSucceed(_, _, _) => SucceedKeepsTokens(c, max, s);
    case _ =>
      var c' := Next(c, max, s);
      forall w: nat | Busy(c', w) && w < |c.workers| && c'.workers[w] == c.workers[w]
        ensures Busy(c, w)
      {
      }
  }

  lemma {:induction false} RunKeepsTokens(c: Cluster, max: int, steps: seq<Step>)
    requires TokensMatch(c)
    ensures TokensMatch(Run(c, max, steps))
    decreases |steps|
  {
    if steps != [] {
      NextKeepsTokens(c, max, steps[0]);
      RunKeepsTokens(Next(c, max, steps[0]), max, steps[1..]);
    }
  }

  /** The step is a call a worker makes about the job it believes it holds. */
  predicate CallsIn(c: Cluster, s: Step) {
    (s.Beat? || s.CallSucceed? || s.Close?) && Busy(c, s.w)
  }

  /** The worker holds the latest attempt of its job, which is running. */
  predicate Holds(c: Cluster, w: nat) {
    && Busy(c, w) && c.workers[w].job < |c.m.jobs|
    && c.m.jobs[c.workers[w].job].worker == Some(w)
    && c.m.jobs[c.workers[w].job].attempt == c.workers[w].attempt
    && c.m.jobs[c.workers[w].job].status == Running
  }

  /** What a call can write: nothing unless the caller holds its job, and then that job's row only. */
  ghost predicate FencedCall(c: Cluster, max: int, s: Step)
    requires CallsIn(c, s)
  {
    var x := c.workers[s.w];
    var m' := Next(c, max, s).m;
    && (Fenced(c.m, x.job, s.w) <==> Fenced(c.m, x.job, s.w) && c.m.jobs[x.job].attempt == x.attempt)
    && (m' != c.m ==> Holds(c, s.w))
    && (x.job < |c.m.jobs| && x.attempt < c.m.jobs[x.job].attempt ==> m' == c.m)
    && |m'.jobs| == |c.m.jobs|
    && forall j: nat | j < |c.m.jobs| && j != x.job :: m'.jobs[j] == c.m.jobs[j]
  }

  lemma {:induction false} CallIsFenced(c: Cluster, max: int, s: Step)
    requires TokensMatch(c) && CallsIn(c, s)
    ensures FencedCall(c, max, s)
  {
  }

  /**
   * In every reachable state: filtering on the worker id is as strong as filtering on worker id and
   * attempt; a heartbeat or terminal write that changes any row comes from the holder of the job's
   * latest attempt, touches that job only, and leaves the others alone; so a stale worker writes nothing.
   */
  lemma {:induction false} FencingTheorem(max: int, steps: seq<Step>, s: Step)
    requires CallsIn(Run(START, max, steps), s)
    ensures FencedCall(Run(START, max, steps), max, s)
  {
    RunKeepsTokens(START, max, steps);
    CallIsFenced(Run(START, max, steps), max, s);
  }

  // ---------------------------------------------------------------- attempts

  /** Attempts are accounted for: retries, expired claims, and the one under way or finished. */
  ghost predicate AttemptsAddUp(c: Cluster, max: int) {
    && |c.retries| == |c.reclaims| == |c.m.jobs|
    && forall j: nat | j < |c.m.jobs| ::
         && c.m.jobs[j].attempt == c.retries[j] + c.reclaims[j] + (if c.m.jobs[j].status == Queued then 0 else 1)
         && (c.retries[j] > 0 ==> c.retries[j] < max)
  }

  lemma {:induction false} ClaimKeepsAttempts(c: Cluster, max: int, s: Step)
    requires AttemptsAddUp(c, max) && s.Claim?
    ensures AttemptsAddUp(Next(c, max, s), max)
  {
  }

  lemma {:induction false} CloseKeepsAttempts(c: Cluster, max: int, s: Step)
    requires TokensMatch(c) && AttemptsAddUp(c, max) && s.Close?
    ensures AttemptsAddUp(Next(c, max, s), max)
  {
  }

  lemma {:induction false} NextKeepsAttempts(c: Cluster, max: int, s: Step)
    requires TokensMatch(c) && AttemptsAddUp(c, max)
    ensures AttemptsAddUp(Next(c, max, s), max)
  {
    match s
    case Claim(_, _, _, _) => ClaimKeepsAttempts(c, max, s);
    case Close(_, _, _) => CloseKeepsAttempts(c, max, s);
    case _ =>
  }

  lemma {:induction false} RunKeepsAttempts(c: Cluster, max: int, steps: seq<Step>)
    requires TokensMatch(c) && AttemptsAddUp(c, max)
    ensures AttemptsAddUp(Run(c, max, steps), max)
    decreases |steps|
  {
    if steps != [] {
      NextKeepsTokens(c, max, steps[0]);
      NextKeepsAttempts(c, max, steps[0]);
      RunKeepsAttempts(Next(c, max, steps[0]), max, steps[1..]);
    }
  }

  /**
   * However leases expire, at most MaxAttempts - 1 retryable failures take effect on a job; its attempt
   * number exceeds MaxAttempts by no more than the number of expired claims.
   */
  lemma {:induction false} RetryBound(max: int, steps: seq<Step>, j: nat)
    requires max >= 1
    requires j < |Run(START, max, steps).m.jobs|
    ensures var c := Run(START, max, steps);
            && |c.retries| == |c.reclaims| == |c.m.jobs|
            && c.retries[j] <= max - 1
            && c.m.jobs[j].attempt <= max + c.reclaims[j]
            && c.m.jobs[j].attempt == c.retries[j] + c.reclaims[j] + (if c.m.jobs[j].status == Queued then 0 else 1)
  {
    RunKeepsAttempts(START, max, steps);
  }

  // ---------------------------------------------------------------- outcomes

  function CompletedFor(a: nat): MediaEvent -> int {
    (e: MediaEvent) => if e.TranscodeCompleted? && e.asset == a then 1 else 0
  }

  function FailedFor(a: nat): MediaEvent -> int {
    (e: MediaEvent) => if e.TranscodeFailed? && e.asset == a then 1 else 0
  }

  function RejectedFor(a: nat): MediaEvent -> int {
    (e: MediaEvent) => if e.TranscodeRejected? && e.asset == a then 1 else 0
  }

  function One(b: bool): int {
    if b then 1 else 0
  }

  /** One job per asset, and per asset exactly the events its job's status stands for. */
  ghost predicate OneOutcome(m: Media) {
    && (forall i: nat, j: nat | i < j < |m.jobs| :: m.jobs[i].asset != m.jobs[j].asset)
    && (forall j: nat | j < |m.jobs| :: m.jobs[j].asset < |m.assets| && m.jobs[j].version == PIPELINE_VERSION)
    && (forall a: nat :: Outcomes(m, a))
  }

  ghost predicate Outcomes(m: Media, a: nat) {
    var j := JobOf(m.jobs, a, PIPELINE_VERSION);
    && Sum(m.outbox, CompletedFor(a)) == One(j.Some? && m.jobs[j.value].status == Succeeded)
    && Sum(m.outbox, FailedFor(a)) == One(j.Some? && m.jobs[j.value].status == JobFailed)
    && Sum(m.outbox, RejectedFor(a)) == One(j.Some? && m.jobs[j.value].status == Cancelled)
  }

  /** A row of the table is the job of its asset. */
  lemma {:induction false} JobIsFound(jobs: seq<Job>, j: nat)
    requires forall i: nat, k: nat | i < k < |jobs| :: jobs[i].asset != jobs[k].asset
    requires j < |jobs| && jobs[j].version == PIPELINE_VERSION
    ensures JobOf(jobs, jobs[j].asset, PIPELINE_VERSION) == Some(j)
  {
  }

  /** Rewriting a job's row, keeping its asset, changes what is found for no asset. */
  lemma {:induction false} JobOfUpdate(jobs: seq<Job>, j: nat, x: Job, a: nat)
    requires j < |jobs| && x.asset == jobs[j].asset && x.version == jobs[j].version
    ensures JobOf(jobs[j := x], a, PIPELINE_VERSION) == JobOf(jobs, a, PIPELINE_VERSION)
  {
    var last := |jobs| - 1;
    if j < last {
      assert jobs[j := x][..last] == jobs[..last][j := x];
      JobOfUpdate(jobs[..last], j, x, a);
    } else {
      assert jobs[j := x][..last] == jobs[..last];
    }
  }

  /** An event appended for asset `a` is counted for `a` alone. */
  lemma {:induction false} EventCounts(outbox: seq<MediaEvent>, e: MediaEvent, a: nat)
    ensures Sum(outbox + [e], CompletedFor(a)) == Sum(outbox, CompletedFor(a)) + CompletedFor(a)(e)
    ensures Sum(outbox + [e], FailedFor(a)) == Sum(outbox, FailedFor(a)) + FailedFor(a)(e)
    ensures Sum(outbox + [e], RejectedFor(a)) == Sum(outbox, RejectedFor(a)) + RejectedFor(a)(e)
  {
    SumAppend(outbox, e, CompletedFor(a));
    SumAppend(outbox, e, FailedFor(a));
    SumAppend(outbox, e, RejectedFor(a));
  }

  /** A job row moves between unfinished states: no outcome changes. */
  lemma {:induction false} UnfinishedKeeps(m: Media, j: nat, x: Job)
    requires OneOutcome(m) && j < |m.jobs| && !Finished(m.jobs[j].status) && !Finished(x.status)
    requires x.asset == m.jobs[j].asset && x.version == m.jobs[j].version
    ensures OneOutcome(m.(jobs := m.jobs[j := x]))
  {
    var m' := m.(jobs := m.jobs[j := x]);
    forall a: nat ensures Outcomes(m', a) {
      assert Outcomes(m, a);
      JobOfUpdate(m.jobs, j, x, a);
    }
  }

  /** A running job finishes with the event of its new status: exactly that outcome appears. */
  lemma {:induction false} FinishingKeeps(m: Media, j: nat, x: Job, e: MediaEvent, assets: seq<Asset>)
    requires OneOutcome(m) && j < |m.jobs| && !Finished(m.jobs[j].status) && |assets| == |m.assets|
    requires x.asset == m.jobs[j].asset && x.version == m.jobs[j].version && e.asset == x.asset
    requires match e
             case TranscodeCompleted(_, _) => x.status == Succeeded
             case TranscodeFailed(_) => x.status == JobFailed
             case TranscodeRejected(_) => x.status == Cancelled
             case MediaUploaded(_) => false
    ensures OneOutcome(Media(m.jobs[j := x], assets, m.outbox + [e]))
  {
    var m' := Media(m.jobs[j := x], assets, m.outbox + [e]);
    forall a: nat ensures Outcomes(m', a) {
      assert Outcomes(m, a);
      JobOfUpdate(m.jobs, j, x, a);
      EventCounts(m.outbox, e, a);
      JobIsFound(m.jobs, j);
    }
  }

  lemma {:induction false} UploadKeepsOutcome(m: Media, a: nat)
    requires OneOutcome(m)
    ensures OneOutcome(MarkUploaded(m, a))
  {
    forall b: nat ensures Outcomes(MarkUploaded(m, a), b) {
      assert Outcomes(m, b);
      EventCounts(m.outbox, MediaUploaded(a), b);
    }
  }

  lemma {:induction false} EnqueueKeepsOutcome(m: Media, a: nat)
    requires OneOutcome(m)
    ensures OneOutcome(MediaTables.Enqueue(m, a, PIPELINE_VERSION))
  {
    var m' := MediaTables.Enqueue(m, a, PIPELINE_VERSION);
    forall b: nat ensures Outcomes(m', b) {
      assert Outcomes(m, b);
      assert |m'.jobs| > |m.jobs| ==> m'.jobs[..|m.jobs|] == m.jobs;
    }
  }

  lemma {:induction false} NextKeepsOutcome(c: Cluster, max: int, s: Step)
    requires TokensMatch(c) && OneOutcome(c.m)
    ensures OneOutcome(Next(c, max, s).m)
  {
    match s
    case AddAsset =>
      forall a: nat ensures Outcomes(MediaTables.AddAsset(c.m), a) {
        assert Outcomes(c.m, a);
      }
    case Upload(a) => UploadKeepsOutcome(c.m, a);
    case Enqueue(a) => EnqueueKeepsOutcome(c.m, a);
    case Claim(w, j, now, ttl) =>
      if Next(c, max, s).m != c.m {
        UnfinishedKeeps(c.m, j, MediaTables.Claim(c.m, j, w, now, ttl).jobs[j]);
      }
    case Beat(w, now, ttl, _) =>
      if Next(c, max, s).m != c.m {
        var j := c.workers[w].job;
        UnfinishedKeeps(c.m, j, MediaTables.Heartbeat(c.m, j, w, now, ttl).jobs[j]);
      }
    case CallSucceed(w, master, _) =>
      if Next(c, max, s).m != c.m {
        var j := c.workers[w].job;
        var m' := Next(c, max, s).m;
        FinishingKeeps(c.m, j, m'.jobs[j], TranscodeCompleted(c.m.jobs[j].asset, master), m'.assets);
      }
    case Close(w, _, shutdown) =>
      if Next(c, max, s).m != c.m {
        CloseKeepsOutcome(c, max, w, shutdown);
      }
    case _ =>
  }

  lemma {:induction false} CloseKeepsOutcome(c: Cluster, max: int, w: nat, shutdown: bool)
    requires TokensMatch(c) && OneOutcome(c.m)
    requires Busy(c, w) && c.workers[w].Returned? && Fenced(c.m, c.workers[w].job, w)
    ensures var x := c.workers[w];
            if x.rejects then OneOutcome(Reject(c.m, x.job, AssetOf(c, x.job), w))
            else OneOutcome(Fail(c.m, x.job, w, Retryable(x.attempt, max, shutdown)))
  {
    var x := c.workers[w];
    var a := c.m.jobs[x.job].asset;
    if x.rejects {
      var m' := Reject(c.m, x.job, AssetOf(c, x.job), w);
      FinishingKeeps(c.m, x.job, m'.jobs[x.job], TranscodeRejected(a), m'.assets);
    } else {
      var m' := Fail(c.m, x.job, w, Retryable(x.attempt, max, shutdown));
      if Retryable(x.attempt, max, shutdown) {
        UnfinishedKeeps(c.m, x.job, m'.jobs[x.job]);
      } else {
        FinishingKeeps(c.m, x.job, m'.jobs[x.job], TranscodeFailed(a), m'.assets);
      }
    }
  }

  lemma {:induction false} RunKeepsOutcome(c: Cluster, max: int, steps: seq<Step>)
    requires TokensMatch(c) && OneOutcome(c.m)
    ensures OneOutcome(Run(c, max, steps).m)
    decreases |steps|
  {
    if steps != [] {
      NextKeepsTokens(c, max, steps[0]);
      NextKeepsOutcome(c, max, steps[0]);
      RunKeepsOutcome(Next(c, max, steps[0]), max, steps[1..]);
    }
  }

  /** Exactly the event of the job's terminal status is in the outbox, once; none before. */
  ghost predicate Told(m: Media, j: nat)
    requires j < |m.jobs|
  {
    var a := m.jobs[j].asset;
    && Sum(m.outbox, CompletedFor(a)) == One(m.jobs[j].status == Succeeded)
    && Sum(m.outbox, FailedFor(a)) == One(m.jobs[j].status == JobFailed)
    && Sum(m.outbox, RejectedFor(a)) == One(m.jobs[j].status == Cancelled)
  }

  lemma {:induction false} OutcomeOfJob(m: Media, j: nat)
    requires OneOutcome(m) && j < |m.jobs|
    ensures Told(m, j)
  {
    JobIsFound(m.jobs, j);
    assert Outcomes(m, m.jobs[j].asset);
  }

  lemma {:induction false} StartIsFine()
    ensures TokensMatch(START) && OneOutcome(START.m) && AssetsShow(START.m)
  {
    NothingIsFine(START.m);
    NobodyIsBusy(START);
  }

  lemma {:induction false} NothingIsFine(m: Media)
    requires m.jobs == [] && m.outbox == []
    ensures OneOutcome(m) && AssetsShow(m)
  {
    forall a: nat ensures Outcomes(m, a) {
      assert JobOf(m.jobs, a, PIPELINE_VERSION) == None;
    }
  }

  lemma {:induction false} NobodyIsBusy(c: Cluster)
    requires c.workers == []
    ensures TokensMatch(c)
  {
  }

  /** Over any run each job has at most one terminal outcome, told by exactly one event once it is terminal. */
  lemma {:induction false} OneTerminalOutcome(max: int, steps: seq<Step>, j: nat)
    requires j < |Run(START, max, steps).m.jobs|
    ensures Told(Run(START, max, steps).m, j)
  {
    StartIsFine();
    RunKeepsOutcome(START, max, steps);
    OutcomeOfJob(Run(START, max, steps).m, j);
  }

  /** A finished job is never claimed, retried or finished again: its row stays as it is. */
  lemma {:induction false} FinishedStays(c: Cluster, max: int, steps: seq<Step>, j: nat)
    requires TokensMatch(c) && j < |c.m.jobs| && Finished(c.m.jobs[j].status)
    ensures j < |Run(c, max, steps).m.jobs| && Run(c, max, steps).m.jobs[j] == c.m.jobs[j]
    decreases |steps|
  {
    if steps != [] {
      NextKeepsTokens(c, max, steps[0]);
      FinishedRowStays(c, max, steps[0], j);
      FinishedStays(Next(c, max, steps[0]), max, steps[1..], j);
    }
  }

  lemma {:induction false} FinishedRowStays(c: Cluster, max: int, s: Step, j: nat)
    requires TokensMatch(c) && j < |c.m.jobs| && Finished(c.m.jobs[j].status)
    ensures j < |Next(c, max, s).m.jobs| && Next(c, max, s).m.jobs[j] == c.m.jobs[j]
  {
  }

  // ---------------------------------------------------------------- asset status

  /** A finished job's asset shows the job's outcome. */
  ghost predicate AssetsShow(m: Media) {
    forall j: nat | j < |m.jobs| && Finished(m.jobs[j].status) ::
      && m.jobs[j].asset < |m.assets|
      && m.assets[m.jobs[j].asset].status ==
           (match m.jobs[j].status
            case Succeeded => Ready
            case JobFailed => AssetFailed
            case _ => Rejected)
      && (m.jobs[j].status == Succeeded ==> m.assets[m.jobs[j].asset].masterKey.Some?)
  }

  /** A second upload completion of an asset whose job is over. */
  predicate LateUpload(m: Media, s: Step) {
    && s.Upload? && s.asset < |m.assets|
    && exists j | 0 <= j < |m.jobs| :: m.jobs[j].asset == s.asset && Finished(m.jobs[j].status)
  }

  lemma {:induction false} LateUploadBreaks(c: Cluster, max: int, s: Step)
    requires LateUpload(c.m, s)
    ensures !AssetsShow(Next(c, max, s).m)
  {
    var j :| 0 <= j < |c.m.jobs| && c.m.jobs[j].asset == s.asset && Finished(c.m.jobs[j].status);
    var m' := Next(c, max, s).m;
    assert m'.jobs[j] == c.m.jobs[j] && m'.assets[s.asset].status == Uploaded;
  }

  lemma {:induction false} OtherStepsKeepAssets(c: Cluster, max: int, s: Step, j: nat)
    requires TokensMatch(c) && OneOutcome(c.m) && !LateUpload(c.m, s)
    requires j < |c.m.jobs| && Finished(c.m.jobs[j].status)
    ensures |Next(c, max, s).m.assets| >= |c.m.assets|
    ensures Next(c, max, s).m.assets[c.m.jobs[j].asset] == c.m.assets[c.m.jobs[j].asset]
  {
  }

  lemma {:induction false} NewlyFinishedShows(c: Cluster, max: int, s: Step, j: nat)
    requires TokensMatch(c) && OneOutcome(c.m)
    requires j < |Next(c, max, s).m.jobs| && Finished(Next(c, max, s).m.jobs[j].status)
    requires j < |c.m.jobs| ==> !Finished(c.m.jobs[j].status)
    ensures var m' := Next(c, max, s).m;
            && m'.jobs[j].asset < |m'.assets|
            && var x := m'.assets[m'.jobs[j].asset];
            && (m'.jobs[j].status == Succeeded ==> x.status == Ready && x.masterKey.Some?)
            && (m'.jobs[j].status == JobFailed ==> x.status == AssetFailed)
            && (m'.jobs[j].status == Cancelled ==> x.status == Rejected)
  {
  }

  /** From a matching state every step keeps the match, except exactly a completion after the job is over. */
  lemma {:induction false} StepKeepsShowing(c: Cluster, max: int, s: Step)
    requires TokensMatch(c) && OneOutcome(c.m) && AssetsShow(c.m)
    ensures AssetsShow(Next(c, max, s).m) <==> !LateUpload(c.m, s)
  {
    if LateUpload(c.m, s) {
      LateUploadBreaks(c, max, s);
    } else {
      var m' := Next(c, max, s).m;
      forall j: nat | j < |m'.jobs| && Finished(m'.jobs[j].status)
        ensures m'.jobs[j].asset < |m'.assets|
        ensures m'.assets[m'.jobs[j].asset].status ==
                  (match m'.jobs[j].status
                   case Succeeded => Ready
                   case JobFailed => AssetFailed
                   case _ => Rejected)
        ensures m'.jobs[j].status == Succeeded ==> m'.assets[m'.jobs[j].asset].masterKey.Some?
      {
        if j < |c.m.jobs| && Finished(c.m.jobs[j].status) {
          FinishedRowStays(c, max, s, j);
          OtherStepsKeepAssets(c, max, s, j);
        } else {
          NewlyFinishedShows(c, max, s, j);
        }
      }
    }
  }

  /** The asset of a finished job was overwritten by a late completion. */
  predicate Overwritten(m: Media, j: nat) {
    && j < |m.jobs| && Finished(m.jobs[j].status)
    && m.jobs[j].asset < |m.assets| && m.assets[m.jobs[j].asset].status == Uploaded
  }

  lemma {:induction false} OverwrittenStays(c: Cluster, max: int, s: Step, j: nat)
    requires TokensMatch(c) && OneOutcome(c.m) && Overwritten(c.m, j)
    ensures Overwritten(Next(c, max, s).m, j)
  {
    FinishedRowStays(c, max, s, j);
    if !LateUpload(c.m, s) {
      OtherStepsKeepAssets(c, max, s, j);
    }
  }

  lemma {:induction false} OverwrittenForGood(c: Cluster, max: int, steps: seq<Step>, j: nat)
    requires TokensMatch(c) && OneOutcome(c.m) && Overwritten(c.m, j)
    ensures Overwritten(Run(c, max, steps).m, j)
    decreases |steps|
  {
    if steps != [] {
      OverwrittenStays(c, max, steps[0], j);
      NextKeepsTokens(c, max, steps[0]);
      NextKeepsOutcome(c, max, steps[0]);
      OverwrittenForGood(Next(c, max, steps[0]), max, steps[1..], j);
    }
  }

  lemma {:induction false} LateUploadOverwrites(c: Cluster, max: int, s: Step) returns (j: nat)
    requires LateUpload(c.m, s)
    ensures Overwritten(Next(c, max, s).m, j)
  {
    j :| 0 <= j < |c.m.jobs| && c.m.jobs[j].asset == s.asset && Finished(c.m.jobs[j].status);
  }

  /** No step of the run is a completion of an upload whose job is over. */
  ghost predicate NeverLate(c: Cluster, max: int, steps: seq<Step>)
    decreases |steps|
  {
    steps == [] || (!LateUpload(c.m, steps[0]) && NeverLate(Next(c, max, steps[0]), max, steps[1..]))
  }

  lemma {:induction false} ShowingRun(c: Cluster, max: int, steps: seq<Step>)
    requires TokensMatch(c) && OneOutcome(c.m) && AssetsShow(c.m)
    ensures AssetsShow(Run(c, max, steps).m) <==> NeverLate(c, max, steps)
    decreases |steps|
  {
    if steps != [] {
      var c1 := Next(c, max, steps[0]);
      NextKeepsTokens(c, max, steps[0]);
      NextKeepsOutcome(c, max, steps[0]);
      if LateUpload(c.m, steps[0]) {
        var j := LateUploadOverwrites(c, max, steps[0]);
        OverwrittenForGood(c1, max, steps[1..], j);
      } else {
        StepKeepsShowing(c, max, steps[0]);
        ShowingRun(c1, max, steps[1..]);
      }
    }
  }

  /**
   * Upload completion has no status guard: after a whole run the assets show their jobs' outcomes exactly
   * when no step of the run completed the upload of an asset whose job was over.
   */
  lemma {:induction false} AssetsShowUnlessLate(max: int, steps: seq<Step>)
    ensures AssetsShow(Run(START, max, steps).m) <==> NeverLate(START, max, steps)
  {
    StartIsFine();
    ShowingRun(START, max, steps);
  }

  // ---------------------------------------------------------------- enqueueing

  lemma {:induction false} JobRowKeepsAsset(c: Cluster, max: int, s: Step, j: nat)
    requires j < |c.m.jobs|
    ensures var m' := Next(c, max, s).m;
            j < |m'.jobs| && m'.jobs[j].asset == c.m.jobs[j].asset && m'.jobs[j].version == c.m.jobs[j].version
  {
  }

  lemma {:induction false} JobRowsKeepAsset(c: Cluster, max: int, steps: seq<Step>, j: nat)
    requires j < |c.m.jobs|
    ensures var m' := Run(c, max, steps).m;
            j < |m'.jobs| && m'.jobs[j].asset == c.m.jobs[j].asset && m'.jobs[j].version == c.m.jobs[j].version
    decreases |steps|
  {
    if steps != [] {
      JobRowKeepsAsset(c, max, steps[0], j);
      JobRowsKeepAsset(Next(c, max, steps[0]), max, steps[1..], j);
    }
  }

  /**
   * An uploaded asset enqueued once has its one job for good: whatever happens then, enqueueing it again
   * finds that row and changes nothing, not even a finished or running job's.
   */
  lemma {:induction false} RepeatedEnqueue(max: int, steps: seq<Step>, more: seq<Step>, a: nat)
    requires a < |Run(START, max, steps).m.assets|
    ensures var c := Next(Run(START, max, steps), max, Enqueue(a));
            && JobOf(c.m.jobs, a, PIPELINE_VERSION).Some?
            && Stays(c, max, more, a, JobOf(c.m.jobs, a, PIPELINE_VERSION).value)
  {
    var before := Run(START, max, steps);
    assert TokensMatch(before) && OneOutcome(before.m) by {
      StartIsFine();
      RunKeepsTokens(START, max, steps);
      RunKeepsOutcome(START, max, steps);
    }
    EnqueueOnce(before, max, more, a);
  }

  lemma {:induction false} EnqueueOnce(before: Cluster, max: int, more: seq<Step>, a: nat)
    requires TokensMatch(before) && OneOutcome(before.m) && a < |before.m.assets|
    ensures var c := Next(before, max, Enqueue(a));
            && JobOf(c.m.jobs, a, PIPELINE_VERSION).Some?
            && Stays(c, max, more, a, JobOf(c.m.jobs, a, PIPELINE_VERSION).value)
  {
    var c := Next(before, max, Enqueue(a));
    assert TokensMatch(c) by { NextKeepsTokens(before, max, Enqueue(a)); }
    assert OneOutcome(c.m) by { NextKeepsOutcome(before, max, Enqueue(a)); }
    assert JobOf(c.m.jobs, a, PIPELINE_VERSION).Some? by { EnqueuedIsFound(before.m, a); }
    EnqueuedStays(c, max, more, a, JobOf(c.m.jobs, a, PIPELINE_VERSION).value);
  }

  /** After the steps, job j is still the asset's, and another enqueue is no change. */
  ghost predicate Stays(c: Cluster, max: int, more: seq<Step>, a: nat, j: nat) {
    var later := Run(c, max, more);
    JobOf(later.m.jobs, a, PIPELINE_VERSION) == Some(j) && Next(later, max, Enqueue(a)) == later
  }

  lemma {:induction false} EnqueuedStays(c: Cluster, max: int, more: seq<Step>, a: nat, j: nat)
    requires TokensMatch(c) && OneOutcome(c.m) && JobOf(c.m.jobs, a, PIPELINE_VERSION) == Some(j)
    ensures Stays(c, max, more, a, j)
  {
    var later := Run(c, max, more);
    assert OneOutcome(later.m) by { RunKeepsOutcome(c, max, more); }
    JobRowsKeepAsset(c, max, more, j);
    OneRowFound(later.m, j);
  }

  lemma {:induction false} EnqueuedIsFound(m: Media, a: nat)
    requires a < |m.assets|
    ensures JobOf(MediaTables.Enqueue(m, a, PIPELINE_VERSION).jobs, a, PIPELINE_VERSION).Some?
  {
  }

  lemma {:induction false} OneRowFound(m: Media, j: nat)
    requires OneOutcome(m) && j < |m.jobs| && m.jobs[j].version == PIPELINE_VERSION
    ensures JobOf(m.jobs, m.jobs[j].asset, PIPELINE_VERSION) == Some(j)
  {
    JobIsFound(m.jobs, j);
  }
}
