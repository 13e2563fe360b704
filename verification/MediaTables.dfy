/**
 * Media assets, transcode jobs and their outbox rows, and what each statement of the job repository does
 * to them. Row identifiers are positions; created_at order is position order.
 */
module MediaTables {
  import opened Results

  datatype JobStatus = Queued | Running | Succeeded | JobFailed | Cancelled

  predicate Finished(s: JobStatus) {
    s in {Succeeded, JobFailed, Cancelled}
  }

  datatype Job = Job(asset: nat, version: int, status: JobStatus, worker: Option<nat>, lease: Option<int>, attempt: nat)

  datatype AssetStatus = PendingUpload | Uploaded | Ready | Rejected | AssetFailed

  datatype Asset = Asset(status: AssetStatus, masterKey: Option<string>)

  datatype MediaEvent =
    | MediaUploaded(asset: nat)
    | TranscodeCompleted(asset: nat, masterKey: string)
    | TranscodeFailed(asset: nat)
    | TranscodeRejected(asset: nat)

  datatype Media = Media(jobs: seq<Job>, assets: seq<Asset>, outbox: seq<MediaEvent>)

  /** The version the consumer enqueues every asset with. */
  const PIPELINE_VERSION: int := 1

  /** Free to claim: queued, or running on a lease that has run out. A NULL lease never has. */
  predicate Claimable(j: Job, now: int) {
    j.status == Queued || (j.status == Running && j.lease.Some? && j.lease.value < now)
  }

  function Claim(m: Media, j: nat, w: nat, now: int, ttl: int): Media {
    if j < |m.jobs| && Claimable(m.jobs[j], now)
    then m.(jobs := m.jobs[j := m.jobs[j].(status := Running, worker := Some(w), lease := Some(now + ttl),
                                           attempt := m.jobs[j].attempt + 1)])
    else m
  }

  /** The WHERE clause shared by the terminal writes: only the worker id is compared. */
  predicate Fenced(m: Media, j: nat, w: nat) {
    j < |m.jobs| && m.jobs[j].worker == Some(w)
  }

  predicate BeatMatches(m: Media, j: nat, w: nat) {
    Fenced(m, j, w) && m.jobs[j].status == Running
  }

  function Heartbeat(m: Media, j: nat, w: nat, now: int, ttl: int): Media {
    if BeatMatches(m, j, w) then m.(jobs := m.jobs[j := m.jobs[j].(lease := Some(now + ttl))]) else m
  }

  function SetAsset(assets: seq<Asset>, a: nat, x: Asset): seq<Asset> {
    if a < |assets| then assets[a := x] else assets
  }

  /** The three terminal writes: job, asset and outbox in one transaction, or nothing when the job was stolen. */
  function Succeed(m: Media, j: nat, a: nat, w: nat, master: string): Media {
    if !Fenced(m, j, w) then m
    else Media(m.jobs[j := m.jobs[j].(status := Succeeded, lease := None)],
               SetAsset(m.assets, a, Asset(Ready, Some(master))),
               m.outbox + [TranscodeCompleted(a, master)])
  }

  function Fail(m: Media, j: nat, w: nat, retryable: bool): Media {
    if !Fenced(m, j, w) then m
    else if retryable then
      m.(jobs := m.jobs[j := m.jobs[j].(status := Queued, worker := None, lease := None)])
    else
      var a := m.jobs[j].asset;
      Media(m.jobs[j := m.jobs[j].(status := JobFailed, lease := None)],
            if a < |m.assets| then m.assets[a := m.assets[a].(status := AssetFailed)] else m.assets,
            m.outbox + [TranscodeFailed(a)])
  }

  function Reject(m: Media, j: nat, a: nat, w: nat): Media {
    if !Fenced(m, j, w) then m
    else Media(m.jobs[j := m.jobs[j].(status := Cancelled, lease := None)],
               if a < |m.assets| then m.assets[a := m.assets[a].(status := Rejected)] else m.assets,
               m.outbox + [TranscodeRejected(a)])
  }

  function JobOf(jobs: seq<Job>, asset: nat, version: int): (r: Option<nat>)
    ensures r.Some? ==> r.value < |jobs| && jobs[r.value].asset == asset && jobs[r.value].version == version
    ensures r.None? ==> forall j :: 0 <= j < |jobs| ==> jobs[j].asset != asset || jobs[j].version != version
  {
    var last := |jobs| - 1;
    if jobs == [] then None
    else if jobs[last].asset == asset && jobs[last].version == version then Some(last)
    else JobOf(jobs[..last], asset, version)
  }

  /** One job per asset and version: enqueueing again finds the old row and leaves it as it is. */
  function Enqueue(m: Media, asset: nat, version: int): Media {
    if asset >= |m.assets| || JobOf(m.jobs, asset, version).Some? then m
    else m.(jobs := m.jobs + [Job(asset, version, Queued, None, None, 0)])
  }

  function AddAsset(m: Media): Media {
    m.(assets := m.assets + [Asset(PendingUpload, None)])
  }

  /** Flips the asset to UPLOADED whatever its status was. */
  function MarkUploaded(m: Media, a: nat): Media {
    if a >= |m.assets| then m
    else m.(assets := m.assets[a := m.assets[a].(status := Uploaded)], outbox := m.outbox + [MediaUploaded(a)])
  }

  /** The row the claim query picks: the oldest queued one, else the oldest expired one, skipping locked rows. */
  function NextQueued(jobs: seq<Job>, locked: set<nat>, i: nat): (r: Option<nat>)
    requires i <= |jobs|
    ensures r.Some? ==> i <= r.value < |jobs| && jobs[r.value].status == Queued && r.value !in locked
    ensures r.Some? ==> forall k :: i <= k < r.value ==> jobs[k].status != Queued || k in locked
    ensures r.None? ==> forall k :: i <= k < |jobs| ==> jobs[k].status != Queued || k in locked
    decreases |jobs| - i
  {
    if i == |jobs| then None
    else if jobs[i].status == Queued && i !in locked then Some(i)
    else NextQueued(jobs, locked, i + 1)
  }

  function NextExpired(jobs: seq<Job>, locked: set<nat>, now: int, i: nat): (r: Option<nat>)
    requires i <= |jobs|
    ensures r.Some? ==> i <= r.value < |jobs| && jobs[r.value].status == Running
                        && Claimable(jobs[r.value], now) && r.value !in locked
    ensures r.Some? ==> forall k :: i <= k < r.value ==>
                          jobs[k].status != Running || !Claimable(jobs[k], now) || k in locked
    ensures r.None? ==> forall k :: i <= k < |jobs| ==>
                          jobs[k].status != Running || !Claimable(jobs[k], now) || k in locked
    decreases |jobs| - i
  {
    if i == |jobs| then None
    else if jobs[i].status == Running && Claimable(jobs[i], now) && i !in locked then Some(i)
    else NextExpired(jobs, locked, now, i + 1)
  }
}
