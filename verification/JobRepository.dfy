/** The job repository: statements that rewrite job, asset and outbox rows in place. */
module JobRepository {
  import opened Results
  import opened MediaTables

  class Repo {
    var jobs: seq<Job>
    var assets: seq<Asset>
    var outbox: seq<MediaEvent>

    constructor ()
      ensures View() == Media([], [], [])
    {
      jobs, assets, outbox := [], [], [];
    }

    function View(): Media
      reads this
    {
      Media(jobs, assets, outbox)
    }

    /** Rows other transactions hold locked are skipped, so two workers never take the same row. */
    method Claim(w: nat, now: int, ttl: int, locked: set<nat>) returns (claimed: Option<nat>)
      modifies this
      ensures claimed.None? ==>
                View() == old(View())
                && forall k :: 0 <= k < |old(jobs)| && k !in locked ==> !Claimable(old(jobs)[k], now)
      ensures claimed.Some? ==>
                && claimed.value < |old(jobs)| && claimed.value !in locked && Claimable(old(jobs)[claimed.value], now)
                && View() == MediaTables.Claim(old(View()), claimed.value, w, now, ttl)
      ensures claimed.Some? && old(jobs)[claimed.value].status == Running ==>
                forall k :: 0 <= k < |old(jobs)| && k !in locked ==> old(jobs)[k].status != Queued
      ensures claimed.Some? ==>
                forall k :: 0 <= k < claimed.value && k !in locked && Claimable(old(jobs)[k], now) ==>
                  old(jobs)[k].status != old(jobs)[claimed.value].status
    {
      claimed := NextQueued(jobs, locked, 0);
      if claimed.None? {
        claimed := NextExpired(jobs, locked, now, 0);
      }
      if claimed.Some? {
        var j := claimed.value;
        jobs := jobs[j := jobs[j].(status := Running, worker := Some(w), lease := Some(now + ttl),
                                   attempt := jobs[j].attempt + 1)];
      }
    }

    method Heartbeat(j: nat, w: nat, now: int, ttl: int) returns (matched: bool)
      modifies this
      ensures View() == MediaTables.Heartbeat(old(View()), j, w, now, ttl)
      ensures matched == BeatMatches(old(View()), j, w)
    {
      matched := j < |jobs| && jobs[j].worker == Some(w) && jobs[j].status == Running;
      if matched {
        jobs := jobs[j := jobs[j].(lease := Some(now + ttl))];
      }
    }

    /** stolen: no row matched and the transaction was rolled back. */
    method Succeed(j: nat, a: nat, w: nat, master: string) returns (stolen: bool)
      modifies this
      ensures View() == MediaTables.Succeed(old(View()), j, a, w, master)
      ensures stolen == !Fenced(old(View()), j, w)
    {
      if j >= |jobs| || jobs[j].worker != Some(w) {
        return true;
      }
      jobs := jobs[j := jobs[j].(status := Succeeded, lease := None)];
      if a < |assets| {
        assets := assets[a := Asset(Ready, Some(master))];
      }
      outbox := outbox + [TranscodeCompleted(a, master)];
      return false;
    }

    /** A retryable failure that matches no row is not an error. */
    method Fail(j: nat, w: nat, retryable: bool) returns (stolen: bool)
      modifies this
      ensures View() == MediaTables.Fail(old(View()), j, w, retryable)
      ensures stolen == (!retryable && !Fenced(old(View()), j, w))
    {
      if j >= |jobs| || jobs[j].worker != Some(w) {
        return !retryable;
      }
      if retryable {
        jobs := jobs[j := jobs[j].(status := Queued, worker := None, lease := None)];
        return false;
      }
      var a := jobs[j].asset;
      jobs := jobs[j := jobs[j].(status := JobFailed, lease := None)];
      if a < |assets| {
        assets := assets[a := assets[a].(status := AssetFailed)];
      }
      outbox := outbox + [TranscodeFailed(a)];
      return false;
    }

    method Reject(j: nat, a: nat, w: nat) returns (stolen: bool)
      modifies this
      ensures View() == MediaTables.Reject(old(View()), j, a, w)
      ensures stolen == !Fenced(old(View()), j, w)
    {
      if j >= |jobs| || jobs[j].worker != Some(w) {
        return true;
      }
      jobs := jobs[j := jobs[j].(status := Cancelled, lease := None)];
      if a < |assets| {
        assets := assets[a := assets[a].(status := Rejected)];
      }
      outbox := outbox + [TranscodeRejected(a)];
      return false;
    }

    /** Returns the id of the one job for this asset and version; None when the asset does not exist. */
    method Enqueue(asset: nat, version: int) returns (id: Option<nat>)
      modifies this
      ensures View() == MediaTables.Enqueue(old(View()), asset, version)
      ensures id.Some? <==> asset < |assets|
      ensures id.Some? ==> id.value < |jobs| && jobs[id.value].asset == asset && jobs[id.value].version == version
      ensures id.Some? && id.value < |old(jobs)| ==> jobs == old(jobs)
    {
      if asset >= |assets| {
        return None;
      }
      id := JobOf(jobs, asset, version);
      if id.None? {
        jobs := jobs + [Job(asset, version, Queued, None, None, 0)];
        id := Some(|jobs| - 1);
      }
    }
  }
}
