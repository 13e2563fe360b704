/**
 * Any number of upload runs, of the same asset or of different ones, one upload at a time, stale workers
 * included. What a store holds after any of them, and when a readable master leads to nothing missing.
 */
module Atomicity {
  import opened Results
  import opened Paths
  import opened Playlists
  import opened Playback
  import opened Publication
  import opened Encodes

  // ---------------------------------------------------------------- interleaved runs

  /**
   * A run under way: its uploads, where those of each rung begin, and how many are done. A stolen job's run
   * goes on like any other.
   */
  datatype UploadRun = UploadRun(asset: string, dirs: seq<seq<File>>, starts: seq<nat>, plan: seq<Put>, done: nat)

  datatype State = State(store: Store, runs: seq<UploadRun>, ready: map<string, PlaybackAsset>)

  datatype Event =
    | Starts(asset: string, dirs: seq<seq<File>>, poster: Option<string>)
    | Uploads(run: nat)
    | Dies(run: nat)
    | Succeeds(run: nat)

  function RunOf(world: World, a: string, dirs: seq<seq<File>>, poster: Option<string>): UploadRun
    requires |dirs| == |world.of(a).ladder|
  {
    UploadRun(a, dirs, StartsOf(Prefixes(a, world.v, world.of(a).ladder), dirs, |dirs|),
              Plan(a, world.v, world.Output(a, dirs), poster), 0)
  }

  function StartsOf(prefixes: seq<string>, dirs: seq<seq<File>>, n: nat): (starts: seq<nat>)
    requires n <= |prefixes| == |dirs|
    ensures |starts| == n && forall i | 0 <= i < n :: starts[i] == Offset(prefixes, dirs, i)
  {
    if n == 0 then [] else StartsOf(prefixes, dirs, n - 1) + [Offset(prefixes, dirs, n - 1)]
  }

  function AfterUpload(store: Store, p: Put): Store {
    store[p.key := p.content]
  }

  /** The next upload of run i. */
  function Uploaded(s: State, i: nat): State {
    if i >= |s.runs| || s.runs[i].done >= |s.runs[i].plan| then s
    else
      s.(store := AfterUpload(s.store, s.runs[i].plan[s.runs[i].done]),
         runs := s.runs[i := s.runs[i].(done := s.runs[i].done + 1)])
  }

  function Died(s: State, i: nat): State {
    if i >= |s.runs| then s else s.(runs := s.runs[..i] + s.runs[i + 1..])
  }

  /** Run i has uploaded everything, and its asset becomes READY. */
  function Succeeded(world: World, s: State, i: nat): State {
    if i >= |s.runs| || s.runs[i].done < |s.runs[i].plan| then s
    else
      var a := s.runs[i].asset;
      s.(ready := s.ready[a := AssetRow(a, world.v, world.of(a).ladder)], runs := s.runs[..i] + s.runs[i + 1..])
  }

  ghost function Next(world: World, s: State, e: Event): State {
    match e
    case Starts(asset, dirs, poster) =>
      if world.Known(asset) && world.Encode(asset, dirs) then s.(runs := s.runs + [RunOf(world, asset, dirs, poster)])
      else s
    case Uploads(i) => Uploaded(s, i)
    case Dies(i) => Died(s, i)
    case Succeeds(i) => Succeeded(world, s, i)
  }

  ghost function Play(world: World, s: State, es: seq<Event>): State
    decreases |es|
  {
    if es == [] then s else Play(world, Next(world, s, es[0]), es[1..])
  }

  const START := State(map[], [], map[])

  // ---------------------------------------------------------------- the invariant

  ghost predicate AllStored(world: World, store: Store, a: string, dirs: seq<seq<File>>) {
    forall i: nat, j: nat | RungAt(world, a, i) && i < |dirs| && j < |dirs[i]| ::
      KeyOf(world, a, i, dirs[i][j].name) in store
  }

  /** A stored index came with an encode whose files up to the index are stored. */
  ghost predicate WroteIndex(world: World, store: Store, a: string, i: nat, dirs: seq<seq<File>>)
    requires RungAt(world, a, i)
  {
    && world.Encode(a, dirs)
    && KeyOf(world, a, i, INDEX) in store && store[KeyOf(world, a, i, INDEX)] == IndexText(dirs[i])
    && forall j | 0 <= j < Place(dirs[i], INDEX) :: KeyOf(world, a, i, dirs[i][j].name) in store
  }

  ghost predicate IndexFrom(world: World, store: Store, a: string, i: nat)
    requires RungAt(world, a, i)
  {
    KeyOf(world, a, i, INDEX) in store ==> exists dirs :: WroteIndex(world, store, a, i, dirs)
  }

  ghost predicate IndexesFrom(world: World, store: Store, a: string) {
    forall i: nat | RungAt(world, a, i) :: IndexFrom(world, store, a, i)
  }

  /** A stored master is the asset's, and some encode of it is stored whole. */
  ghost predicate MasterFrom(world: World, store: Store, a: string) {
    MasterKey(a, world.v) in store ==>
      && store[MasterKey(a, world.v)] == MasterText(world.of(a).ladder, world.of(a).w, world.of(a).h)
      && exists dirs :: world.Encode(a, dirs) && AllStored(world, store, a, dirs)
  }

  ghost predicate AssetOk(world: World, store: Store, a: string) {
    IndexesFrom(world, store, a) && MasterFrom(world, store, a)
  }

  ghost predicate AssetsOk(world: World, store: Store) {
    forall a | world.Known(a) :: AssetOk(world, store, a)
  }

  predicate DoneStored(store: Store, plan: seq<Put>, done: nat) {
    done <= |plan| && forall k | 0 <= k < done :: plan[k].key in store
  }

  ghost predicate RunOk(world: World, store: Store, r: UploadRun) {
    world.Known(r.asset) && world.Encode(r.asset, r.dirs) && PlanOk(world, r) && DoneStored(store, r.plan, r.done)
  }

  ghost predicate RunsOk(world: World, store: Store, runs: seq<UploadRun>) {
    forall i | 0 <= i < |runs| :: RunOk(world, store, runs[i])
  }

  ghost predicate ReadyOk(world: World, store: Store, ready: map<string, PlaybackAsset>) {
    forall a | a in ready ::
      world.Known(a) && ready[a] == AssetRow(a, world.v, world.of(a).ladder) && MasterKey(a, world.v) in store
  }

  ghost predicate Inv(world: World, s: State) {
    AssetsOk(world, s.store) && RunsOk(world, s.store, s.runs) && ReadyOk(world, s.store, s.ready)
  }

  // ---------------------------------------------------------------- where an upload stands in its plan

  /** Upload k is that of file j of rung i. */
  predicate IsFile(dirs: seq<seq<File>>, starts: seq<nat>, k: nat, i: nat, j: nat) {
    i < |starts| == |dirs| && j < |dirs[i]| && k == starts[i] + j
  }

  /** A run's uploads: rung by rung the files in order, perhaps the poster, and the master last. */
  ghost predicate Plans(world: World, a: string, dirs: seq<seq<File>>, starts: seq<nat>, plan: seq<Put>) {
    && |dirs| == |starts| == |world.of(a).ladder| && |plan| > 0
    && plan[|plan| - 1].key == MasterKey(a, world.v)
    && plan[|plan| - 1].content == MasterText(world.of(a).ladder, world.of(a).w, world.of(a).h)
    && (forall k: nat, i: nat, j: nat | IsFile(dirs, starts, k, i, j) ::
          && k < |plan| - 1
          && plan[k].key == KeyOf(world, a, i, dirs[i][j].name) && plan[k].content == dirs[i][j].content)
    && (forall k: nat | k < |plan| - 1 ::
          plan[k].key == PosterKey(a, world.v) || exists i: nat, j: nat :: IsFile(dirs, starts, k, i, j))
  }

  ghost predicate PlanOk(world: World, r: UploadRun) {
    Plans(world, r.asset, r.dirs, r.starts, r.plan)
  }

  lemma {:induction false} RungPutAt(world: World, a: string, dirs: seq<seq<File>>, i: nat, j: nat)
    requires |dirs| == |world.of(a).ladder| && i < |dirs| && j < |dirs[i]|
    ensures var rungs := AllRungPuts(a, world.v, world.Output(a, dirs));
            var k := Offset(Prefixes(a, world.v, world.of(a).ladder), dirs, i) + j;
            k < |rungs| && rungs[k] == Put(KeyOf(world, a, i, dirs[i][j].name), dirs[i][j].content)
  {
    FileAtPlace(Prefixes(a, world.v, world.of(a).ladder), dirs, i, j, |dirs|);
  }

  lemma {:induction false} PlanParts(rungs: seq<Put>, posters: seq<Put>, last: Put, k: nat)
    requires |posters| <= 1
    ensures var plan := rungs + posters + [last];
            && |rungs| < |plan| && plan[|plan| - 1] == last
            && (k < |rungs| ==> plan[k] == rungs[k])
            && (|rungs| <= k < |plan| - 1 ==> |posters| == 1 && plan[k] == posters[0])
  {
  }

  /** Upload k of the plan, told from the rungs' uploads. */
  lemma {:induction false} PlanAt(world: World, a: string, dirs: seq<seq<File>>, poster: Option<string>, k: nat)
    requires |dirs| == |world.of(a).ladder|
    ensures var rungs, plan := AllRungPuts(a, world.v, world.Output(a, dirs)), RunOf(world, a, dirs, poster).plan;
            && |rungs| < |plan| && plan[|plan| - 1] == MasterPut(a, world.v, world.Output(a, dirs))
            && (k < |rungs| ==> plan[k] == rungs[k])
            && (|rungs| <= k < |plan| - 1 ==> plan[k].key == PosterKey(a, world.v))
  {
    PlanParts(AllRungPuts(a, world.v, world.Output(a, dirs)), PosterPuts(a, world.v, poster),
              MasterPut(a, world.v, world.Output(a, dirs)), k);
  }

  lemma {:induction false} PlanFile(world: World, a: string, dirs: seq<seq<File>>, poster: Option<string>, i: nat,
                                    j: nat)
    requires |dirs| == |world.of(a).ladder| && i < |dirs| && j < |dirs[i]|
    ensures var plan := RunOf(world, a, dirs, poster).plan;
            var k := Offset(Prefixes(a, world.v, world.of(a).ladder), dirs, i) + j;
            k < |plan| - 1 && plan[k] == Put(KeyOf(world, a, i, dirs[i][j].name), dirs[i][j].content)
  {
    RungPutAt(world, a, dirs, i, j);
    PlanAt(world, a, dirs, poster, Offset(Prefixes(a, world.v, world.of(a).ladder), dirs, i) + j);
  }

  lemma {:induction false} RunFile(world: World, a: string, dirs: seq<seq<File>>, poster: Option<string>, k: nat,
                                   i: nat, j: nat)
    requires |dirs| == |world.of(a).ladder| && IsFile(dirs, RunOf(world, a, dirs, poster).starts, k, i, j)
    ensures var plan := RunOf(world, a, dirs, poster).plan;
            k < |plan| - 1 && plan[k] == Put(KeyOf(world, a, i, dirs[i][j].name), dirs[i][j].content)
  {
    PlanFile(world, a, dirs, poster, i, j);
  }

  lemma {:induction false} RunRest(world: World, a: string, dirs: seq<seq<File>>, poster: Option<string>, k: nat)
    requires |dirs| == |world.of(a).ladder| && k < |RunOf(world, a, dirs, poster).plan| - 1
    ensures RunOf(world, a, dirs, poster).plan[k].key == PosterKey(a, world.v)
            || exists i: nat, j: nat :: IsFile(dirs, RunOf(world, a, dirs, poster).starts, k, i, j)
  {
    PlanAt(world, a, dirs, poster, k);
    if k < |AllRungPuts(a, world.v, world.Output(a, dirs))| {
      var i, j := PlaceIsFile(Prefixes(a, world.v, world.of(a).ladder), dirs, |dirs|, k);
      assert IsFile(dirs, RunOf(world, a, dirs, poster).starts, k, i, j);
    }
  }

  lemma {:induction false} RunPlanOk(world: World, a: string, dirs: seq<seq<File>>, poster: Option<string>)
    requires |dirs| == |world.of(a).ladder|
    ensures PlanOk(world, RunOf(world, a, dirs, poster))
  {
    var r := RunOf(world, a, dirs, poster);
    PlanAt(world, a, dirs, poster, 0);
    forall k: nat, i: nat, j: nat | IsFile(r.dirs, r.starts, k, i, j)
      ensures k < |r.plan| - 1 && r.plan[k] == Put(KeyOf(world, a, i, dirs[i][j].name), dirs[i][j].content)
    {
      RunFile(world, a, dirs, poster, k, i, j);
    }
    forall k: nat | k < |r.plan| - 1
      ensures r.plan[k].key == PosterKey(a, world.v) || exists i: nat, j: nat :: IsFile(r.dirs, r.starts, k, i, j)
    {
      RunRest(world, a, dirs, poster, k);
    }
  }

  // ---------------------------------------------------------------- one upload

  /** More objects, and the index as it was: it still has its encode. */
  lemma {:induction false} IndexStays(world: World, store: Store, p: Put, a: string, i: nat)
    requires RungAt(world, a, i) && IndexFrom(world, store, a, i) && p.key != KeyOf(world, a, i, INDEX)
    ensures IndexFrom(world, AfterUpload(store, p), a, i)
  {
    if KeyOf(world, a, i, INDEX) in store {
      var dirs :| WroteIndex(world, store, a, i, dirs);
      assert WroteIndex(world, AfterUpload(store, p), a, i, dirs);
    }
  }

  lemma {:induction false} MasterStays(world: World, store: Store, p: Put, a: string)
    requires MasterFrom(world, store, a) && p.key != MasterKey(a, world.v)
    ensures MasterFrom(world, AfterUpload(store, p), a)
  {
    if MasterKey(a, world.v) in store {
      var dirs :| world.Encode(a, dirs) && AllStored(world, store, a, dirs);
      assert AllStored(world, AfterUpload(store, p), a, dirs);
    }
  }

  lemma {:induction false} FileIsPlain(world: World, a: string, dirs: seq<seq<File>>, i: nat, j: nat)
    requires world.Encode(a, dirs) && i < |dirs| && j < |dirs[i]|
    ensures Plain(dirs[i][j].name) && RungAt(world, a, i)
    ensures HasFile(dirs[i], INDEX) && Place(dirs[i], INDEX) < |dirs[i]|
    ensures dirs[i][j].name == INDEX ==> j == Place(dirs[i], INDEX)
  {
    assert DirOk(dirs[i]);
    PlaceOf(dirs[i], INDEX);
  }

  /** The upload of a rung's index: it comes with the encode of its run. */
  lemma {:induction false} IndexArrives(world: World, store: Store, r: UploadRun, i: nat, j: nat)
    requires RunOk(world, store, r) && IsFile(r.dirs, r.starts, r.done, i, j) && r.dirs[i][j].name == INDEX
    ensures WroteIndex(world, AfterUpload(store, r.plan[r.done]), r.asset, i, r.dirs)
  {
    FileIsPlain(world, r.asset, r.dirs, i, j);
    forall x: nat | x < j ensures KeyOf(world, r.asset, i, r.dirs[i][x].name) in store {
      assert IsFile(r.dirs, r.starts, r.starts[i] + x, i, x);
      assert r.plan[r.starts[i] + x].key in store;
    }
  }

  lemma {:induction false} FileUpload(world: World, store: Store, r: UploadRun, i: nat, j: nat, a: string)
    requires RunOk(world, store, r) && IsFile(r.dirs, r.starts, r.done, i, j)
    requires world.Known(a) && AssetOk(world, store, a)
    ensures AssetOk(world, AfterUpload(store, r.plan[r.done]), a)
  {
    var p := r.plan[r.done];
    FileIsPlain(world, r.asset, r.dirs, i, j);
    FileIsNoMaster(world, r.asset, i, r.dirs[i][j].name, a);
    MasterStays(world, store, p, a);
    forall x: nat | RungAt(world, a, x) ensures IndexFrom(world, AfterUpload(store, p), a, x) {
      if p.key == KeyOf(world, a, x, INDEX) {
        IndexIsPlain();
        OneFile(world, a, x, INDEX, r.asset, i, r.dirs[i][j].name);
        IndexArrives(world, store, r, i, j);
      } else {
        IndexStays(world, store, p, a, x);
      }
    }
  }

  lemma {:induction false} PosterUpload(world: World, store: Store, b: string, p: Put, a: string)
    requires Plain(b) && p.key == PosterKey(b, world.v) && world.Known(a) && AssetOk(world, store, a)
    ensures AssetOk(world, AfterUpload(store, p), a)
  {
    PosterIsNoMaster(world.v, b, a);
    MasterStays(world, store, p, a);
    IndexIsPlain();
    forall x: nat | RungAt(world, a, x) ensures IndexFrom(world, AfterUpload(store, p), a, x) {
      FileIsNoPoster(world, a, x, INDEX, b);
      IndexStays(world, store, p, a, x);
    }
  }

  /** By the time a run uploads its master, all its files are stored. */
  lemma {:induction false} RungsBeforeMaster(world: World, store: Store, r: UploadRun)
    requires RunOk(world, store, r) && r.done == |r.plan| - 1
    ensures AllStored(world, store, r.asset, r.dirs)
  {
    forall i: nat, j: nat | RungAt(world, r.asset, i) && i < |r.dirs| && j < |r.dirs[i]|
      ensures KeyOf(world, r.asset, i, r.dirs[i][j].name) in store
    {
      assert IsFile(r.dirs, r.starts, r.starts[i] + j, i, j);
      assert r.plan[r.starts[i] + j].key in store;
    }
  }

  lemma {:induction false} MasterUpload(world: World, store: Store, r: UploadRun, a: string)
    requires RunOk(world, store, r) && r.done == |r.plan| - 1
    requires world.Known(a) && AssetOk(world, store, a)
    ensures AssetOk(world, AfterUpload(store, r.plan[r.done]), a)
  {
    MasterKeepsIndexes(world, store, r.asset, r.plan[r.done], a);
    if r.plan[r.done].key == MasterKey(a, world.v) {
      MasterKeyDetermines(world.v, a, r.asset);
      RungsBeforeMaster(world, store, r);
      assert AllStored(world, AfterUpload(store, r.plan[r.done]), a, r.dirs);
    } else {
      MasterStays(world, store, r.plan[r.done], a);
    }
  }

  lemma {:induction false} MasterKeepsIndexes(world: World, store: Store, b: string, p: Put, a: string)
    requires Plain(b) && p.key == MasterKey(b, world.v) && world.Known(a) && IndexesFrom(world, store, a)
    ensures IndexesFrom(world, AfterUpload(store, p), a)
  {
    IndexIsPlain();
    forall x: nat | RungAt(world, a, x) ensures IndexFrom(world, AfterUpload(store, p), a, x) {
      FileIsNoMaster(world, a, x, INDEX, b);
      IndexStays(world, store, p, a, x);
    }
  }

  lemma {:induction false} UploadKeepsAsset(world: World, store: Store, r: UploadRun, a: string)
    requires RunOk(world, store, r) && r.done < |r.plan| && world.Known(a) && AssetOk(world, store, a)
    ensures AssetOk(world, AfterUpload(store, r.plan[r.done]), a)
  {
    if i: nat, j: nat :| IsFile(r.dirs, r.starts, r.done, i, j) {
      FileUpload(world, store, r, i, j, a);
    } else if r.done < |r.plan| - 1 {
      PosterUpload(world, store, r.asset, r.plan[r.done], a);
    } else {
      MasterUpload(world, store, r, a);
    }
  }

  lemma {:induction false} UploadKeepsRuns(world: World, store: Store, runs: seq<UploadRun>, p: Put)
    requires RunsOk(world, store, runs)
    ensures RunsOk(world, AfterUpload(store, p), runs)
  {
    forall i | 0 <= i < |runs| ensures RunOk(world, AfterUpload(store, p), runs[i]) {
      assert RunOk(world, store, runs[i]);
    }
  }

  lemma {:induction false} UploadCounts(world: World, store: Store, r: UploadRun)
    requires RunOk(world, store, r) && r.done < |r.plan|
    ensures RunOk(world, AfterUpload(store, r.plan[r.done]), r.(done := r.done + 1))
  {
    DoneGrows(store, r.plan, r.done);
  }

  lemma {:induction false} DoneGrows(store: Store, plan: seq<Put>, done: nat)
    requires DoneStored(store, plan, done) && done < |plan|
    ensures DoneStored(AfterUpload(store, plan[done]), plan, done + 1)
  {
  }

  lemma {:induction false} ReadyStays(world: World, store: Store, ready: map<string, PlaybackAsset>, p: Put)
    requires ReadyOk(world, store, ready)
    ensures ReadyOk(world, AfterUpload(store, p), ready)
  {
  }

  lemma {:induction false} UploadKeepsAssets(world: World, store: Store, r: UploadRun)
    requires AssetsOk(world, store) && RunOk(world, store, r) && r.done < |r.plan|
    ensures AssetsOk(world, AfterUpload(store, r.plan[r.done]))
  {
    forall a | world.Known(a) ensures AssetOk(world, AfterUpload(store, r.plan[r.done]), a) {
      UploadKeepsAsset(world, store, r, a);
    }
  }

  lemma {:induction false} OneRunFurther(world: World, store: Store, runs: seq<UploadRun>, i: nat)
    requires RunsOk(world, store, runs) && i < |runs| && runs[i].done < |runs[i].plan|
    ensures RunsOk(world, AfterUpload(store, runs[i].plan[runs[i].done]), runs[i := runs[i].(done := runs[i].done + 1)])
  {
    UploadKeepsRuns(world, store, runs, runs[i].plan[runs[i].done]);
    UploadCounts(world, store, runs[i]);
  }

  /** The invariant after run i's next upload, part by part. */
  lemma {:induction false} UploadedParts(world: World, store: Store, runs: seq<UploadRun>, ready: map<string,
                                         PlaybackAsset>, i: nat)
    requires AssetsOk(world, store) && RunsOk(world, store, runs) && ReadyOk(world, store, ready)
    requires i < |runs| && runs[i].done < |runs[i].plan|
    ensures var store' := AfterUpload(store, runs[i].plan[runs[i].done]);
            && AssetsOk(world, store')
            && RunsOk(world, store', runs[i := runs[i].(done := runs[i].done + 1)])
            && ReadyOk(world, store', ready)
  {
    assert RunOk(world, store, runs[i]);
    UploadKeepsAssets(world, store, runs[i]);
    OneRunFurther(world, store, runs, i);
    ReadyStays(world, store, ready, runs[i].plan[runs[i].done]);
  }

  lemma {:induction false} UploadKeepsInv(world: World, s: State, i: nat)
    requires Inv(world, s)
    ensures Inv(world, Uploaded(s, i))
  {
    if i < |s.runs| && s.runs[i].done < |s.runs[i].plan| {
      UploadedParts(world, s.store, s.runs, s.ready, i);
      InvOf(world, Uploaded(s, i));
    }
  }

  lemma {:induction false} InvOf(world: World, s: State)
    requires AssetsOk(world, s.store) && RunsOk(world, s.store, s.runs) && ReadyOk(world, s.store, s.ready)
    ensures Inv(world, s)
  {
  }

  /** A run whose plan is through has its master stored. */
  lemma {:induction false} DoneHasMaster(world: World, store: Store, r: UploadRun)
    requires RunOk(world, store, r) && r.done == |r.plan|
    ensures MasterKey(r.asset, world.v) in store
  {
    assert r.plan[|r.plan| - 1].key in store;
  }

  lemma {:induction false} FinishedIsReady(world: World, store: Store, ready: map<string, PlaybackAsset>, r: UploadRun)
    requires ReadyOk(world, store, ready) && RunOk(world, store, r) && r.done == |r.plan|
    ensures ReadyOk(world, store, ready[r.asset := AssetRow(r.asset, world.v, world.of(r.asset).ladder)])
  {
    DoneHasMaster(world, store, r);
  }

  lemma {:induction false} SuccessKeepsInv(world: World, s: State, i: nat)
    requires Inv(world, s)
    ensures Inv(world, Succeeded(world, s, i))
  {
    if i < |s.runs| && s.runs[i].done >= |s.runs[i].plan| {
      assert RunOk(world, s.store, s.runs[i]);
      FinishedIsReady(world, s.store, s.ready, s.runs[i]);
      OneRunLess(world, s.store, s.runs, i);
      InvOf(world, Succeeded(world, s, i));
    }
  }

  lemma {:induction false} DeathKeepsInv(world: World, s: State, i: nat)
    requires Inv(world, s)
    ensures Inv(world, Died(s, i))
  {
    if i < |s.runs| {
      OneRunLess(world, s.store, s.runs, i);
    }
  }

  lemma {:induction false} StartKeepsInv(world: World, s: State, a: string, dirs: seq<seq<File>>,
                                         poster: Option<string>)
    requires Inv(world, s)
    ensures Inv(world, Next(world, s, Starts(a, dirs, poster)))
  {
    if world.Known(a) && world.Encode(a, dirs) {
      RunPlanOk(world, a, dirs, poster);
      OneRunMore(world, s.store, s.runs, RunOf(world, a, dirs, poster));
    }
  }

  lemma {:induction false} OneRunMore(world: World, store: Store, runs: seq<UploadRun>, r: UploadRun)
    requires RunsOk(world, store, runs) && RunOk(world, store, r)
    ensures RunsOk(world, store, runs + [r])
  {
  }

  lemma {:induction false} OneRunLess(world: World, store: Store, runs: seq<UploadRun>, i: nat)
    requires RunsOk(world, store, runs) && i < |runs|
    ensures RunsOk(world, store, runs[..i] + runs[i + 1..])
  {
  }

  lemma {:induction false} NextKeepsInv(world: World, s: State, e: Event)
    requires Inv(world, s)
    ensures Inv(world, Next(world, s, e))
  {
    match e
    case Uploads(i) => UploadKeepsInv(world, s, i);
    case Succeeds(i) => SuccessKeepsInv(world, s, i);
    case Dies(i) => DeathKeepsInv(world, s, i);
    case Starts(a, dirs, poster) => StartKeepsInv(world, s, a, dirs, poster);
  }

  lemma {:induction false} PlayKeepsInv(world: World, s: State, es: seq<Event>)
    requires Inv(world, s)
    ensures Inv(world, Play(world, s, es))
    decreases |es|
  {
    if es != [] {
      NextKeepsInv(world, s, es[0]);
      PlayKeepsInv(world, Next(world, s, es[0]), es[1..]);
    }
  }

  lemma {:induction false} Reached(world: World, es: seq<Event>)
    ensures Inv(world, Play(world, START, es))
  {
    PlayKeepsInv(world, START, es);
  }
}
