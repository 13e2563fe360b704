/**
 * When publication is atomic: exactly when the encodes that may be made of an asset fit together. And then,
 * and only then, every READY asset plays.
 */
module AtomicityExact {
  import opened Results
  import opened Paths
  import opened Ladder
  import opened Playlists
  import opened Playback
  import opened Publication
  import opened Encodes
  import opened Atomicity

  // ---------------------------------------------------------------- what is to be shown

  /** Rung i's playlist is stored, and so is every file the stored text lists. */
  ghost predicate Leads(world: World, store: Store, a: string, i: nat)
    requires RungAt(world, a, i)
  {
    && KeyOf(world, a, i, INDEX) in store
    && forall line | ListsLine(store[KeyOf(world, a, i, INDEX)], line) :: KeyOf(world, a, i, line) in store
  }

  /** A stored master leads to nothing missing. */
  ghost predicate Closed(world: World, store: Store, a: string) {
    MasterKey(a, world.v) in store ==> forall i: nat | RungAt(world, a, i) :: Leads(world, store, a, i)
  }

  /** A line of f's index is among e's files, or f uploads its file before the index. */
  predicate Covered(e: seq<File>, f: seq<File>, line: string) {
    HasFile(e, line) || Place(f, line) < Place(f, INDEX)
  }

  /** Whatever one encode left, another's index, once up, lists what is there. */
  ghost predicate Compatible(world: World, a: string) {
    forall e, f, i: nat, line |
      world.Encode(a, e) && world.Encode(a, f) && RungAt(world, a, i) && ListsLine(IndexText(f[i]), line) ::
      Covered(e[i], f[i], line)
  }

  // ---------------------------------------------------------------- sufficient

  lemma {:induction false} DirHas(dirs: seq<seq<File>>, world: World, a: string, i: nat, name: string, store: Store)
    requires world.Encode(a, dirs) && RungAt(world, a, i) && AllStored(world, store, a, dirs) && HasFile(dirs[i], name)
    ensures KeyOf(world, a, i, name) in store
  {
    var j :| 0 <= j < |dirs[i]| && dirs[i][j].name == name;
    assert KeyOf(world, a, i, dirs[i][j].name) in store;
  }

  lemma {:induction false} CompatibleLeads(world: World, store: Store, a: string, i: nat, e: seq<seq<File>>)
    requires world.Known(a) && IndexesFrom(world, store, a) && Compatible(world, a)
    requires world.Encode(a, e) && AllStored(world, store, a, e) && RungAt(world, a, i)
    ensures Leads(world, store, a, i)
  {
    assert HasFile(e[i], INDEX) by { assert DirOk(e[i]); }
    DirHas(e, world, a, i, INDEX, store);
    assert IndexFrom(world, store, a, i);
    var f: seq<seq<File>> :| WroteIndex(world, store, a, i, f);
    forall line | ListsLine(IndexText(f[i]), line) ensures KeyOf(world, a, i, line) in store {
      assert Covered(e[i], f[i], line);
      if HasFile(e[i], line) {
        DirHas(e, world, a, i, line, store);
      } else {
        assert f[i][Place(f[i], line)].name == line;
      }
    }
  }

  lemma {:induction false} CompatibleCloses(world: World, store: Store, a: string)
    requires world.Known(a) && AssetOk(world, store, a) && Compatible(world, a)
    ensures Closed(world, store, a)
  {
    if MasterKey(a, world.v) in store {
      var e: seq<seq<File>> :| world.Encode(a, e) && AllStored(world, store, a, e);
      forall i: nat | RungAt(world, a, i) ensures Leads(world, store, a, i) {
        CompatibleLeads(world, store, a, i, e);
      }
    }
  }

  // ---------------------------------------------------------------- one run alone

  function UploadsOf(n: nat): seq<Event> {
    if n == 0 then [] else UploadsOf(n - 1) + [Uploads(0)]
  }

  lemma {:induction false} PlayOn(world: World, s: State, es: seq<Event>, more: seq<Event>)
    ensures Play(world, s, es + more) == Play(world, Play(world, s, es), more)
    decreases |es|
  {
    if es == [] {
      assert es + more == more;
    } else {
      assert (es + more)[1..] == es[1..] + more;
      PlayOn(world, Next(world, s, es[0]), es[1..], more);
    }
  }

  lemma {:induction false} OneEvent(world: World, s: State, e: Event)
    ensures Play(world, s, [e]) == Next(world, s, e)
  {
    assert [e][1..] == [];
  }

  /** The only run under way has done n of its uploads, on top of `store`. */
  ghost predicate Ran(s: State, store: Store, ready: map<string, PlaybackAsset>, r: UploadRun, n: nat) {
    && n <= |r.plan| && s == State(Apply(store, r.plan[..n]), [r.(done := n)], ready)
  }

  lemma {:induction false} OneUpload(world: World, s: State, store: Store, ready: map<string, PlaybackAsset>,
                                     r: UploadRun, n: nat)
    requires Ran(s, store, ready, r, n) && n < |r.plan|
    ensures Ran(Next(world, s, Uploads(0)), store, ready, r, n + 1)
  {
    assert r.plan[..n + 1][..n] == r.plan[..n];
    assert [r.(done := n)][0 := r.(done := n + 1)] == [r.(done := n + 1)];
  }

  lemma {:induction false} RunGoesOn(world: World, s: State, store: Store, ready: map<string, PlaybackAsset>,
                                     r: UploadRun, n: nat)
    requires Ran(s, store, ready, r, 0) && n <= |r.plan|
    ensures Ran(Play(world, s, UploadsOf(n)), store, ready, r, n)
  {
    if n > 0 {
      RunGoesOn(world, s, store, ready, r, n - 1);
      PlayOn(world, s, UploadsOf(n - 1), [Uploads(0)]);
      OneEvent(world, Play(world, s, UploadsOf(n - 1)), Uploads(0));
      OneUpload(world, Play(world, s, UploadsOf(n - 1)), store, ready, r, n - 1);
    }
  }

  /** A run that begins when none is under way, up to its n-th upload. */
  lemma {:induction false} RunBegins(world: World, s: State, a: string, dirs: seq<seq<File>>, poster: Option<string>,
                                     n: nat)
    requires s.runs == [] && world.Known(a) && world.Encode(a, dirs) && n <= |RunOf(world, a, dirs, poster).plan|
    ensures Ran(Play(world, s, [Starts(a, dirs, poster)] + UploadsOf(n)), s.store, s.ready,
                RunOf(world, a, dirs, poster), n)
  {
    var r := RunOf(world, a, dirs, poster);
    PlayOn(world, s, [Starts(a, dirs, poster)], UploadsOf(n));
    OneEvent(world, s, Starts(a, dirs, poster));
    assert r.plan[..0] == [];
    assert r.(done := 0) == r;
    RunGoesOn(world, Next(world, s, Starts(a, dirs, poster)), s.store, s.ready, r, n);
  }

  /** A whole run: every upload, then the report. */
  function WholeRun(a: string, dirs: seq<seq<File>>, poster: Option<string>, n: nat): seq<Event> {
    [Starts(a, dirs, poster)] + UploadsOf(n) + [Succeeds(0)]
  }

  lemma {:induction false} RunEnds(world: World, s: State, a: string, dirs: seq<seq<File>>, poster: Option<string>)
    requires s.runs == [] && world.Known(a) && world.Encode(a, dirs)
    ensures var plan := RunOf(world, a, dirs, poster).plan;
            Play(world, s, WholeRun(a, dirs, poster, |plan|))
            == State(Apply(s.store, plan), [], s.ready[a := AssetRow(a, world.v, world.of(a).ladder)])
  {
    var r := RunOf(world, a, dirs, poster);
    var n := |r.plan|;
    RunBegins(world, s, a, dirs, poster, n);
    PlayOn(world, s, [Starts(a, dirs, poster)] + UploadsOf(n), [Succeeds(0)]);
    var s1 := Play(world, s, [Starts(a, dirs, poster)] + UploadsOf(n));
    OneEvent(world, s1, Succeeds(0));
    assert r.plan[..n] == r.plan;
    assert s1.runs[..0] + s1.runs[1..] == [];
  }

  /** A run that nothing interrupts makes its asset READY. */
  lemma {:induction false} AloneBecomesReady(world: World, a: string, dirs: seq<seq<File>>, poster: Option<string>)
    requires world.Known(a) && world.Encode(a, dirs)
    ensures a in Play(world, START, WholeRun(a, dirs, poster, |RunOf(world, a, dirs, poster).plan|)).ready
  {
    RunEnds(world, START, a, dirs, poster);
  }

  // ---------------------------------------------------------------- necessary

  /** e whole, then f up to the index of rung i. */
  ghost function Clash(world: World, a: string, e: seq<seq<File>>, f: seq<seq<File>>, n: nat): seq<Event>
    requires |e| == |world.of(a).ladder|
  {
    WholeRun(a, e, None, |RunOf(world, a, e, None).plan|) + ([Starts(a, f, None)] + UploadsOf(n))
  }

  lemma {:induction false} ClashStore(world: World, a: string, e: seq<seq<File>>, f: seq<seq<File>>, n: nat)
    requires world.Known(a) && world.Encode(a, e) && world.Encode(a, f) && n <= |RunOf(world, a, f, None).plan|
    ensures var s := Play(world, START, Clash(world, a, e, f, n));
            && s.store == Apply(Apply(map[], RunOf(world, a, e, None).plan), RunOf(world, a, f, None).plan[..n])
            && s.ready == map[a := AssetRow(a, world.v, world.of(a).ladder)]
  {
    var first := WholeRun(a, e, None, |RunOf(world, a, e, None).plan|);
    RunEnds(world, START, a, e, None);
    PlayOn(world, START, first, [Starts(a, f, None)] + UploadsOf(n));
    RunBegins(world, Play(world, START, first), a, f, None, n);
  }

  /** The file of this name goes up as none of the run's first n uploads. */
  ghost predicate NotUploaded(world: World, r: UploadRun, n: nat, i: nat, name: string)
    requires RungAt(world, r.asset, i)
  {
    n <= |r.plan| && forall k | 0 <= k < n :: r.plan[k].key != KeyOf(world, r.asset, i, name)
  }

  /** An upload with a rung file's key is that file's. */
  lemma {:induction false} KeyIsFile(world: World, r: UploadRun, k: nat, i: nat, name: string) returns (j: nat)
    requires world.Known(r.asset) && world.Encode(r.asset, r.dirs) && PlanOk(world, r) && k < |r.plan|
    requires RungAt(world, r.asset, i) && Plain(name)
    ensures r.plan[k].key == KeyOf(world, r.asset, i, name) ==>
              IsFile(r.dirs, r.starts, k, i, j) && r.dirs[i][j].name == name
  {
    j := 0;
    if x: nat, y: nat :| IsFile(r.dirs, r.starts, k, x, y) {
      j := y;
      FileIsPlain(world, r.asset, r.dirs, x, y);
      if r.plan[k].key == KeyOf(world, r.asset, i, name) {
        OneFile(world, r.asset, i, name, r.asset, x, r.dirs[x][y].name);
      }
    } else if k < |r.plan| - 1 {
      FileIsNoPoster(world, r.asset, i, name, r.asset);
    } else {
      FileIsNoMaster(world, r.asset, i, name, r.asset);
    }
  }

  lemma {:induction false} AbsentIsNotUploaded(world: World, r: UploadRun, i: nat, name: string)
    requires world.Known(r.asset) && world.Encode(r.asset, r.dirs) && PlanOk(world, r)
    requires RungAt(world, r.asset, i) && Plain(name) && !HasFile(r.dirs[i], name)
    ensures NotUploaded(world, r, |r.plan|, i, name)
  {
    forall k | 0 <= k < |r.plan| ensures r.plan[k].key != KeyOf(world, r.asset, i, name) {
      var j := KeyIsFile(world, r, k, i, name);
    }
  }

  /** The number of uploads up to and with the index of rung i. */
  function UpToIndex(r: UploadRun, i: nat): nat
    requires i < |r.dirs| == |r.starts|
  {
    r.starts[i] + Place(r.dirs[i], INDEX) + 1
  }

  lemma {:induction false} IndexUpload(world: World, r: UploadRun, i: nat)
    requires world.Encode(r.asset, r.dirs) && PlanOk(world, r) && i < |r.dirs|
    ensures var n := UpToIndex(r, i);
            && 0 < n <= |r.plan| && r.plan[n - 1] == Put(KeyOf(world, r.asset, i, INDEX), IndexText(r.dirs[i]))
  {
    assert DirOk(r.dirs[i]);
    PlaceOf(r.dirs[i], INDEX);
    assert IsFile(r.dirs, r.starts, UpToIndex(r, i) - 1, i, Place(r.dirs[i], INDEX));
  }

  lemma {:induction false} LaterIsNotUploaded(world: World, r: UploadRun, i: nat, name: string)
    requires world.Known(r.asset) && world.Encode(r.asset, r.dirs) && PlanOk(world, r)
    requires RungAt(world, r.asset, i) && Plain(name) && name != INDEX
    requires Place(r.dirs[i], name) >= Place(r.dirs[i], INDEX)
    ensures NotUploaded(world, r, UpToIndex(r, i), i, name)
  {
    IndexUpload(world, r, i);
    NotBefore(r.dirs[i], name);
    forall k | 0 <= k < UpToIndex(r, i) ensures r.plan[k].key != KeyOf(world, r.asset, i, name) {
      var j := KeyIsFile(world, r, k, i, name);
    }
  }

  lemma {:induction false} NotBefore(dir: seq<File>, name: string)
    requires name != INDEX && Place(dir, name) >= Place(dir, INDEX)
    ensures forall j | 0 <= j <= Place(dir, INDEX) && j < |dir| :: dir[j].name != name
  {
  }

  /** An object of this key is not in the store after a whole plan and the start of another. */
  lemma {:induction false} NeverStored(p: seq<Put>, q: seq<Put>, n: nat, key: string)
    requires n <= |q| && (forall k | 0 <= k < |p| :: p[k].key != key) && (forall k | 0 <= k < n :: q[k].key != key)
    ensures key !in Apply(Apply(map[], p), q[..n])
  {
    ApplyKeys(map[], p, key);
    ApplyKeys(Apply(map[], p), q[..n], key);
  }

  lemma {:induction false} LastStored(store: Store, q: seq<Put>, n: nat)
    requires 0 < n <= |q|
    ensures var s := Apply(store, q[..n]); q[n - 1].key in s && s[q[n - 1].key] == q[n - 1].content
  {
    assert q[..n][..n - 1] == q[..n - 1];
  }

  lemma {:induction false} OnceStored(p: seq<Put>, q: seq<Put>, n: nat)
    requires |p| > 0 && n <= |q|
    ensures p[|p| - 1].key in Apply(Apply(map[], p), q[..n])
  {
    ApplyKeys(map[], p, p[|p| - 1].key);
    ApplyKeys(Apply(map[], p), q[..n], p[|p| - 1].key);
  }

  /** The master is stored, the asset READY, and the stored index of rung i lists a file that is not there. */
  ghost predicate Broken(world: World, s: State, a: string, i: nat, line: string)
    requires RungAt(world, a, i)
  {
    && MasterKey(a, world.v) in s.store
    && s.ready == map[a := AssetRow(a, world.v, world.of(a).ladder)]
    && KeyOf(world, a, i, INDEX) in s.store && ListsLine(s.store[KeyOf(world, a, i, INDEX)], line)
    && KeyOf(world, a, i, line) !in s.store
  }

  /** What the store holds after a whole plan p and n uploads of q. */
  ghost predicate Stacked(store: Store, p: seq<Put>, q: seq<Put>, n: nat) {
    && 0 < n <= |q| && |p| > 0
    && (forall key | key in store ::
          (exists k | 0 <= k < |p| :: p[k].key == key) || (exists k | 0 <= k < n :: q[k].key == key))
    && p[|p| - 1].key in store
    && q[n - 1].key in store && store[q[n - 1].key] == q[n - 1].content
  }

  lemma {:induction false} Stack(p: seq<Put>, q: seq<Put>, n: nat)
    requires 0 < n <= |q| && |p| > 0
    ensures Stacked(Apply(Apply(map[], p), q[..n]), p, q, n)
  {
    var store := Apply(Apply(map[], p), q[..n]);
    forall key | key in store
      ensures (exists k | 0 <= k < |p| :: p[k].key == key) || (exists k | 0 <= k < n :: q[k].key == key)
    {
      if (forall k | 0 <= k < |p| :: p[k].key != key) && (forall k | 0 <= k < n :: q[k].key != key) {
        NeverStored(p, q, n, key);
      }
    }
    LastStored(Apply(map[], p), q, n);
    OnceStored(p, q, n);
  }

  lemma {:induction false} ClashStacks(world: World, a: string, e: seq<seq<File>>, f: seq<seq<File>>, n: nat)
    requires world.Known(a) && world.Encode(a, e) && world.Encode(a, f) && 0 < n <= |RunOf(world, a, f, None).plan|
    requires |RunOf(world, a, e, None).plan| > 0
    ensures var s := Play(world, START, Clash(world, a, e, f, n));
            && Stacked(s.store, RunOf(world, a, e, None).plan, RunOf(world, a, f, None).plan, n)
            && s.ready == map[a := AssetRow(a, world.v, world.of(a).ladder)]
  {
    ClashStore(world, a, e, f, n);
    Stack(RunOf(world, a, e, None).plan, RunOf(world, a, f, None).plan, n);
  }

  lemma {:induction false} BrokenStore(world: World, s: State, a: string, i: nat, line: string, first: UploadRun,
                                       second: UploadRun,
                                       n: nat, text: string)
    requires RungAt(world, a, i) && first.asset == second.asset == a && Stacked(s.store, first.plan, second.plan, n)
    requires s.ready == map[a := AssetRow(a, world.v, world.of(a).ladder)]
    requires first.plan[|first.plan| - 1].key == MasterKey(a, world.v)
    requires second.plan[n - 1] == Put(KeyOf(world, a, i, INDEX), text) && ListsLine(text, line)
    requires NotUploaded(world, first, |first.plan|, i, line) && NotUploaded(world, second, n, i, line)
    ensures Broken(world, s, a, i, line)
  {
  }

  lemma {:induction false} ListedIsPlain(dir: seq<File>, line: string)
    requires DirOk(dir) && ListsLine(IndexText(dir), line)
    ensures HasFile(dir, line) && Plain(line)
  {
  }

  ghost function ClashAt(world: World, a: string, e: seq<seq<File>>, f: seq<seq<File>>, i: nat): seq<Event>
    requires |e| == |f| == |world.of(a).ladder| && i < |f|
  {
    Clash(world, a, e, f, UpToIndex(RunOf(world, a, f, None), i))
  }

  /**
   * Encodes that do not fit together break publication: after a whole run of e, a run of f that has just
   * uploaded the index of rung i makes the readable master lead to a file that is not there.
   */
  lemma {:induction false} OtherNamesBreakPublication(world: World, a: string, e: seq<seq<File>>, f: seq<seq<File>>,
      i: nat, line: string)
    requires world.Known(a) && world.Encode(a, e) && world.Encode(a, f) && RungAt(world, a, i)
    requires ListsLine(IndexText(f[i]), line) && !Covered(e[i], f[i], line)
    ensures Broken(world, Play(world, START, ClashAt(world, a, e, f, i)), a, i, line)
  {
    var first, second := RunOf(world, a, e, None), RunOf(world, a, f, None);
    assert Plain(line) && line != INDEX by {
      assert DirOk(f[i]) && DirOk(e[i]);
      ListedIsPlain(f[i], line);
    }
    RunPlanOk(world, a, e, None);
    RunPlanOk(world, a, f, None);
    AbsentIsNotUploaded(world, first, i, line);
    LaterIsNotUploaded(world, second, i, line);
    ClashBreaks(world, a, e, f, i, line, UpToIndex(second, i));
  }

  lemma {:induction false} ClashBreaks(world: World, a: string, e: seq<seq<File>>, f: seq<seq<File>>, i: nat,
                                       line: string, n: nat)
    requires world.Known(a) && world.Encode(a, e) && world.Encode(a, f) && RungAt(world, a, i)
    requires ListsLine(IndexText(f[i]), line) && n == UpToIndex(RunOf(world, a, f, None), i)
    requires var first := RunOf(world, a, e, None); NotUploaded(world, first, |first.plan|, i, line)
    requires NotUploaded(world, RunOf(world, a, f, None), n, i, line)
    ensures Broken(world, Play(world, START, Clash(world, a, e, f, n)), a, i, line)
  {
    RunPlanOk(world, a, e, None);
    RunPlanOk(world, a, f, None);
    IndexUpload(world, RunOf(world, a, f, None), i);
    ClashStacks(world, a, e, f, n);
    BrokenStore(world, Play(world, START, Clash(world, a, e, f, n)), a, i, line,
                RunOf(world, a, e, None), RunOf(world, a, f, None), n, IndexText(f[i]));
  }

  /** Two encodes, a rung and a line of the second one's index that nothing covers. */
  ghost predicate Misfit(world: World, a: string, e: seq<seq<File>>, f: seq<seq<File>>, i: nat, line: string) {
    && world.Encode(a, e) && world.Encode(a, f) && RungAt(world, a, i)
    && ListsLine(IndexText(f[i]), line) && !Covered(e[i], f[i], line)
  }

  lemma {:induction false} MisfitExists(world: World, a: string)
    ensures !Compatible(world, a) ==> exists e, f, i: nat, line :: Misfit(world, a, e, f, i, line)
  {
    if !Compatible(world, a) {
      var e: seq<seq<File>>, f: seq<seq<File>>, i: nat, line: string :|
        world.Encode(a, e) && world.Encode(a, f) && RungAt(world, a, i) && ListsLine(IndexText(f[i]), line)
        && !Covered(e[i], f[i], line);
      assert Misfit(world, a, e, f, i, line);
    }
  }

  /**
   * Publication is atomic, over every interleaving of runs, exactly when each line an encode's index lists
   * is among every other encode's files or goes up before that index.
   */
  lemma {:induction false} PublicationExactly(world: World, a: string)
    requires world.Known(a)
    ensures Compatible(world, a) <==> forall es: seq<Event> :: Closed(world, Play(world, START, es).store, a)
  {
    if Compatible(world, a) {
      forall es: seq<Event> ensures Closed(world, Play(world, START, es).store, a) {
        MasterLeadsNowhereMissing(world, es, a);
      }
    } else {
      MisfitExists(world, a);
      var e: seq<seq<File>>, f: seq<seq<File>>, i: nat, line: string :| Misfit(world, a, e, f, i, line);
      var es := MisfitOpens(world, a, e, f, i, line);
    }
  }

  /** Atomic publication: whenever a master can be read, every file its playlists lead to is stored. */
  lemma {:induction false} MasterLeadsNowhereMissing(world: World, es: seq<Event>, a: string)
    requires world.Known(a) && Compatible(world, a)
    ensures Closed(world, Play(world, START, es).store, a)
  {
    Reached(world, es);
    CompatibleCloses(world, Play(world, START, es).store, a);
  }

  lemma {:induction false} MisfitOpens(world: World, a: string, e: seq<seq<File>>, f: seq<seq<File>>, i: nat,
                                       line: string) returns (es: seq<Event>)
    requires world.Known(a) && Misfit(world, a, e, f, i, line)
    ensures Broken(world, Play(world, START, es), a, i, line) && !Closed(world, Play(world, START, es).store, a)
  {
    OtherNamesBreakPublication(world, a, e, f, i, line);
    es := ClashAt(world, a, e, f, i);
    assert !Leads(world, Play(world, START, es).store, a, i);
  }
}
