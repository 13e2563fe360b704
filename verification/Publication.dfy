/**
 * Publishing a transcoded asset: the uploads of one run in order, and any number of runs of the same and
 * other assets interleaved, stale workers included. A master that can be read leads to nothing missing.
 */
module Publication {
  import opened Results
  import opened Paths
  import opened Ladder
  import opened Playlists
  import opened Playback

  datatype File = File(name: string, content: string)

  datatype Put = Put(key: string, content: string)

  /** What an encode leaves in the work directory: the ladder, the source's size, one directory per rung. */
  datatype Output = Output(ladder: seq<Rung>, w: nat, h: nat, dirs: seq<seq<File>>)

  // ---------------------------------------------------------------- one run

  function DirPuts(prefix: string, dir: seq<File>): seq<Put> {
    if dir == [] then []
    else DirPuts(prefix, dir[..|dir| - 1]) + [Put(Join([prefix, dir[|dir| - 1].name]), dir[|dir| - 1].content)]
  }

  /** The storage prefix of each rung. */
  function Prefixes(asset: string, v: int, ladder: seq<Rung>): (r: seq<string>)
    ensures |r| == |ladder| && forall i | 0 <= i < |r| :: r[i] == RenditionPrefix(asset, v, ladder[i].name)
  {
    if ladder == [] then []
    else Prefixes(asset, v, ladder[..|ladder| - 1]) + [RenditionPrefix(asset, v, ladder[|ladder| - 1].name)]
  }

  /** The uploads of the first n rungs. */
  function RungPuts(prefixes: seq<string>, dirs: seq<seq<File>>, n: nat): seq<Put>
    requires n <= |prefixes| == |dirs|
  {
    if n == 0 then [] else RungPuts(prefixes, dirs, n - 1) + DirPuts(prefixes[n - 1], dirs[n - 1])
  }

  function AllRungPuts(asset: string, v: int, o: Output): seq<Put>
    requires |o.ladder| == |o.dirs|
  {
    RungPuts(Prefixes(asset, v, o.ladder), o.dirs, |o.ladder|)
  }

  function PosterPuts(asset: string, v: int, poster: Option<string>): seq<Put> {
    if poster.None? then []
    else [Put(Join(["renditions", asset, "v" + Decimal(v), "poster.webp"]), poster.value)]
  }

  function MasterPut(asset: string, v: int, o: Output): Put {
    Put(MasterKey(asset, v), MasterText(o.ladder, o.w, o.h))
  }

  /** The uploads of a run: every rung's files, the poster if there is one, the master last. */
  function Plan(asset: string, v: int, o: Output, poster: Option<string>): seq<Put>
    requires |o.ladder| == |o.dirs|
  {
    AllRungPuts(asset, v, o) + PosterPuts(asset, v, poster) + [MasterPut(asset, v, o)]
  }

  /** The plan's last uploads: the poster under its own name, if there is one, and then the master under its. */
  lemma {:induction false} PlanEnds(asset: string, v: int, o: Output, poster: Option<string>)
    requires |o.ladder| == |o.dirs| && Plain(asset)
    ensures var plan, n := Plan(asset, v, o, poster), |AllRungPuts(asset, v, o)|;
            && |plan| == n + (if poster.Some? then 2 else 1)
            && Split(plan[|plan| - 1].key) == ["renditions", asset, "v" + Decimal(v), "master.m3u8"]
            && plan[|plan| - 1].content == MasterText(o.ladder, o.w, o.h)
            && (poster.Some? ==> Split(plan[n].key) == ["renditions", asset, "v" + Decimal(v), "poster.webp"]
                                 && plan[n].content == poster.value)
  {
    MasterKeyParts(asset, v);
    VersionIsPlain(v);
    JoinPlain(["renditions", asset, "v" + Decimal(v), "poster.webp"]);
  }

  function Apply(store: Store, puts: seq<Put>): Store {
    if puts == [] then store
    else Apply(store, puts[..|puts| - 1])[puts[|puts| - 1].key := puts[|puts| - 1].content]
  }

  function RowOf(r: Rung, prefix: string): PlaybackRung {
    PlaybackRung(r.name, Join([prefix, INDEX]))
  }

  /** What the worker records on the asset about its first n rungs. */
  function Recorded(ladder: seq<Rung>, prefixes: seq<string>, n: nat): seq<PlaybackRung>
    requires n <= |ladder| == |prefixes|
  {
    if n == 0 then []
    else Recorded(ladder, prefixes, n - 1) + [RowOf(ladder[n - 1], prefixes[n - 1])]
  }

  function AssetRow(asset: string, v: int, ladder: seq<Rung>): PlaybackAsset {
    PlaybackAsset(asset, true, MasterKey(asset, v), v, Recorded(ladder, Prefixes(asset, v, ladder), |ladder|))
  }

  lemma {:induction false} ApplyAppend(store: Store, puts: seq<Put>, more: seq<Put>)
    ensures Apply(store, puts + more) == Apply(Apply(store, puts), more)
  {
    if more == [] {
      assert puts + more == puts;
    } else {
      var last := |more| - 1;
      assert (puts + more)[..|puts + more| - 1] == puts + more[..last];
      ApplyAppend(store, puts, more[..last]);
    }
  }

  /** An object store whose next uploads succeed or fail as `answers` says. */
  class ObjectStore {
    var objects: Store
    var answers: seq<bool>

    constructor (answers: seq<bool>)
      ensures objects == map[] && this.answers == answers
    {
      objects, this.answers := map[], answers;
    }

    method Upload(p: Put) returns (ok: bool)
      modifies this
      ensures ok == (old(answers) != [] && old(answers)[0])
      ensures objects == if ok then old(objects)[p.key := p.content] else old(objects)
      ensures answers == if old(answers) == [] then [] else old(answers)[1..]
    {
      if answers == [] {
        return false;
      }
      ok := answers[0];
      answers := answers[1..];
      if ok {
        objects := objects[p.key := p.content];
      }
    }
  }

  /** Upload k from here on succeeds. */
  predicate Answers(answers: seq<bool>, k: nat) {
    k < |answers| && answers[k]
  }

  predicate AllAnswer(answers: seq<bool>, n: nat) {
    forall k: nat | k < n :: Answers(answers, k)
  }

  function Used(answers: seq<bool>, n: nat): seq<bool> {
    if n <= |answers| then answers[n..] else []
  }

  /** `done` uploads went through, and the next one failed unless that were all. */
  predicate StoppedAt(answers: seq<bool>, done: nat, of: nat) {
    AllAnswer(answers, done) && done <= of && (done < of ==> !Answers(answers, done))
  }

  lemma {:induction false} AnswersGoOn(answers: seq<bool>, done: nat, sent: nat)
    ensures Answers(Used(answers, done), sent) == Answers(answers, done + sent)
    ensures Used(Used(answers, done), sent) == Used(answers, done + sent)
    ensures AllAnswer(answers, done) && AllAnswer(Used(answers, done), sent) ==> AllAnswer(answers, done + sent)
  {
    if AllAnswer(answers, done) && AllAnswer(Used(answers, done), sent) {
      forall k: nat | k < done + sent ensures Answers(answers, k) {
        if k >= done {
          assert Answers(Used(answers, done), k - done);
        }
      }
    }
  }

  /** Uploads a rung's directory file by file and stops at the first failure; `done` counts the uploads. */
  method UploadDir(store: ObjectStore, dir: seq<File>, prefix: string) returns (done: nat, ok: bool)
    modifies store
    ensures done <= |DirPuts(prefix, dir)| && ok == (done == |DirPuts(prefix, dir)|)
    ensures store.objects == Apply(old(store.objects), DirPuts(prefix, dir)[..done])
    ensures StoppedAt(old(store.answers), done, |DirPuts(prefix, dir)|)
    ensures ok ==> store.answers == Used(old(store.answers), done)
  {
    done := 0;
    DirPutsPrefix(prefix, dir, 0);
    while done < |dir|
      invariant done <= |dir| == |DirPuts(prefix, dir)|
      invariant AllAnswer(old(store.answers), done) && store.answers == Used(old(store.answers), done)
      invariant store.objects == Apply(old(store.objects), DirPuts(prefix, dir)[..done])
    {
      DirPutsPrefix(prefix, dir, done);
      ghost var puts := DirPuts(prefix, dir);
      assert puts[..done + 1][..done] == puts[..done];
      var sent := store.Upload(Put(Join([prefix, dir[done].name]), dir[done].content));
      if !sent {
        return done, false;
      }
      done := done + 1;
    }
    return done, true;
  }

  lemma {:induction false} DirPutsPrefix(prefix: string, dir: seq<File>, i: nat)
    ensures |DirPuts(prefix, dir)| == |dir|
    ensures i < |dir| ==> DirPuts(prefix, dir)[i] == Put(Join([prefix, dir[i].name]), dir[i].content)
  {
    if dir != [] {
      DirPutsPrefix(prefix, dir[..|dir| - 1], i);
    }
  }

  /** The first n rungs are up. */
  ghost predicate RungsUp(objects: Store, start: Store, prefixes: seq<string>, dirs: seq<seq<File>>, n: nat, done: nat)
    requires n <= |prefixes| == |dirs|
  {
    done == |RungPuts(prefixes, dirs, n)| && objects == Apply(start, RungPuts(prefixes, dirs, n))
  }

  /** The first `done` uploads are through. */
  ghost predicate UpTo(objects: Store, start: Store, all: seq<Put>, done: nat) {
    done <= |all| && objects == Apply(start, all[..done])
  }

  /** Rung i: its directory, then the row that records it. `start` is the store before the first rung. */
  method UploadRung(store: ObjectStore, r: Rung, prefixes: seq<string>, dirs: seq<seq<File>>, i: nat,
                    ghost start: Store, ghost answers: seq<bool>, ghost done: nat)
    returns (sent: nat, row: Option<PlaybackRung>)
    requires i < |prefixes| == |dirs| && RungsUp(store.objects, start, prefixes, dirs, i, done)
    requires AllAnswer(answers, done) && store.answers == Used(answers, done)
    modifies store
    ensures AllAnswer(answers, done + sent)
    ensures if row.Some? then store.answers == Used(answers, done + sent) else !Answers(answers, done + sent)
    ensures row.Some? ==> row.value == RowOf(r, prefixes[i])
    ensures row.Some? ==> RungsUp(store.objects, start, prefixes, dirs, i + 1, done + sent)
    ensures row.None? ==> UpTo(store.objects, start, RungPuts(prefixes, dirs, |dirs|), done + sent)
    ensures row.None? ==> done + sent < |RungPuts(prefixes, dirs, |dirs|)|
  {
    var ok;
    sent, ok := UploadDir(store, dirs[i], prefixes[i]);
    AnswersGoOn(answers, done, sent);
    if ok {
      RungDone(start, prefixes, dirs, i, sent);
      return sent, Some(RowOf(r, prefixes[i]));
    }
    Stopped(start, prefixes, dirs, i, sent);
    return sent, None;
  }

  lemma {:induction false} AllUp(objects: Store, start: Store, prefixes: seq<string>, dirs: seq<seq<File>>, done: nat)
    requires |prefixes| == |dirs| && RungsUp(objects, start, prefixes, dirs, |dirs|, done)
    ensures UpTo(objects, start, RungPuts(prefixes, dirs, |dirs|), done) && done == |RungPuts(prefixes, dirs, |dirs|)|
  {
    AllOf(RungPuts(prefixes, dirs, |dirs|));
  }

  /** Uploads rung after rung, recording each rung whose directory is complete. */
  method UploadRungs(store: ObjectStore, ladder: seq<Rung>, prefixes: seq<string>, dirs: seq<seq<File>>)
    returns (done: nat, renditions: Option<seq<PlaybackRung>>)
    requires |ladder| == |prefixes| == |dirs|
    modifies store
    ensures UpTo(store.objects, old(store.objects), RungPuts(prefixes, dirs, |dirs|), done)
    ensures renditions.Some? <==> done == |RungPuts(prefixes, dirs, |dirs|)|
    ensures renditions.Some? ==> renditions.value == Recorded(ladder, prefixes, |ladder|)
    ensures StoppedAt(old(store.answers), done, |RungPuts(prefixes, dirs, |dirs|)|)
    ensures renditions.Some? ==> store.answers == Used(old(store.answers), done)
  {
    var recorded: seq<PlaybackRung> := [];
    var i := 0;
    done := 0;
    while i < |ladder|
      invariant 0 <= i <= |ladder|
      invariant RungsUp(store.objects, old(store.objects), prefixes, dirs, i, done)
      invariant recorded == Recorded(ladder, prefixes, i)
      invariant AllAnswer(old(store.answers), done) && store.answers == Used(old(store.answers), done)
    {
      var sent, row := UploadRung(store, ladder[i], prefixes, dirs, i, old(store.objects), old(store.answers), done);
      done := done + sent;
      if row.None? {
        return done, None;
      }
      recorded := recorded + [row.value];
      i := i + 1;
    }
    AllUp(store.objects, old(store.objects), prefixes, dirs, done);
    return done, Some(recorded);
  }

  lemma {:induction false} AllOf<T>(s: seq<T>)
    ensures s[..|s|] == s
  {
  }

  /** An upload that fails in rung i leaves a prefix of all uploads applied. */
  lemma {:induction false} Stopped(store: Store, prefixes: seq<string>, dirs: seq<seq<File>>, i: nat, sent: nat)
    requires i < |prefixes| == |dirs| && sent < |DirPuts(prefixes[i], dirs[i])|
    ensures var before, all := RungPuts(prefixes, dirs, i), RungPuts(prefixes, dirs, |dirs|);
            && |before| + sent < |all|
            && Apply(store, all[..|before| + sent]) == Apply(Apply(store, before), DirPuts(prefixes[i], dirs[i])[..sent])
  {
    var before, puts := RungPuts(prefixes, dirs, i), DirPuts(prefixes[i], dirs[i]);
    RungPutsStart(prefixes, dirs, i, |dirs|);
    TakeOfPrefix(before, puts, RungPuts(prefixes, dirs, |dirs|), sent);
    ApplyAppend(store, before, puts[..sent]);
  }

  /** A rung whose directory went up whole extends the uploads by that rung's. */
  lemma {:induction false} RungDone(store: Store, prefixes: seq<string>, dirs: seq<seq<File>>, i: nat, sent: nat)
    requires i < |prefixes| == |dirs| && sent == |DirPuts(prefixes[i], dirs[i])|
    ensures |RungPuts(prefixes, dirs, i + 1)| == |RungPuts(prefixes, dirs, i)| + sent
    ensures Apply(Apply(store, RungPuts(prefixes, dirs, i)), DirPuts(prefixes[i], dirs[i])[..sent])
            == Apply(store, RungPuts(prefixes, dirs, i + 1))
  {
    var before, puts := RungPuts(prefixes, dirs, i), DirPuts(prefixes[i], dirs[i]);
    assert puts[..sent] == puts;
    ApplyAppend(store, before, puts);
  }

  lemma {:induction false} TakeOfPrefix<T>(a: seq<T>, b: seq<T>, all: seq<T>, k: nat)
    requires a + b <= all && k < |b|
    ensures |a| + k < |all| && all[..|a| + k] == a + b[..k]
  {
  }

  /** The poster is best-effort: one that is missing or fails to upload is left out. */
  method UploadPoster(store: ObjectStore, asset: string, v: int, poster: Option<string>) returns (posted: Option<string>)
    modifies store
    ensures posted == if Answers(old(store.answers), 0) then poster else None
    ensures store.objects == Apply(old(store.objects), PosterPuts(asset, v, posted))
    ensures store.answers == Used(old(store.answers), if poster.Some? then 1 else 0)
  {
    if poster.None? {
      return None;
    }
    var p := Put(Join(["renditions", asset, "v" + Decimal(v), "poster.webp"]), poster.value);
    assert [p][..0] == [];
    var ok := store.Upload(p);
    return if ok then poster else None;
  }

  /** The poster, if it can be, and then the master. */
  method UploadLast(store: ObjectStore, asset: string, v: int, o: Output, poster: Option<string>)
    returns (posted: Option<string>, ok: bool)
    requires |o.ladder| == |o.dirs|
    modifies store
    ensures posted == if Answers(old(store.answers), 0) then poster else None
    ensures ok == Answers(old(store.answers), if poster.Some? then 1 else 0)
    ensures var before, put := Apply(old(store.objects), PosterPuts(asset, v, posted)), MasterPut(asset, v, o);
            store.objects == if ok then before[put.key := put.content] else before
  {
    posted := UploadPoster(store, asset, v, poster);
    var master := BuildMasterPlaylist(o.ladder, o.w, o.h);
    ok := store.Upload(Put(MasterKey(asset, v), master));
  }

  /**
   * The upload half of runJob: the rungs in ladder order, then the poster, then the master. The store ends
   * with a prefix of the plan applied, the whole of it exactly when the run goes on to report success; which
   * it does exactly when no upload but the poster's fails.
   */
  method Publish(store: ObjectStore, asset: string, v: int, o: Output, poster: Option<string>)
    returns (row: Option<PlaybackAsset>, posted: Option<string>, done: nat)
    requires |o.ladder| == |o.dirs|
    modifies store
    ensures done <= |Plan(asset, v, o, posted)|
    ensures store.objects == Apply(old(store.objects), Plan(asset, v, o, posted)[..done])
    ensures row.Some? <==> done == |Plan(asset, v, o, posted)|
    ensures row.Some? ==> row.value == AssetRow(asset, v, o.ladder)
    ensures var n, answers := |AllRungPuts(asset, v, o)|, old(store.answers);
            && (posted == if AllAnswer(answers, n) && Answers(answers, n) then poster else None)
            && (row.Some? <==> AllAnswer(answers, n) && Answers(answers, if poster.Some? then n + 1 else n))
  {
    ghost var rungs, last := AllRungPuts(asset, v, o), MasterPut(asset, v, o);
    var renditions;
    done, renditions := UploadRungs(store, o.ladder, Prefixes(asset, v, o.ladder), o.dirs);
    if renditions.None? {
      PlanTake(rungs, PosterPuts(asset, v, None), last, done);
      return None, None, done;
    }
    assert rungs[..done] == rungs;
    AnswersGoOn(old(store.answers), done, 0);
    AnswersGoOn(old(store.answers), done, 1);
    var ok;
    posted, ok := UploadLast(store, asset, v, o, poster);
    PlanTakes(rungs, PosterPuts(asset, v, posted), last);
    PlanApplies(old(store.objects), rungs, PosterPuts(asset, v, posted), last);
    done := done + if posted.Some? then 1 else 0;
    if !ok {
      return None, posted, done;
    }
    return Some(PlaybackAsset(asset, true, MasterKey(asset, v), v, renditions.value)), posted, done + 1;
  }

  lemma {:induction false} PlanTake(rungs: seq<Put>, posters: seq<Put>, last: Put, k: nat)
    requires k <= |rungs|
    ensures (rungs + posters + [last])[..k] == rungs[..k]
  {
  }

  lemma {:induction false} PlanTakes(rungs: seq<Put>, posters: seq<Put>, last: Put)
    ensures var plan := rungs + posters + [last];
            && plan[..|rungs|] == rungs
            && plan[..|rungs| + |posters|] == rungs + posters
            && plan[..|plan|] == plan && plan[..|plan| - 1] == rungs + posters
  {
  }

  lemma {:induction false} PlanApplies(store: Store, rungs: seq<Put>, posters: seq<Put>, last: Put)
    ensures Apply(store, rungs + posters) == Apply(Apply(store, rungs), posters)
    ensures Apply(store, rungs + posters + [last]) == Apply(store, rungs + posters)[last.key := last.content]
  {
    ApplyAppend(store, rungs, posters);
    PlanTakes(rungs, posters, last);
  }

  /** The uploads begin with those of the first rungs, then those of the next one. */
  lemma {:induction false} RungPutsStart(prefixes: seq<string>, dirs: seq<seq<File>>, i: nat, n: nat)
    requires i < n <= |prefixes| == |dirs|
    ensures RungPuts(prefixes, dirs, i) + DirPuts(prefixes[i], dirs[i]) <= RungPuts(prefixes, dirs, n)
  {
    if i < n - 1 {
      RungPutsStart(prefixes, dirs, i, n - 1);
      PrefixExtends(RungPuts(prefixes, dirs, i) + DirPuts(prefixes[i], dirs[i]), RungPuts(prefixes, dirs, n - 1),
                    DirPuts(prefixes[n - 1], dirs[n - 1]));
    }
  }

  lemma {:induction false} PrefixExtends<T>(a: seq<T>, b: seq<T>, c: seq<T>)
    requires a <= b
    ensures a <= b + c
  {
  }
}
