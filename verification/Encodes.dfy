/**
 * What encodes of an asset may leave in the work directory, under which keys their files go up, and in
 * which place of a run's uploads each of them is.
 */
module Encodes {
  import opened Text
  import opened Paths
  import opened Ladder
  import opened Playlists
  import opened Playback
  import opened Publication

  predicate HasFile(dir: seq<File>, name: string) {
    exists j | 0 <= j < |dir| :: dir[j].name == name
  }

  /** The place of a file in the order of upload, |dir| when it is not there. */
  function Place(dir: seq<File>, name: string): (k: nat)
    ensures k <= |dir| && (k < |dir| ==> dir[k].name == name)
    ensures forall j | 0 <= j < k :: dir[j].name != name
  {
    if dir == [] then 0 else if dir[0].name == name then 0 else 1 + Place(dir[1..], name)
  }

  /** A media line of a playlist. */
  predicate ListsLine(text: string, line: string) {
    !Passes(line) && line in Lines(text)
  }

  /** A text the player's requests can go by: within the limits, and no line that would be refused. */
  ghost predicate SafeText(text: string) {
    && |text| <= MAX_PLAYLIST && Scannable(text)
    && forall line | ListsLine(text, line) :: !Unsafe(line) && line != "."
  }

  /**
   * What FFmpeg is assumed to leave in a rung's directory: files of different ordinary names, among them an
   * index that lists files of the same directory.
   */
  ghost predicate DirOk(dir: seq<File>) {
    && (forall i, j | 0 <= i < j < |dir| :: dir[i].name != dir[j].name)
    && (forall j | 0 <= j < |dir| :: Plain(dir[j].name))
    && HasFile(dir, INDEX)
    && SafeText(IndexText(dir))
    && forall line | ListsLine(IndexText(dir), line) :: HasFile(dir, line)
  }

  /** The index a directory holds. */
  function IndexText(dir: seq<File>): string {
    if Place(dir, INDEX) < |dir| then dir[Place(dir, INDEX)].content else ""
  }

  lemma {:induction false} PlaceOf(dir: seq<File>, name: string)
    ensures Place(dir, name) < |dir| <==> HasFile(dir, name)
  {
  }

  /** What all encodes of an asset have in common, since it depends on the source alone. */
  datatype Source = Source(ladder: seq<Rung>, w: nat, h: nat)

  ghost predicate SourceOk(s: Source) {
    && AllPrintable(s.ladder, s.w, s.h)
    && (forall i, j | 0 <= i < j < |s.ladder| :: s.ladder[i].name != s.ladder[j].name)
    && |MasterText(s.ladder, s.w, s.h)| <= MAX_PLAYLIST
  }

  /**
   * The pipeline version, each asset's source, and which directories an encode of it may leave, one a rung.
   * Assets are named by their UUID.
   */
  datatype World = World(v: int, of: string -> Source, may: (string, seq<seq<File>>) -> bool) {
    ghost predicate Known(asset: string) {
      Plain(asset) && SourceOk(of(asset))
    }

    ghost predicate Encode(asset: string, dirs: seq<seq<File>>) {
      may(asset, dirs) && |dirs| == |of(asset).ladder| && forall i | 0 <= i < |dirs| :: DirOk(dirs[i])
    }

    function Output(asset: string, dirs: seq<seq<File>>): Output {
      Publication.Output.Output(of(asset).ladder, of(asset).w, of(asset).h, dirs)
    }
  }

  // ---------------------------------------------------------------- keys

  predicate RungAt(world: World, a: string, i: nat) {
    i < |world.of(a).ladder|
  }

  /** The key of a file of rung i. */
  function KeyOf(world: World, a: string, i: nat, name: string): string
    requires RungAt(world, a, i)
  {
    FileKey(a, world.v, world.of(a).ladder[i].name, name)
  }

  /** A file's key gives away its asset, rung and name. */
  lemma {:induction false} FileKeyDetermines(v: int, a: string, r: string, n: string, b: string, q: string, m: string)
    requires Plain(a) && Plain(r) && Plain(n) && Plain(b) && Plain(q) && Plain(m)
    requires FileKey(a, v, r, n) == FileKey(b, v, q, m)
    ensures a == b && r == q && n == m
  {
    FileKeyParts(a, v, r, n);
    FileKeyParts(b, v, q, m);
    var x, y := ["renditions", a, "v" + Decimal(v), r, n], ["renditions", b, "v" + Decimal(v), q, m];
    assert x == y;
    assert x[1] == y[1] && x[3] == y[3] && x[4] == y[4];
  }

  lemma {:induction false} MasterKeyDetermines(v: int, a: string, b: string)
    requires Plain(a) && Plain(b) && MasterKey(a, v) == MasterKey(b, v)
    ensures a == b
  {
    MasterKeyParts(a, v);
    MasterKeyParts(b, v);
    var x, y := ["renditions", a, "v" + Decimal(v), "master.m3u8"], ["renditions", b, "v" + Decimal(v), "master.m3u8"];
    assert x == y;
    assert x[1] == y[1];
  }

  lemma {:induction false} MasterIsNoFile(v: int, a: string, b: string, r: string, n: string)
    requires Plain(a) && Plain(b) && Plain(r) && Plain(n)
    ensures MasterKey(a, v) != FileKey(b, v, r, n)
  {
    MasterKeyParts(a, v);
    FileKeyParts(b, v, r, n);
  }

  /** The poster lies beside the master, under another name. */
  lemma {:induction false} PosterIsNeither(v: int, a: string, b: string, r: string, n: string)
    requires Plain(a) && Plain(b) && Plain(r) && Plain(n)
    ensures var key := Join(["renditions", a, "v" + Decimal(v), "poster.webp"]);
            key != MasterKey(b, v) && key != FileKey(b, v, r, n)
  {
    VersionIsPlain(v);
    var parts := ["renditions", a, "v" + Decimal(v), "poster.webp"];
    JoinPlain(parts);
    MasterKeyParts(b, v);
    FileKeyParts(b, v, r, n);
    var other := ["renditions", b, "v" + Decimal(v), "master.m3u8"];
    assert parts[3] != other[3];
  }

  lemma {:induction false} RungIsPlain(world: World, a: string, i: nat)
    requires world.Known(a) && RungAt(world, a, i)
    ensures Plain(a) && Plain(world.of(a).ladder[i].name) && RungName(world.of(a).ladder[i].name)
  {
    var ladder := world.of(a).ladder;
    assert ladder[i] in ladder;
    UriLine(ladder[i].name);
  }

  /** One key, one file. */
  lemma {:induction false} OneFile(world: World, a: string, i: nat, name: string, b: string, j: nat, name': string)
    requires world.Known(a) && world.Known(b) && RungAt(world, a, i) && RungAt(world, b, j)
    requires Plain(name) && Plain(name') && KeyOf(world, a, i, name) == KeyOf(world, b, j, name')
    ensures a == b && i == j && name == name'
  {
    RungIsPlain(world, a, i);
    RungIsPlain(world, b, j);
    FileKeyDetermines(world.v, a, world.of(a).ladder[i].name, name, b, world.of(b).ladder[j].name, name');
  }

  lemma {:induction false} FileIsNoMaster(world: World, a: string, i: nat, name: string, b: string)
    requires world.Known(a) && RungAt(world, a, i) && Plain(name) && Plain(b)
    ensures KeyOf(world, a, i, name) != MasterKey(b, world.v)
  {
    RungIsPlain(world, a, i);
    MasterIsNoFile(world.v, b, a, world.of(a).ladder[i].name, name);
  }

  lemma {:induction false} FileIsNoPoster(world: World, a: string, i: nat, name: string, b: string)
    requires world.Known(a) && RungAt(world, a, i) && Plain(name) && Plain(b)
    ensures KeyOf(world, a, i, name) != PosterKey(b, world.v)
  {
    RungIsPlain(world, a, i);
    PosterIsNeither(world.v, b, a, world.of(a).ladder[i].name, name);
  }

  function PosterKey(a: string, v: int): string {
    Join(["renditions", a, "v" + Decimal(v), "poster.webp"])
  }

  lemma {:induction false} PosterIsNoMaster(v: int, a: string, b: string)
    requires Plain(a) && Plain(b)
    ensures PosterKey(a, v) != MasterKey(b, v)
  {
    PosterIsNeither(v, a, b, "x", "x");
  }

  lemma {:induction false} IndexIsPlain()
    ensures Plain(INDEX)
  {
    var s := INDEX;
    assert s[0] == 'i';
  }

  // ---------------------------------------------------------------- the place of an upload

  /** How many uploads precede those of rung i. */
  function Offset(prefixes: seq<string>, dirs: seq<seq<File>>, i: nat): nat
    requires i <= |prefixes| == |dirs|
  {
    |RungPuts(prefixes, dirs, i)|
  }

  function FilePut(prefixes: seq<string>, dirs: seq<seq<File>>, i: nat, j: nat): Put
    requires i < |prefixes| == |dirs| && j < |dirs[i]|
  {
    Put(Join([prefixes[i], dirs[i][j].name]), dirs[i][j].content)
  }

  /** File j of rung i is upload number Offset(i) + j. */
  lemma {:induction false} FileAtPlace(prefixes: seq<string>, dirs: seq<seq<File>>, i: nat, j: nat, n: nat)
    requires i < n <= |prefixes| == |dirs| && j < |dirs[i]|
    ensures Offset(prefixes, dirs, i) + j < |RungPuts(prefixes, dirs, n)|
    ensures RungPuts(prefixes, dirs, n)[Offset(prefixes, dirs, i) + j] == FilePut(prefixes, dirs, i, j)
  {
    RungPutsStart(prefixes, dirs, i, n);
    DirPutsPrefix(prefixes[i], dirs[i], j);
    AtInPrefix(RungPuts(prefixes, dirs, i), DirPuts(prefixes[i], dirs[i]), RungPuts(prefixes, dirs, n), j);
  }

  lemma {:induction false} AtInPrefix<T>(a: seq<T>, b: seq<T>, all: seq<T>, j: nat)
    requires a + b <= all && j < |b|
    ensures |a| + j < |all| && all[|a| + j] == b[j]
  {
    assert (a + b)[|a| + j] == b[j];
  }

  /** And every upload of a rung is some file's. */
  lemma {:induction false} PlaceIsFile(prefixes: seq<string>, dirs: seq<seq<File>>, n: nat, k: nat) returns (i: nat,
                                       j: nat)
    requires n <= |prefixes| == |dirs| && k < |RungPuts(prefixes, dirs, n)|
    ensures i < n && j < |dirs[i]| && k == Offset(prefixes, dirs, i) + j
    ensures RungPuts(prefixes, dirs, n)[k] == FilePut(prefixes, dirs, i, j)
  {
    if k < Offset(prefixes, dirs, n - 1) {
      i, j := PlaceIsFile(prefixes, dirs, n - 1, k);
    } else {
      i, j := n - 1, k - Offset(prefixes, dirs, n - 1);
      DirPutsPrefix(prefixes[i], dirs[i], 0);
    }
    FileAtPlace(prefixes, dirs, i, j, n);
  }

  lemma {:induction false} ApplyKeys(store: Store, puts: seq<Put>, key: string)
    ensures key in Apply(store, puts) <==> key in store || exists i | 0 <= i < |puts| :: puts[i].key == key
  {
    if puts != [] {
      ApplyKeys(store, puts[..|puts| - 1], key);
    }
  }

  // ---------------------------------------------------------------- the ladders that occur

  lemma {:induction false} UnlinesLength(lines: seq<string>)
    requires forall l | l in lines :: |l| < 1000
    ensures |Unlines(lines)| <= 1000 * |lines|
  {
    if lines != [] {
      UnlinesLength(lines[1..]);
    }
  }

  lemma {:induction false} VariantLinesLength(rungs: seq<Rung>, w: nat, h: nat)
    ensures |VariantLines(rungs, w, h)| == 2 * |rungs|
  {
    if rungs != [] {
      VariantLinesLength(rungs[..|rungs| - 1], w, h);
    }
  }

  lemma {:induction false} MasterIsSmall(ladder: seq<Rung>, w: nat, h: nat)
    requires AllPrintable(ladder, w, h) && |ladder| <= 5
    ensures |MasterText(ladder, w, h)| <= MAX_PLAYLIST
  {
    var sorted := ByPeak(ladder);
    ByPeakIsStableSort(ladder, 0);
    assert |sorted| == |multiset(sorted)|;
    assert |ladder| == |multiset(ladder)|;
    forall r | r in sorted ensures r in ladder {
      assert r in multiset(sorted);
    }
    VariantLinesClean(sorted, w, h);
    VariantLinesLength(sorted, w, h);
    HeaderClean();
    UnlinesLength(MasterLines(ladder, w, h));
  }

  lemma {:induction false} RungNames()
    ensures forall i | 0 <= i < 5 :: RungName(FULL_LADDER[i].name)
    ensures forall i, j | 0 <= i < j < 5 :: FULL_LADDER[i].name != FULL_LADDER[j].name
  {
    var a, b, c, d, e := FULL_LADDER[0].name, FULL_LADDER[1].name, FULL_LADDER[2].name,
                         FULL_LADDER[3].name, FULL_LADDER[4].name;
    assert a[0] == '1' && b[0] == '7' && c[0] == '4' && d[0] == '3' && e[0] == '2';
    assert RungName(a) && RungName(b) && RungName(c) && RungName(d) && RungName(e);
  }

  lemma {:induction false} Pow10Grows(k: nat)
    ensures Pow10(k + 4) == 10_000 * Pow10(k) && Pow10(k) >= 1
  {
    if k > 0 {
      Pow10Grows(k - 1);
    } else {
      assert Pow10(2) == 10 * Pow10(1);
      assert Pow10(4) == 10 * Pow10(3) == 100 * Pow10(2);
    }
  }

  lemma {:induction false} Pow10Large()
    ensures Pow10(19) >= 1_000_000_000_000
  {
    Pow10Grows(15);
    Pow10Grows(11);
    Pow10Grows(7);
  }

  lemma {:induction false} FactorBound(x: nat, h: nat, n: nat)
    requires h > 0 && x * h <= n
    ensures x <= n
  {
    assert x * (h - 1) >= 0;
    assert x * h == x * (h - 1) + x;
  }

  lemma {:induction false} ProductBound(a: nat, w: nat)
    requires a <= 1080 && w <= 0x7FFF_FFFF
    ensures a * w <= 1080 * 0x7FFF_FFFF
  {
    assert (1080 - a) * w >= 0;
    assert 1080 * w == a * w + (1080 - a) * w;
  }

  lemma {:induction false} WidthBound(r: Rung, w: nat, h: nat)
    requires r.height <= 1080 && w <= 0x7FFF_FFFF
    ensures Width(r, w, h) <= 1080 * 0x7FFF_FFFF
  {
    if h > 0 {
      FactorBound(Width(r, w, h), h, r.height * w);
      ProductBound(r.height, w);
    }
  }

  predicate SmallNumbers(r: Rung) {
    r.height <= 1080 && PeakBandwidth(r) <= 10_000_000 && AverageBandwidth(r) <= 10_000_000
  }

  lemma {:induction false} FullLadderSmall()
    ensures forall i | 0 <= i < 5 :: SmallNumbers(FULL_LADDER[i])
  {
  }

  lemma {:induction false} NumbersPrint(r: Rung, w: nat, h: nat)
    requires SmallNumbers(r) && RungName(r.name) && w <= 0x7FFF_FFFF
    ensures Printable(r, w, h)
  {
    Pow10Large();
    WidthBound(r, w, h);
  }

  lemma {:induction false} FullLadderPrints(w: nat, h: nat)
    requires w <= 0x7FFF_FFFF
    ensures AllPrintable(FULL_LADDER, w, h)
    ensures forall r, q | r in FULL_LADDER && q in FULL_LADDER && r.name == q.name :: r == q
  {
    RungNames();
    FullLadderSmall();
    forall r | r in FULL_LADDER ensures Printable(r, w, h) {
      var i :| 0 <= i < 5 && FULL_LADDER[i] == r;
      NumbersPrint(r, w, h);
    }
  }

  /** Whatever the source's size, its ladder is one the theorems are about. */
  lemma {:induction false} LadderFits(w: nat, h: nat)
    requires w <= 0x7FFF_FFFF
    ensures SourceOk(Source(LadderSpec(h), w, h))
  {
    var ladder := LadderSpec(h);
    LadderSpecIs(h);
    FullLadderPrints(w, h);
    assert AllPrintable(ladder, w, h);
    MasterIsSmall(ladder, w, h);
    forall i, j | 0 <= i < j < |ladder| ensures ladder[i].name != ladder[j].name {
      assert ladder[i] in ladder && ladder[j] in ladder;
    }
  }

  /** A segment and an index that names it. */
  function DirWith(segment: string): seq<File> {
    [File(INDEX, Unlines([segment])), File(segment, "")]
  }

  /** Such directories exist. */
  lemma {:induction false} DirExists(segment: string)
    requires Plain(segment) && segment != INDEX && CleanLine(segment)
    requires !Passes(segment) && !Unsafe(segment) && segment != "."
    ensures DirOk(DirWith(segment))
  {
    var dir := DirWith(segment);
    IndexIsPlain();
    CleanLinesScan([segment]);
    UnlinesLength([segment]);
    assert dir[0].name == INDEX && dir[1].name == segment;
    assert IndexText(dir) == Unlines([segment]);
  }
}
