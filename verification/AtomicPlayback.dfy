/** Playback of READY assets: the closure of everything a player is led to, and exactly when it holds. */
module AtomicPlayback {
  import opened Results
  import opened Text
  import opened Paths
  import opened Ladder
  import opened Playlists
  import opened Playback
  import opened Publication
  import opened Encodes
  import opened Atomicity
  import opened AtomicityExact

  lemma {:induction false} RecordedAre(ladder: seq<Rung>, prefixes: seq<string>, n: nat)
    requires n <= |ladder| == |prefixes|
    ensures |Recorded(ladder, prefixes, n)| == n
    ensures forall i | 0 <= i < n :: Recorded(ladder, prefixes, n)[i] == RowOf(ladder[i], prefixes[i])
  {
    if n > 0 {
      RecordedAre(ladder, prefixes, n - 1);
    }
  }

  lemma {:induction false} NamesRecorded(a: string, v: int, ladder: seq<Rung>)
    ensures forall r | r in ladder :: r.name in Names(AssetRow(a, v, ladder).rungs)
  {
    var rows := AssetRow(a, v, ladder).rungs;
    RecordedAre(ladder, Prefixes(a, v, ladder), |ladder|);
    forall r | r in ladder ensures r.name in Names(rows) {
      var i :| 0 <= i < |ladder| && ladder[i] == r;
      assert rows[i] in rows;
    }
  }

  /** Whenever an asset is READY its master is stored, and its row names its rungs. */
  lemma {:induction false} ReadyHasMaster(world: World, es: seq<Event>, a: string)
    requires a in Play(world, START, es).ready
    ensures var s := Play(world, START, es);
            && world.Known(a) && s.ready[a] == AssetRow(a, world.v, world.of(a).ladder)
            && MasterKey(a, world.v) in s.store
            && s.store[MasterKey(a, world.v)] == MasterText(world.of(a).ladder, world.of(a).w, world.of(a).h)
  {
    Reached(world, es);
    assert AssetOk(world, Play(world, START, es).store, a);
  }

  lemma {:induction false} MasterPlays(store: Store, a: string, v: int, s: Source)
    requires Plain(a) && AllPrintable(s.ladder, s.w, s.h) && |MasterText(s.ladder, s.w, s.h)| <= MAX_PLAYLIST
    requires MasterKey(a, v) in store && store[MasterKey(a, v)] == MasterText(s.ladder, s.w, s.h)
    ensures ServeMaster(store, AssetRow(a, v, s.ladder)) == Some(Unlines(ServedMaster(s.ladder, s.w, s.h)))
  {
    var row := AssetRow(a, v, s.ladder);
    assert MasterKey(a, v) != "" by { MasterKeyParts(a, v); }
    ServedText(store, row, store[row.masterKey]);
    NamesRecorded(a, v, s.ladder);
    MasterRoundTrip(s.ladder, s.w, s.h, Names(row.rungs));
  }

  lemma {:induction false} ServedText(store: Store, row: PlaybackAsset, text: string)
    requires row.ready && row.masterKey != "" && row.masterKey in store && store[row.masterKey] == text
    requires |text| <= MAX_PLAYLIST
    ensures ServeMaster(store, row) == RewriteText(text, MasterRule(Names(row.rungs)))
  {
    ReadIsRewritten(store, row.masterKey, MasterRule(Names(row.rungs)));
  }

  ghost predicate SignsAll(sign: string -> Option<string>) {
    SignsCleanly(sign) && forall k :: sign(k).Some?
  }

  /**
   * Whatever runs came before, stale ones included: the master of every READY asset is served without
   * error, as the printed lines with each reference replaced by its rung's API path.
   */
  lemma {:induction false} ReadyMasterPlays(world: World, es: seq<Event>, a: string)
    requires a in Play(world, START, es).ready
    ensures var s, o := Play(world, START, es), world.of(a);
            ServeMaster(s.store, s.ready[a]) == Some(Unlines(ServedMaster(o.ladder, o.w, o.h)))
  {
    ReadyHasMaster(world, es, a);
    MasterPlays(Play(world, START, es).store, a, world.v, world.of(a));
  }

  /** The variant of rung i is served line by line, and what its references become are signed stored keys. */
  ghost predicate VariantServed(store: Store, row: PlaybackAsset, v: int, rung: string,
                                sign: string -> Option<string>) {
    && RungKey(row.rungs, rung) in store
    && var lines, served := Lines(store[RungKey(row.rungs, rung)]), ServeVariant(store, row, rung, sign);
    && served.Some?
    && |Segments(served.value)| == |lines|
    && forall k | 0 <= k < |lines| ::
         LineServed(store, RenditionPrefix(row.id, v, rung), lines[k], Segments(served.value)[k], sign)
  }

  predicate LineServed(store: Store, prefix: string, line: string, served: string, sign: string -> Option<string>) {
    if Passes(line) then served == line
    else prefix + "/" + line in store && Some(served) == sign(prefix + "/" + line)
  }

  /** The recorded key of rung i is that of its index. */
  lemma {:induction false} RecordedKey(world: World, a: string, i: nat)
    requires world.Known(a) && RungAt(world, a, i)
    ensures var name := world.of(a).ladder[i].name;
            RungKey(AssetRow(a, world.v, world.of(a).ladder).rungs, name) == KeyOf(world, a, i, INDEX) != ""
  {
    var ladder := world.of(a).ladder;
    var rows := AssetRow(a, world.v, ladder).rungs;
    RungIsPlain(world, a, i);
    RecordedAre(ladder, Prefixes(a, world.v, ladder), |ladder|);
    FirstRungKey(rows, i);
    IndexIsPlain();
    FileKeyParts(a, world.v, ladder[i].name, INDEX);
  }

  lemma {:induction false} MediaKey(world: World, a: string, i: nat, line: string)
    requires world.Known(a) && RungAt(world, a, i) && Plain(line)
    ensures KeyOf(world, a, i, line) == RenditionPrefix(a, world.v, world.of(a).ladder[i].name) + "/" + line
  {
    RungIsPlain(world, a, i);
    FileKeyParts(a, world.v, world.of(a).ladder[i].name, line);
  }

  /** The media lines of a stored index are ordinary names. */
  lemma {:induction false} StoredIndexIsSafe(world: World, store: Store, a: string, i: nat)
    requires RungAt(world, a, i) && IndexFrom(world, store, a, i) && KeyOf(world, a, i, INDEX) in store
    ensures SafeText(store[KeyOf(world, a, i, INDEX)])
    ensures forall line | ListsLine(store[KeyOf(world, a, i, INDEX)], line) :: Plain(line)
  {
    var f: seq<seq<File>> :| WroteIndex(world, store, a, i, f);
    assert DirOk(f[i]);
    forall line | ListsLine(IndexText(f[i]), line) ensures Plain(line) {
      ListedIsPlain(f[i], line);
    }
  }

  /** A safe playlist is rewritten line by line, when everything can be signed. */
  lemma {:induction false} SafeIsServed(store: Store, row: PlaybackAsset, rung: string, raw: string,
                                        sign: string -> Option<string>)
    requires row.ready && row.masterKey != "" && RungName(rung) && Plain(rung) && Plain(row.id) && SignsAll(sign)
    requires RungKey(row.rungs, rung) != "" && RungKey(row.rungs, rung) in store && store[RungKey(row.rungs, rung)] == raw
    requires SafeText(raw)
    requires forall line | ListsLine(raw, line) :: RenditionPrefix(row.id, row.version, rung) + "/" + line in store
    ensures VariantServed(store, row, row.version, rung, sign)
  {
    ReadIsRewritten(store, RungKey(row.rungs, rung), VariantRule(RenditionPrefix(row.id, row.version, rung), sign));
    VariantRewrites(raw, row.id, row.version, rung, sign);
    forall k | 0 <= k < |Lines(raw)| && !Passes(Lines(raw)[k])
      ensures !Unsafe(Lines(raw)[k]) && Lines(raw)[k] != "."
      ensures RenditionPrefix(row.id, row.version, rung) + "/" + Lines(raw)[k] in store
    {
      assert ListsLine(raw, Lines(raw)[k]);
    }
  }

  lemma {:induction false} LeadingPlays(world: World, store: Store, a: string, i: nat, sign: string -> Option<string>)
    requires world.Known(a) && RungAt(world, a, i) && IndexFrom(world, store, a, i) && Leads(world, store, a, i)
    requires SignsAll(sign)
    ensures VariantServed(store, AssetRow(a, world.v, world.of(a).ladder), world.v, world.of(a).ladder[i].name, sign)
  {
    var raw := store[KeyOf(world, a, i, INDEX)];
    RecordedKey(world, a, i);
    RungIsPlain(world, a, i);
    MasterKeyParts(a, world.v);
    StoredIndexIsSafe(world, store, a, i);
    forall line | ListsLine(raw, line)
      ensures RenditionPrefix(a, world.v, world.of(a).ladder[i].name) + "/" + line in store
    {
      MediaKey(world, a, i, line);
    }
    SafeIsServed(store, AssetRow(a, world.v, world.of(a).ladder), world.of(a).ladder[i].name, raw, sign);
  }

  /**
   * When the encodes fit together, each variant the served master names is served: its recorded playlist is
   * in the store, no line of it is refused, and every key signed for a segment is a stored object's.
   */
  lemma {:induction false} ReadyVariantPlays(world: World, es: seq<Event>, a: string, i: nat,
                                             sign: string -> Option<string>)
    requires a in Play(world, START, es).ready && RungAt(world, a, i) && SignsAll(sign) && Compatible(world, a)
    ensures var s := Play(world, START, es);
            VariantServed(s.store, s.ready[a], world.v, world.of(a).ladder[i].name, sign)
  {
    ReadyHasMaster(world, es, a);
    MasterLeadsNowhereMissing(world, es, a);
    Reached(world, es);
    assert AssetOk(world, Play(world, START, es).store, a);
    LeadingPlays(world, Play(world, START, es).store, a, i, sign);
  }

  /** Line x of the served master is rung i's tag, the line below leads to rung i, and with `plays` it is served there. */
  ghost predicate LeadsToRung(world: World, s: State, a: string, lines: seq<string>, x: nat, i: nat,
                              sign: string -> Option<string>, plays: bool)
    requires a in s.ready
  {
    && RungAt(world, a, i)
    && var o := world.of(a);
    && LeadsTo(lines, x, StreamInf(o.ladder[i], o.w, o.h), ["variants", o.ladder[i].name, "index.m3u8"])
    && (plays ==> VariantServed(s.store, s.ready[a], world.v, o.ladder[i].name, sign))
  }

  ghost predicate LeadsSomewhere(world: World, s: State, a: string, lines: seq<string>, x: nat,
                                 sign: string -> Option<string>, plays: bool)
    requires a in s.ready
  {
    exists i: nat :: LeadsToRung(world, s, a, lines, x, i, sign, plays)
  }

  /**
   * From the served text of any READY asset: it starts as a playlist of version 3, has two more lines per rung,
   * and under each rung's tag a reference to the variants' route of that very rung; which is served whole there
   * when the encodes fit together.
   */
  lemma {:induction false} ServedMasterLeads(world: World, es: seq<Event>, a: string, k: nat,
                                             sign: string -> Option<string>)
    requires a in Play(world, START, es).ready && SignsAll(sign) && k < |world.of(a).ladder|
    ensures var s := Play(world, START, es);
            var served := ServeMaster(s.store, s.ready[a]);
            && served.Some?
            && var lines := Segments(served.value);
            && |lines| == 2 * |world.of(a).ladder| + 2 && lines[0] == "#EXTM3U" && lines[1] == "#EXT-X-VERSION:3"
            && LeadsSomewhere(world, s, a, lines, 2 * k + 2, sign, Compatible(world, a))
  {
    var s, o := Play(world, START, es), world.of(a);
    ReadyMasterPlays(world, es, a);
    ReadyHasMaster(world, es, a);
    ServedReadsBack(o.ladder, o.w, o.h, k);
    var r := ByPeak(o.ladder)[k];
    var i: nat :| i < |o.ladder| && o.ladder[i] == r;
    if Compatible(world, a) {
      ReadyVariantPlays(world, es, a, i, sign);
    }
    var lines := Segments(ServeMaster(s.store, s.ready[a]).value);
    assert LeadsToRung(world, s, a, lines, 2 * k + 2, i, sign, Compatible(world, a));
  }

  /** And every rung of the asset is among those led to. */
  lemma {:induction false} EveryRungIsLedTo(world: World, a: string, i: nat)
    requires RungAt(world, a, i)
    ensures exists k: nat :: k < |ByPeak(world.of(a).ladder)| && ByPeak(world.of(a).ladder)[k] == world.of(a).ladder[i]
  {
    var ladder := world.of(a).ladder;
    ByPeakIsStableSort(ladder, 0);
    assert ladder[i] in multiset(ladder);
    assert ladder[i] in ByPeak(ladder);
  }

  /** A variant whose index lists a missing file is not served whole. */
  lemma {:induction false} BrokenIsNotServed(world: World, s: State, a: string, i: nat, line: string,
                                             sign: string -> Option<string>)
    requires world.Known(a) && RungAt(world, a, i) && Broken(world, s, a, i, line) && Plain(line)
    ensures !VariantServed(s.store, s.ready[a], world.v, world.of(a).ladder[i].name, sign)
  {
    RecordedKey(world, a, i);
    MediaKey(world, a, i, line);
    var lines := Lines(s.store[KeyOf(world, a, i, INDEX)]);
    var k :| 0 <= k < |lines| && lines[k] == line;
    assert !Passes(lines[k]);
  }

  /** After the events, every variant of the asset, if it is READY, is served. */
  ghost predicate Plays(world: World, es: seq<Event>, a: string, sign: string -> Option<string>) {
    var s := Play(world, START, es);
    a in s.ready ==>
      forall i: nat | RungAt(world, a, i) ::
        VariantServed(s.store, s.ready[a], world.v, world.of(a).ladder[i].name, sign)
  }

  /** Over every interleaving of runs a READY asset plays, exactly when its encodes fit together. */
  lemma {:induction false} PlaybackExactly(world: World, a: string, sign: string -> Option<string>)
    requires world.Known(a) && SignsAll(sign)
    ensures Compatible(world, a) <==> forall es: seq<Event> :: Plays(world, es, a, sign)
  {
    if Compatible(world, a) {
      forall es: seq<Event> ensures Plays(world, es, a, sign) {
        if a in Play(world, START, es).ready {
          forall i: nat | RungAt(world, a, i)
            ensures var s := Play(world, START, es);
                    VariantServed(s.store, s.ready[a], world.v, world.of(a).ladder[i].name, sign)
          {
            ReadyVariantPlays(world, es, a, i, sign);
          }
        }
      }
    } else {
      MisfitExists(world, a);
      var e: seq<seq<File>>, f: seq<seq<File>>, i: nat, line: string :| Misfit(world, a, e, f, i, line);
      var es := MisfitStops(world, a, e, f, i, line, sign);
    }
  }

  lemma {:induction false} MisfitStops(world: World, a: string, e: seq<seq<File>>, f: seq<seq<File>>, i: nat,
                                       line: string,
                    sign: string -> Option<string>)
    returns (es: seq<Event>)
    requires world.Known(a) && Misfit(world, a, e, f, i, line)
    ensures !Plays(world, es, a, sign)
  {
    es := MisfitOpens(world, a, e, f, i, line);
    assert DirOk(f[i]);
    ListedIsPlain(f[i], line);
    BrokenIsNotServed(world, Play(world, START, es), a, i, line, sign);
  }

  // ---------------------------------------------------------------- encodes that fit together

  /** Encodes that leave files of the same names, as byte-identical ones do, fit together. */
  lemma {:induction false} SameNamesFit(world: World, a: string)
    requires forall e, f, i: nat, name |
               world.Encode(a, e) && world.Encode(a, f) && RungAt(world, a, i) && HasFile(f[i], name) ::
               HasFile(e[i], name)
    ensures Compatible(world, a)
  {
    forall e, f, i: nat, line |
      world.Encode(a, e) && world.Encode(a, f) && RungAt(world, a, i) && ListsLine(IndexText(f[i]), line)
      ensures Covered(e[i], f[i], line)
    {
      assert DirOk(f[i]);
    }
  }

  /** When the index goes up first, as its name sorts, nothing but the other encodes' files can cover a line. */
  lemma {:induction false} IndexFirstNeedsNames(world: World, a: string)
    requires forall f, i: nat | world.Encode(a, f) && RungAt(world, a, i) :: Place(f[i], INDEX) == 0
    ensures Compatible(world, a) <==>
              forall e, f, i: nat, line |
                world.Encode(a, e) && world.Encode(a, f) && RungAt(world, a, i) && ListsLine(IndexText(f[i]), line) ::
                HasFile(e[i], line)
  {
  }

  /** When the index goes up last, every two encodes fit together. */
  lemma {:induction false} IndexLastFits(world: World, a: string)
    requires forall f, i: nat | world.Encode(a, f) && RungAt(world, a, i) :: Place(f[i], INDEX) == |f[i]| - 1
    ensures Compatible(world, a)
  {
    forall e, f, i: nat, line |
      world.Encode(a, e) && world.Encode(a, f) && RungAt(world, a, i) && ListsLine(IndexText(f[i]), line)
      ensures Covered(e[i], f[i], line)
    {
      assert DirOk(f[i]) && DirOk(e[i]);
      LastCovers(e[i], f[i], line);
    }
  }

  lemma {:induction false} LastCovers(e: seq<File>, f: seq<File>, line: string)
    requires HasFile(e, INDEX) && HasFile(f, line) && Place(f, INDEX) == |f| - 1
    ensures Covered(e, f, line)
  {
    PlaceOf(f, line);
  }

  /** The same directory for each of n rungs. */
  function ForRungs(dir: seq<File>, n: nat): (dirs: seq<seq<File>>)
    ensures |dirs| == n && forall i | 0 <= i < n :: dirs[i] == dir
  {
    if n == 0 then [] else ForRungs(dir, n - 1) + [dir]
  }

  predicate SegmentName(name: string) {
    Plain(name) && name != INDEX && CleanLine(name) && !Passes(name) && !Unsafe(name) && name != "."
  }

  /** Encodes whose segments have other names do not fit together. */
  lemma {:induction false} OtherSegmentsMisfit(world: World, a: string, one: string, other: string)
    requires |world.of(a).ladder| > 0 && SegmentName(one) && SegmentName(other) && one != other
    requires world.may(a, ForRungs(DirWith(one), |world.of(a).ladder|))
    requires world.may(a, ForRungs(DirWith(other), |world.of(a).ladder|))
    ensures !Compatible(world, a)
  {
    var n := |world.of(a).ladder|;
    var e, f := ForRungs(DirWith(one), n), ForRungs(DirWith(other), n);
    DirExists(one);
    DirExists(other);
    assert world.Encode(a, e) && world.Encode(a, f) && RungAt(world, a, 0);
    ListsOther(one, other);
    assert Misfit(world, a, e, f, 0, other);
  }

  lemma {:induction false} ListsOther(one: string, other: string)
    requires SegmentName(one) && SegmentName(other) && one != other
    ensures ListsLine(IndexText(DirWith(other)), other) && !Covered(DirWith(one), DirWith(other), other)
  {
    CleanLinesScan([other]);
    var dir := DirWith(other);
    assert dir[0].name == INDEX;
    assert IndexText(dir) == Unlines([other]);
  }
}
