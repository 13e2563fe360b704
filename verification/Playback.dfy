/** Serving a READY asset: the master's references become API paths, the variants' become signed URLs. */
module Playback {
  import opened Results
  import opened Text
  import opened Paths
  import opened Ladder
  import opened Playlists

  const MAX_PLAYLIST: nat := 1024 * 1024

  /** The whitelist for rendition names: one to 64 letters, digits, underscores or hyphens. */
  predicate RungName(s: string) {
    1 <= |s| <= 64 && forall i | 0 <= i < |s| :: NameChar(s[i])
  }

  predicate NameChar(c: char) {
    'A' <= c <= 'Z' || 'a' <= c <= 'z' || '0' <= c <= '9' || c == '_' || c == '-'
  }

  /** The whitelist by code point. */
  lemma {:induction false} RungNameByCode(s: string)
    ensures RungName(s) <==>
              && 1 <= |s| < 65
              && forall i | 0 <= i < |s| ::
                   var c := s[i] as int;
                   c == 45 || 48 <= c < 58 || 65 <= c < 91 || c == 95 || 97 <= c < 123
  {
    forall i | 0 <= i < |s|
      ensures var c := s[i] as int;
              NameChar(s[i]) <==> c == 45 || 48 <= c < 58 || 65 <= c < 91 || c == 95 || 97 <= c < 123
    {
    }
  }

  datatype PlaybackRung = PlaybackRung(name: string, key: string)

  datatype PlaybackAsset = PlaybackAsset(id: string, ready: bool, masterKey: string, version: int,
                                         rungs: seq<PlaybackRung>)

  /** The API path a reference is replaced with. */
  function ApiPath(name: string): string {
    "variants/" + name + "/" + INDEX
  }

  function Names(rungs: seq<PlaybackRung>): set<string> {
    set r | r in rungs :: r.name
  }

  /** A reference "<rung>/index.m3u8" to a recorded rung becomes the rung's API path; any other is refused. */
  function MasterRule(known: set<string>): string -> Option<string> {
    (line: string) =>
      if Passes(line) then Some(line)
      else
        var k := SlashAt(line);
        if k == |line| || line[k + 1..] != INDEX || !RungName(line[..k]) || line[..k] !in known then None
        else Some(ApiPath(line[..k]))
  }

  method RewriteRef(line: string, known: set<string>) returns (l: Option<string>)
    ensures l == MasterRule(known)(line)
  {
    if Passes(line) {
      return Some(line);
    }
    var k := SlashAt(line);
    if k == |line| || line[k + 1..] != INDEX || !RungName(line[..k]) || line[..k] !in known {
      return None;
    }
    return Some(ApiPath(line[..k]));
  }

  method RewriteMasterRefs(raw: string, asset: PlaybackAsset) returns (r: Option<string>)
    ensures r == RewriteText(raw, MasterRule(Names(asset.rungs)))
  {
    var known: set<string> := {};
    var i := 0;
    while i < |asset.rungs|
      invariant 0 <= i <= |asset.rungs|
      invariant known == Names(asset.rungs[..i])
    {
      known := known + {asset.rungs[i].name};
      i := i + 1;
    }
    assert asset.rungs[..i] == asset.rungs;
    r := RewriteRefs(raw, known);
  }

  method RewriteRefs(raw: string, known: set<string>) returns (r: Option<string>)
    ensures r == RewriteText(raw, MasterRule(known))
  {
    ghost var rule := MasterRule(known);
    var sc := new Scanner(raw);
    var out := "";
    StartOfText(raw, rule);
    var more := true;
    while more
      invariant more ==> !sc.failed && RewriteText(raw, rule) == Continue(out, RewriteText(sc.rest, rule))
      invariant !more ==> RewriteText(raw, rule) == if sc.failed then None else Some(out)
      decreases |sc.rest|, more
    {
      ghost var rest := sc.rest;
      more := sc.Scan();
      if more {
        AfterLineShrinks(rest);
        var l := RewriteRef(sc.line, known);
        if l.None? {
          RewriteStep(rest, rule);
          return None;
        }
        LineDone(out, rest, rule);
        out := out + l.value + "\n";
      } else if rest == "" {
        EndOfText(out, rule);
      } else {
        RewriteStep(rest, rule);
      }
    }
    if sc.failed {
      return None;
    }
    return Some(out);
  }

  // ---------------------------------------------------------------- the two endpoints

  type Store = map<string, string>

  /** A playlist object within the size limit. */
  function ReadPlaylist(store: Store, key: string): Option<string> {
    if key in store && |store[key]| <= MAX_PLAYLIST then Some(store[key]) else None
  }

  function ServeRewritten(store: Store, key: string, rule: string -> Option<string>): Option<string> {
    match ReadPlaylist(store, key)
    case None => None
    case Some(raw) => RewriteText(raw, rule)
  }

  lemma {:induction false} ReadIsRewritten(store: Store, key: string, rule: string -> Option<string>)
    requires key in store && |store[key]| <= MAX_PLAYLIST
    ensures ServeRewritten(store, key, rule) == RewriteText(store[key], rule)
  {
  }

  function ServeMaster(store: Store, asset: PlaybackAsset): Option<string> {
    if !asset.ready || asset.masterKey == "" then None
    else ServeRewritten(store, asset.masterKey, MasterRule(Names(asset.rungs)))
  }

  /** The key recorded for the first rung of this name, "" when there is none. */
  function RungKey(rungs: seq<PlaybackRung>, name: string): string {
    if rungs == [] then "" else if rungs[0].name == name then rungs[0].key else RungKey(rungs[1..], name)
  }

  method FindRungKey(rungs: seq<PlaybackRung>, name: string) returns (key: string)
    ensures key == RungKey(rungs, name)
    ensures if exists i :: 0 <= i < |rungs| && rungs[i].name == name
            then exists i :: 0 <= i < |rungs| && rungs[i].name == name && rungs[i].key == key
                             && forall j | 0 <= j < i :: rungs[j].name != name
            else key == ""
  {
    key := "";
    var i := 0;
    while i < |rungs|
      invariant 0 <= i <= |rungs|
      invariant RungKey(rungs, name) == RungKey(rungs[i..], name)
      invariant forall j | 0 <= j < i :: rungs[j].name != name
    {
      if rungs[i].name == name {
        return rungs[i].key;
      }
      assert rungs[i..][1..] == rungs[i + 1..];
      i := i + 1;
    }
  }

  function ServeVariant(store: Store, asset: PlaybackAsset, rung: string, sign: string -> Option<string>)
    : Option<string>
  {
    if !asset.ready || asset.masterKey == "" || !RungName(rung) || RungKey(asset.rungs, rung) == "" then None
    else
      ServeRewritten(store, RungKey(asset.rungs, rung),
                     VariantRule(RenditionPrefix(asset.id, asset.version, rung), sign))
  }

  // ---------------------------------------------------------------- a printed master is served whole

  /** The numbers in the rung's tag line are 64-bit, and its name is on the whitelist. */
  ghost predicate Printable(r: Rung, w: nat, h: nat) {
    && RungName(r.name)
    && PeakBandwidth(r) < Pow10(19) && AverageBandwidth(r) < Pow10(19)
    && Width(r, w, h) < Pow10(19) && r.height < Pow10(19)
  }

  ghost predicate AllPrintable(rungs: seq<Rung>, w: nat, h: nat) {
    forall r | r in rungs :: Printable(r, w, h)
  }

  /** A line the scanner hands back as it was printed. */
  predicate CleanLine(l: string) {
    '\n' !in l && DropCR(l) == l && |l| < 1000
  }

  /** A concatenation of short pieces without newlines is such a line itself. */
  lemma {:induction false} CatClean(parts: seq<string>)
    requires parts != [] && |parts| <= 12
    requires forall i | 0 <= i < |parts| :: Piece(parts[i])
    requires parts[|parts| - 1] != "" && DropCR(parts[|parts| - 1]) == parts[|parts| - 1]
    ensures '\n' !in Cat(parts) && |Cat(parts)| <= 40 * |parts|
    ensures Cat(parts) != "" && DropCR(Cat(parts)) == Cat(parts)
    ensures parts[0] != "" ==> Cat(parts)[0] == parts[0][0]
  {
    if |parts| == 1 {
      assert parts[0] + Cat([]) == parts[0];
    } else {
      assert parts[1..][|parts| - 2] == parts[|parts| - 1];
      CatClean(parts[1..]);
    }
  }

  lemma {:induction false} TagPiece(n: nat)
    requires n < Pow10(19)
    ensures Piece(Decimal(n))
  {
    DigitsLength(n, 19);
  }

  predicate Piece(s: string) {
    '\n' !in s && |s| <= 40
  }

  lemma {:induction false} TagLiterals()
    ensures Piece("#EXT-X-STREAM-INF:BANDWIDTH=") && Piece(",AVERAGE-BANDWIDTH=") && Piece(",RESOLUTION=") && Piece("x")
  {
  }

  lemma {:induction false} TagTail()
    ensures var s := ",CODECS=\"" + CODECS + "\""; Piece(s) && s != "" && DropCR(s) == s
  {
    var s := ",CODECS=\"" + CODECS + "\"";
    assert s[|s| - 1] == '"';
  }

  lemma {:induction false} TagLine(r: Rung, w: nat, h: nat)
    requires Printable(r, w, h)
    ensures CleanLine(StreamInf(r, w, h)) && Passes(StreamInf(r, w, h))
  {
    var parts := TagParts(PeakBandwidth(r), AverageBandwidth(r), Width(r, w, h), r.height);
    TagPiece(PeakBandwidth(r));
    TagPiece(AverageBandwidth(r));
    TagPiece(Width(r, w, h));
    TagPiece(r.height);
    TagLiterals();
    TagTail();
    CatClean(parts);
    assert parts[0][0] == '#';
  }

  lemma {:induction false} UriLine(name: string)
    requires RungName(name)
    ensures var l := Reference(name);
            && CleanLine(l) && !Passes(l)
            && SlashAt(l) == |name| && l[..|name|] == name && l[|name| + 1..] == INDEX
    ensures Plain(name)
  {
    var l, tail := Reference(name), INDEX;
    forall i | 0 <= i < |name| ensures name[i] != '/' && name[i] != '\n' && name[i] != '#' && name[i] != '.' {
      assert NameChar(name[i]);
    }
    SlashAtEnd(name, tail);
    assert '\n' !in tail;
    assert l[|l| - 1] == tail[|tail| - 1] == '8';
  }

  function ServedLines(rungs: seq<Rung>, w: nat, h: nat): seq<string> {
    if rungs == [] then []
    else ServedLines(rungs[..|rungs| - 1], w, h) +
         [StreamInf(rungs[|rungs| - 1], w, h), ApiPath(rungs[|rungs| - 1].name)]
  }

  lemma {:induction false} RewriteLinesConcat(a: seq<string>, b: seq<string>, rule: string -> Option<string>)
    ensures RewriteLines(a + b, rule) ==
            match RewriteLines(a, rule)
            case None => None
            case Some(x) =>
              match RewriteLines(b, rule)
              case None => None
              case Some(y) => Some(x + y)
  {
    if a == [] {
      assert a + b == b;
      if RewriteLines(b, rule).Some? {
        assert [] + RewriteLines(b, rule).value == RewriteLines(b, rule).value;
      }
    } else {
      assert (a + b)[1..] == a[1..] + b;
      RewriteLinesConcat(a[1..], b, rule);
      if rule(a[0]).Some? && RewriteLines(a[1..], rule).Some? && RewriteLines(b, rule).Some? {
        var l, x, y := rule(a[0]).value, RewriteLines(a[1..], rule).value, RewriteLines(b, rule).value;
        assert [l] + (x + y) == [l] + x + y;
      }
    }
  }

  lemma {:induction false} RewriteTwo(a: string, b: string, rule: string -> Option<string>)
    requires rule(a).Some? && rule(b).Some?
    ensures RewriteLines([a, b], rule) == Some([rule(a).value, rule(b).value])
  {
    var x, y := rule(a).value, rule(b).value;
    assert [a, b][1..] == [b] && [b][1..] == [];
    assert RewriteLines([b], rule) == Some([y]) by {
      assert [y] + [] == [y];
    }
    assert [x] + [y] == [x, y];
  }

  /** Two more lines: a tag that stays and a reference that is replaced. */
  lemma {:induction false} PairServed(a: seq<string>, x: seq<string>, tag: string, uri: string, served: string,
                   rule: string -> Option<string>)
    requires RewriteLines(a, rule) == Some(x) && rule(tag) == Some(tag) && rule(uri) == Some(served)
    ensures RewriteLines(a + [tag, uri], rule) == Some(x + [tag, served])
  {
    RewriteLinesConcat(a, [tag, uri], rule);
    RewriteTwo(tag, uri, rule);
  }

  lemma {:induction false} RuleOnReference(name: string, known: set<string>)
    requires RungName(name) && name in known
    ensures MasterRule(known)(Reference(name)) == Some(ApiPath(name))
  {
    UriLine(name);
  }

  /** Rung by rung: the tag line stays, the reference below it becomes the rung's API path. */
  lemma {:induction false} VariantsServed(rungs: seq<Rung>, w: nat, h: nat, known: set<string>)
    requires AllPrintable(rungs, w, h) && forall r | r in rungs :: r.name in known
    ensures RewriteLines(VariantLines(rungs, w, h), MasterRule(known)) == Some(ServedLines(rungs, w, h))
  {
    if rungs != [] {
      var front, r := rungs[..|rungs| - 1], rungs[|rungs| - 1];
      assert r in rungs;
      VariantsServed(front, w, h, known);
      var tag := StreamInf(r, w, h);
      assert MasterRule(known)(tag) == Some(tag) by { TagLine(r, w, h); }
      RuleOnReference(r.name, known);
      PairServed(VariantLines(front, w, h), ServedLines(front, w, h), tag, Reference(r.name), ApiPath(r.name),
                 MasterRule(known));
    }
  }

  lemma {:induction false} VariantLinesClean(rungs: seq<Rung>, w: nat, h: nat)
    requires AllPrintable(rungs, w, h)
    ensures forall l | l in VariantLines(rungs, w, h) :: CleanLine(l)
  {
    if rungs != [] {
      var front, r := rungs[..|rungs| - 1], rungs[|rungs| - 1];
      assert r in rungs;
      VariantLinesClean(front, w, h);
      TagLine(r, w, h);
      UriLine(r.name);
      forall l | l in VariantLines(rungs, w, h) ensures CleanLine(l) {
        assert l in VariantLines(front, w, h) || l == StreamInf(r, w, h) || l == Reference(r.name);
      }
    }
  }

  lemma {:induction false} HeaderServed(known: set<string>)
    ensures RewriteLines(HEADER, MasterRule(known)) == Some(HEADER)
  {
    assert [] + HEADER == HEADER;
    PairServed([], [], HEADER[0], HEADER[1], HEADER[1], MasterRule(known));
    assert HEADER == [HEADER[0], HEADER[1]];
    assert [] + [HEADER[0], HEADER[1]] == HEADER;
  }

  lemma {:induction false} HeaderClean()
    ensures forall l | l in HEADER :: CleanLine(l)
  {
    var a, b := HEADER[0], HEADER[1];
    assert a[|a| - 1] == 'U' && b[|b| - 1] == '3';
    assert HEADER == [a, b];
  }

  lemma {:induction false} CleanLinesScan(lines: seq<string>)
    requires forall l | l in lines :: CleanLine(l)
    ensures Lines(Unlines(lines)) == lines && Scannable(Unlines(lines))
  {
    SegmentsUnlines(lines);
    forall i | 0 <= i < |lines| ensures CleanLine(lines[i]) {
      assert lines[i] in lines;
    }
  }

  function ServedMaster(ladder: seq<Rung>, w: nat, h: nat): seq<string> {
    HEADER + ServedLines(ByPeak(ladder), w, h)
  }

  /**
   * For every ladder of whitelisted names: the printed master, read back, rewrites without error, and
   * the served text has the master's lines with each reference replaced by its rung's API path.
   */
  lemma {:induction false} MasterRoundTrip(ladder: seq<Rung>, w: nat, h: nat, known: set<string>)
    requires AllPrintable(ladder, w, h) && forall r | r in ladder :: r.name in known
    ensures RewriteText(MasterText(ladder, w, h), MasterRule(known)) == Some(Unlines(ServedMaster(ladder, w, h)))
  {
    var sorted := ByPeak(ladder);
    ByPeakIsStableSort(ladder, 0);
    forall r | r in sorted ensures r in ladder {
      assert r in multiset(sorted);
    }
    VariantsServed(sorted, w, h, known);
    VariantLinesClean(sorted, w, h);
    HeaderServed(known);
    HeaderClean();
    RewriteLinesConcat(HEADER, VariantLines(sorted, w, h), MasterRule(known));
    CleanLinesScan(MasterLines(ladder, w, h));
  }

  predicate PairAt(lines: seq<string>, i: nat, tag: string, uri: string) {
    2 * i + 1 < |lines| && lines[2 * i] == tag && lines[2 * i + 1] == uri
  }

  /** Line pairs of the served master: the rung's tag, then its API path, by falling bandwidth. */
  lemma {:induction false} ServedPair(rungs: seq<Rung>, w: nat, h: nat, i: nat)
    requires i < |rungs|
    ensures |ServedLines(rungs, w, h)| == 2 * |rungs|
    ensures PairAt(ServedLines(rungs, w, h), i, StreamInf(rungs[i], w, h), ApiPath(rungs[i].name))
  {
    var front, last := rungs[..|rungs| - 1], rungs[|rungs| - 1];
    ServedLength(front, w, h);
    PairAtEnd(ServedLines(front, w, h), StreamInf(last, w, h), ApiPath(last.name), |front|);
    if i < |front| {
      ServedPair(front, w, h, i);
      PairStays(ServedLines(front, w, h), StreamInf(last, w, h), ApiPath(last.name), i,
                StreamInf(rungs[i], w, h), ApiPath(rungs[i].name));
    }
  }

  lemma {:induction false} PairAtEnd(lines: seq<string>, a: string, b: string, n: nat)
    requires |lines| == 2 * n
    ensures PairAt(lines + [a, b], n, a, b)
  {
  }

  lemma {:induction false} PairStays(lines: seq<string>, a: string, b: string, i: nat, tag: string, uri: string)
    requires PairAt(lines, i, tag, uri)
    ensures PairAt(lines + [a, b], i, tag, uri)
  {
  }

  lemma {:induction false} ServedLength(rungs: seq<Rung>, w: nat, h: nat)
    ensures |ServedLines(rungs, w, h)| == 2 * |rungs|
  {
    if rungs != [] {
      ServedLength(rungs[..|rungs| - 1], w, h);
    }
  }

  // ---------------------------------------------------------------- what a player is led to

  lemma {:induction false} SplitTwo(a: string, b: string)
    requires '/' !in a && '/' !in b
    ensures Split(a + "/" + b) == [a, b]
  {
    SplitGlue([a, b]);
    assert [a, b][1..] == [b];
    assert Glue([a, b]) == a + "/" + b;
  }

  lemma {:induction false} IndexHasNoSlash()
    ensures '/' !in INDEX && INDEX == "index.m3u8"
  {
    var s := "index.m3u8";
    assert '/' !in s;
  }

  /** The path a reference becomes: the route of variants, the rung's name, its index. */
  lemma {:induction false} ApiPathParts(name: string)
    requires '/' !in name
    ensures Split(ApiPath(name)) == ["variants", name, "index.m3u8"]
  {
    var route, file, slash := "variants", INDEX, "/";
    IndexHasNoSlash();
    assert '/' !in route;
    var parts := [route, name, file];
    SplitGlue(parts);
    assert parts[1..] == [name, file] && [name, file][1..] == [file];
    assert Glue([name, file]) == name + slash + file;
    assert Glue(parts) == route + slash + (name + slash + file);
    var start := "variants/";
    assert start == route + slash;
    assert route + slash + (name + slash + file) == start + name + slash + file;
  }

  lemma {:induction false} SplitFirst(line: string)
    ensures var k := SlashAt(line);
            Split(line) == if k == |line| then [line] else [line[..k]] + Split(line[k + 1..])
  {
  }

  /** A line splits into two elements exactly at its only slash. */
  lemma {:induction false} SplitsInTwo(line: string, a: string, b: string)
    requires '/' !in a && '/' !in b
    ensures Split(line) == [a, b] <==> SlashAt(line) < |line| && line[..SlashAt(line)] == a && line[SlashAt(line) + 1..] == b
  {
    var k := SlashAt(line);
    SplitFirst(line);
    if k < |line| {
      SplitWhole(b);
      if Split(line) == [a, b] {
        assert Split(line)[0] == line[..k] && Split(line)[1..] == Split(line[k + 1..]);
        SplitOne(line[k + 1..], b);
      }
    }
  }

  lemma {:induction false} SplitWhole(b: string)
    requires '/' !in b
    ensures Split(b) == [b]
  {
    SplitGlue([b]);
  }

  lemma {:induction false} SplitOne(s: string, x: string)
    requires Split(s) == [x]
    ensures s == x
  {
  }

  /** The line refers to a recorded rung whose name the API allows. */
  ghost predicate RefersTo(line: string, known: set<string>, name: string) {
    name in known && RungName(name) && Split(line) == [name, "index.m3u8"]
  }

  lemma {:induction false} NamesAreSafe(name: string)
    requires RungName(name)
    ensures '/' !in name && '\n' !in name
  {
    forall i | 0 <= i < |name| ensures name[i] != '/' && name[i] != '\n' {
      assert NameChar(name[i]);
    }
  }

  lemma {:induction false} ReferenceIs(line: string, name: string)
    requires '/' !in name
    ensures Split(line) == [name, "index.m3u8"] <==>
              SlashAt(line) < |line| && line[..SlashAt(line)] == name && line[SlashAt(line) + 1..] == INDEX
  {
    IndexHasNoSlash();
    SplitsInTwo(line, name, INDEX);
  }

  /** The line, cut at its first slash, is a recorded rung's name and `file`. */
  predicate CutsInto(line: string, known: set<string>, name: string, file: string) {
    && SlashAt(line) < |line| && line[..SlashAt(line)] == name && line[SlashAt(line) + 1..] == file
    && name in known && RungName(name)
  }

  lemma {:induction false} RefersMeans(line: string, known: set<string>, name: string)
    ensures RefersTo(line, known, name) <==> CutsInto(line, known, name, INDEX)
  {
    if RungName(name) {
      NamesAreSafe(name);
      ReferenceIs(line, name);
    }
  }

  lemma {:induction false} RuleOnCut(line: string, known: set<string>, file: string)
    requires !(line == "" || line[0] == '#') && file == INDEX
    ensures var r, k := MasterRule(known)(line), SlashAt(line);
            if CutsInto(line, known, line[..k], file) then r == Some(ApiPath(line[..k])) else r.None?
  {
  }

  /** A reference leads to its rung below the route of variants. */
  lemma {:induction false} ReferenceLeads(line: string, known: set<string>, name: string)
    requires RefersTo(line, known, name)
    ensures Split(ApiPath(name)) == ["variants"] + Split(line) && '\n' !in ApiPath(name)
  {
    NamesAreSafe(name);
    ApiPathParts(name);
    PathHasNoNewline(name);
  }

  lemma {:induction false} RuleIs(line: string, known: set<string>)
    requires !(line == "" || line[0] == '#')
    ensures MasterRule(known)(line).Some? <==> exists name :: RefersTo(line, known, name)
    ensures MasterRule(known)(line).Some? ==>
              && Split(MasterRule(known)(line).value) == ["variants"] + Split(line)
              && '\n' !in MasterRule(known)(line).value
  {
    var name := line[..SlashAt(line)];
    RuleOnCut(line, known, INDEX);
    RefersMeans(line, known, name);
    if MasterRule(known)(line).Some? {
      ReferenceLeads(line, known, name);
    } else if other :| RefersTo(line, known, other) {
      RefersMeans(line, known, other);
      assert false;
    }
  }

  /**
   * For every text and every set of recorded rungs: rewriting a master fails exactly when a line is too long
   * or a media line is not the reference of a recorded rung of an allowed name. Otherwise blank lines and tags
   * stay, and each reference leads to the same rung below the route of variants.
   */
  lemma {:induction false} MasterRefusesExactly(raw: string, known: set<string>)
    ensures var r, lines := RewriteText(raw, MasterRule(known)), Lines(raw);
            && (r.Some? <==> Scannable(raw) && forall i | 0 <= i < |lines| ::
                  lines[i] == "" || lines[i][0] == '#' || exists name :: RefersTo(lines[i], known, name))
            && (r.Some? ==>
                  && |Segments(r.value)| == |lines|
                  && forall i | 0 <= i < |lines| ::
                       if lines[i] == "" || lines[i][0] == '#' then Segments(r.value)[i] == lines[i]
                       else Split(Segments(r.value)[i]) == ["variants"] + Split(lines[i]))
  {
    var rule, lines := MasterRule(known), Lines(raw);
    RewriteLinesAre(lines, rule);
    forall i | 0 <= i < |lines|
      ensures !(lines[i] == "" || lines[i][0] == '#') ==>
                && (rule(lines[i]).Some? <==> exists name :: RefersTo(lines[i], known, name))
                && (rule(lines[i]).Some? ==> Split(rule(lines[i]).value) == ["variants"] + Split(lines[i])
                                             && '\n' !in rule(lines[i]).value)
    {
      if !(lines[i] == "" || lines[i][0] == '#') {
        RuleIs(lines[i], known);
      }
    }
    if RewriteText(raw, rule).Some? {
      LinesHaveNoNewline(raw);
      WrittenLines(raw, rule);
    }
  }

  /** A rewritten text reads back as the rewritten lines. */
  lemma {:induction false} WrittenLines(raw: string, rule: string -> Option<string>)
    requires RewriteText(raw, rule).Some?
    requires forall i | 0 <= i < |Lines(raw)| && rule(Lines(raw)[i]).Some? :: '\n' !in rule(Lines(raw)[i]).value
    ensures var segments := Segments(RewriteText(raw, rule).value);
            |segments| == |Lines(raw)| && forall i | 0 <= i < |segments| :: rule(Lines(raw)[i]) == Some(segments[i])
  {
    var out := RewriteLines(Lines(raw), rule).value;
    RewriteLinesAre(Lines(raw), rule);
    forall l | l in out ensures '\n' !in l {
      var i :| 0 <= i < |out| && out[i] == l;
      assert rule(Lines(raw)[i]) == Some(l);
    }
    SegmentsUnlines(out);
  }

  /** A master is answered for READY assets with a stored master of at most 1048576 characters only; it is rewritten. */
  lemma {:induction false} MasterAnswered(store: Store, asset: PlaybackAsset)
    ensures ServeMaster(store, asset) ==
            if asset.ready && asset.masterKey != "" && asset.masterKey in store && |store[asset.masterKey]| <= 1_048_576
            then RewriteText(store[asset.masterKey], MasterRule(Names(asset.rungs))) else None
  {
  }

  /** A variant is answered when, besides, its name is allowed and the first rung of that name has a stored playlist. */
  lemma {:induction false} VariantAnswered(store: Store, asset: PlaybackAsset, i: nat, sign: string -> Option<string>)
    requires i < |asset.rungs| && forall j | 0 <= j < i :: asset.rungs[j].name != asset.rungs[i].name
    ensures var name, key := asset.rungs[i].name, asset.rungs[i].key;
            ServeVariant(store, asset, name, sign) ==
            if && asset.ready && asset.masterKey != "" && RungName(name)
               && key != "" && key in store && |store[key]| <= 1_048_576
            then RewriteText(store[key], VariantRule(RenditionPrefix(asset.id, asset.version, name), sign)) else None
  {
    FirstRungKey(asset.rungs, i);
  }

  lemma {:induction false} FirstRungKey(rungs: seq<PlaybackRung>, i: nat)
    requires i < |rungs| && forall j | 0 <= j < i :: rungs[j].name != rungs[i].name
    ensures RungKey(rungs, rungs[i].name) == rungs[i].key
  {
    if i > 0 {
      FirstRungKey(rungs[1..], i - 1);
    }
  }

  /** A name that no rung has is not answered. */
  lemma {:induction false} UnknownVariant(store: Store, asset: PlaybackAsset, name: string, sign: string -> Option<string>)
    requires name !in Names(asset.rungs)
    ensures ServeVariant(store, asset, name, sign).None?
  {
    NoRungKey(asset.rungs, name);
  }

  lemma {:induction false} NoRungKey(rungs: seq<PlaybackRung>, name: string)
    requires forall r | r in rungs :: r.name != name
    ensures RungKey(rungs, name) == ""
  {
    if rungs != [] {
      assert rungs[0] in rungs;
      NoRungKey(rungs[1..], name);
    }
  }

  // ---------------------------------------------------------------- the master, read line by line

  /** Line x is rung r's tag, and the line below leads, element by element, where `to` says. */
  predicate LeadsTo(lines: seq<string>, x: nat, tag: string, to: seq<string>) {
    x + 1 < |lines| && lines[x] == tag && Split(lines[x + 1]) == to
  }

  /** A stored master's lines: two of header, then rung by rung, by falling peak, its tag and its reference. */
  lemma {:induction false} MasterReadsBack(ladder: seq<Rung>, w: nat, h: nat, k: nat)
    requires AllPrintable(ladder, w, h) && k < |ladder|
    ensures |ByPeak(ladder)| == |ladder|
    ensures var lines, r := Lines(MasterText(ladder, w, h)), ByPeak(ladder)[k];
            && |lines| == 2 * |ladder| + 2 && lines[0] == "#EXTM3U" && lines[1] == "#EXT-X-VERSION:3"
            && r in ladder && LeadsTo(lines, 2 * k + 2, StreamInf(r, w, h), [r.name, "index.m3u8"])
  {
    SortedRungs(ladder, k);
    var sorted := ByPeak(ladder);
    VariantLinesClean(sorted, w, h);
    HeaderClean();
    CleanLinesScan(MasterLines(ladder, w, h));
    VariantPair(sorted, w, h, k);
    assert RungName(sorted[k].name);
    NamesAreSafe(sorted[k].name);
    IndexHasNoSlash();
    SplitTwo(sorted[k].name, INDEX);
    assert MasterLines(ladder, w, h)[2 * k + 2] == VariantLines(sorted, w, h)[2 * k];
    assert MasterLines(ladder, w, h)[2 * k + 3] == VariantLines(sorted, w, h)[2 * k + 1];
  }

  lemma {:induction false} SortedRungs(ladder: seq<Rung>, k: nat)
    requires k < |ladder|
    ensures |ByPeak(ladder)| == |ladder| && ByPeak(ladder)[k] in ladder
    ensures forall r | r in ByPeak(ladder) :: r in ladder
  {
    ByPeakIsStableSort(ladder, 0);
    assert |multiset(ByPeak(ladder))| == |multiset(ladder)|;
    forall r | r in ByPeak(ladder) ensures r in ladder {
      assert r in multiset(ByPeak(ladder));
    }
  }

  lemma {:induction false} VariantPair(rungs: seq<Rung>, w: nat, h: nat, i: nat)
    requires i < |rungs|
    ensures |VariantLines(rungs, w, h)| == 2 * |rungs|
    ensures PairAt(VariantLines(rungs, w, h), i, StreamInf(rungs[i], w, h), Reference(rungs[i].name))
  {
    var front, last := rungs[..|rungs| - 1], rungs[|rungs| - 1];
    VariantLength(front, w, h);
    PairAtEnd(VariantLines(front, w, h), StreamInf(last, w, h), Reference(last.name), |front|);
    if i < |front| {
      VariantPair(front, w, h, i);
      PairStays(VariantLines(front, w, h), StreamInf(last, w, h), Reference(last.name), i,
                StreamInf(rungs[i], w, h), Reference(rungs[i].name));
    }
  }

  lemma {:induction false} VariantLength(rungs: seq<Rung>, w: nat, h: nat)
    ensures |VariantLines(rungs, w, h)| == 2 * |rungs|
  {
    if rungs != [] {
      VariantLength(rungs[..|rungs| - 1], w, h);
    }
  }

  /** The served lines: the same, with each reference leading below the route of variants. */
  lemma {:induction false} ServedReadsBack(ladder: seq<Rung>, w: nat, h: nat, k: nat)
    requires AllPrintable(ladder, w, h) && k < |ladder|
    ensures |ByPeak(ladder)| == |ladder|
    ensures var lines, r := Segments(Unlines(ServedMaster(ladder, w, h))), ByPeak(ladder)[k];
            && |lines| == 2 * |ladder| + 2 && lines[0] == "#EXTM3U" && lines[1] == "#EXT-X-VERSION:3"
            && r in ladder && LeadsTo(lines, 2 * k + 2, StreamInf(r, w, h), ["variants", r.name, "index.m3u8"])
  {
    SortedRungs(ladder, k);
    var sorted := ByPeak(ladder);
    ServedHaveNoNewline(sorted, w, h);
    HeaderClean();
    SegmentsUnlines(ServedMaster(ladder, w, h));
    ServedPair(sorted, w, h, k);
    assert RungName(sorted[k].name);
    NamesAreSafe(sorted[k].name);
    ApiPathParts(sorted[k].name);
    assert ServedMaster(ladder, w, h)[2 * k + 2] == ServedLines(sorted, w, h)[2 * k];
    assert ServedMaster(ladder, w, h)[2 * k + 3] == ServedLines(sorted, w, h)[2 * k + 1];
  }

  lemma {:induction false} PathHasNoNewline(name: string)
    requires RungName(name)
    ensures '\n' !in ApiPath(name)
  {
    NamesAreSafe(name);
    var start, tail := "variants/", "/" + INDEX;
    assert '\n' !in start && '\n' !in tail;
    assert ApiPath(name) == start + name + tail;
  }

  lemma {:induction false} ServedHaveNoNewline(rungs: seq<Rung>, w: nat, h: nat)
    requires AllPrintable(rungs, w, h)
    ensures forall l | l in ServedLines(rungs, w, h) :: '\n' !in l
  {
    if rungs != [] {
      var front, r := rungs[..|rungs| - 1], rungs[|rungs| - 1];
      assert r in rungs;
      ServedHaveNoNewline(front, w, h);
      TagLine(r, w, h);
      PathHasNoNewline(r.name);
      forall l | l in ServedLines(rungs, w, h) ensures '\n' !in l {
        assert l in ServedLines(front, w, h) || l == StreamInf(r, w, h) || l == ApiPath(r.name);
      }
    }
  }
}
