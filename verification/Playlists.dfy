/** Storage keys of a transcoded asset, its master playlist, and the signing rewrite of its variants. */
module Playlists {
  import opened Results
  import opened Text
  import opened Paths
  import opened Ladder
  import opened Commas

  function RenditionPrefix(asset: string, version: int, rung: string): string {
    Join(["renditions", asset, "v" + Decimal(version), rung])
  }

  function MasterKey(asset: string, version: int): string {
    Join(["renditions", asset, "v" + Decimal(version), "master.m3u8"])
  }

  /** A file in a rung's directory. */
  function FileKey(asset: string, version: int, rung: string, name: string): string {
    Join([RenditionPrefix(asset, version, rung), name])
  }

  lemma {:induction false} VersionIsPlain(version: int)
    ensures Plain("v" + Decimal(version))
  {
    assert ("v" + Decimal(version))[0] == 'v';
  }

  lemma {:induction false} PrefixParts(asset: string, version: int, rung: string)
    requires Plain(asset) && Plain(rung)
    ensures var parts := ["renditions", asset, "v" + Decimal(version), rung];
            AllPlain(parts) && RenditionPrefix(asset, version, rung) == Join(parts)
  {
    VersionIsPlain(version);
  }

  /** A file's key is a direct child of its rung's prefix, and its elements are these five names. */
  lemma {:induction false} FileKeyParts(asset: string, version: int, rung: string, name: string)
    requires Plain(asset) && Plain(rung) && Plain(name)
    ensures FileKey(asset, version, rung, name) == RenditionPrefix(asset, version, rung) + "/" + name
    ensures Split(FileKey(asset, version, rung, name)) == ["renditions", asset, "v" + Decimal(version), rung, name]
  {
    var parts := ["renditions", asset, "v" + Decimal(version), rung];
    PrefixParts(asset, version, rung);
    JoinChild(parts, name);
    JoinPlain(parts + [name]);
    assert parts + [name] == ["renditions", asset, "v" + Decimal(version), rung, name];
  }

  lemma {:induction false} MasterKeyParts(asset: string, version: int)
    requires Plain(asset)
    ensures Split(MasterKey(asset, version)) == ["renditions", asset, "v" + Decimal(version), "master.m3u8"]
    ensures MasterKey(asset, version) != ""
  {
    VersionIsPlain(version);
    var parts := ["renditions", asset, "v" + Decimal(version), "master.m3u8"];
    JoinPlain(parts);
    GlueStarts(parts);
  }

  // ---------------------------------------------------------------- the master playlist

  const CODECS := "avc1.4d0028,mp4a.40.2"

  const INDEX := "index.m3u8"

  /** How the master refers to a rung's playlist. */
  function Reference(name: string): string {
    name + "/" + INDEX
  }

  function Cat(parts: seq<string>): string {
    if parts == [] then "" else parts[0] + Cat(parts[1..])
  }

  /** The pieces of a variant stream's tag line (section 4.3.4.2 of RFC 8216). */
  function TagParts(peak: int, average: int, w: int, h: int): seq<string> {
    [ "#EXT-X-STREAM-INF:BANDWIDTH=", Decimal(peak), ",AVERAGE-BANDWIDTH=", Decimal(average),
      ",RESOLUTION=", Decimal(w), "x", Decimal(h), ",CODECS=\"" + CODECS + "\"" ]
  }

  function StreamInf(r: Rung, w: nat, h: nat): string {
    Cat(TagParts(PeakBandwidth(r), AverageBandwidth(r), Width(r, w, h), r.height))
  }

  function VariantLines(rungs: seq<Rung>, w: nat, h: nat): seq<string> {
    if rungs == [] then []
    else VariantLines(rungs[..|rungs| - 1], w, h) +
         [StreamInf(rungs[|rungs| - 1], w, h), Reference(rungs[|rungs| - 1].name)]
  }

  const HEADER: seq<string> := ["#EXTM3U", "#EXT-X-VERSION:3"]

  function MasterLines(ladder: seq<Rung>, w: nat, h: nat): seq<string> {
    HEADER + VariantLines(ByPeak(ladder), w, h)
  }

  function MasterText(ladder: seq<Rung>, w: nat, h: nat): string {
    Unlines(MasterLines(ladder, w, h))
  }

  method BuildMasterPlaylist(ladder: seq<Rung>, w: nat, h: nat) returns (b: string)
    ensures b == MasterText(ladder, w, h)
  {
    var sorted := ByPeak(ladder);
    b := HEADER[0] + "\n";
    b := b + HEADER[1] + "\n";
    HeaderText();
    var i := 0;
    while i < |sorted|
      invariant 0 <= i <= |sorted|
      invariant b == Unlines(HEADER + VariantLines(sorted[..i], w, h))
    {
      VariantText(HEADER, sorted, i, w, h);
      b := b + StreamInf(sorted[i], w, h) + "\n";
      b := b + Reference(sorted[i].name) + "\n";
      i := i + 1;
    }
    assert sorted[..i] == sorted;
  }

  lemma {:induction false} HeaderText()
    ensures Unlines(HEADER + VariantLines([], 0, 0)) == HEADER[0] + "\n" + HEADER[1] + "\n"
  {
    var first, second := HEADER[0], HEADER[1];
    var lines := [first, second];
    assert HEADER + VariantLines([], 0, 0) == lines;
    assert lines[1..] == [second] && [second][1..] == [];
    assert first + "\n" + (second + "\n" + "") == first + "\n" + second + "\n";
  }

  /** Two more lines per rung. */
  lemma {:induction false} VariantText(head: seq<string>, rungs: seq<Rung>, i: nat, w: nat, h: nat)
    requires i < |rungs|
    ensures Unlines(head + VariantLines(rungs[..i + 1], w, h))
            == Unlines(head + VariantLines(rungs[..i], w, h)) + StreamInf(rungs[i], w, h) + "\n"
               + Reference(rungs[i].name) + "\n"
  {
    var tag, uri := StreamInf(rungs[i], w, h), Reference(rungs[i].name);
    var before := VariantLines(rungs[..i], w, h);
    assert rungs[..i + 1][..i] == rungs[..i];
    assert head + VariantLines(rungs[..i + 1], w, h) == head + before + [tag, uri];
    TwoMore(head + before, tag, uri);
  }

  lemma {:induction false} TwoMore(lines: seq<string>, tag: string, uri: string)
    ensures Unlines(lines + [tag, uri]) == Unlines(lines) + tag + "\n" + uri + "\n"
  {
    UnlinesAppend(lines, [tag, uri]);
    assert Unlines([uri]) == uri + "\n" + "";
    assert [tag, uri][1..] == [uri] && [uri][1..] == [];
    assert Unlines(lines) + (tag + "\n" + (uri + "\n" + "")) == Unlines(lines) + tag + "\n" + uri + "\n";
  }

  // ---------------------------------------------------------------- reading the tag back

  lemma {:induction false} AddField(s: string, fields: seq<string>, e: string)
    requires CommaFields(s) == fields && ',' !in e
    ensures CommaFields(s + [','] + e) == fields + [e]
  {
    NoComma(e);
    FieldsJoin(s, e);
  }

  lemma {:induction false} FiveFields(a: string, b: string, c: string, d: string, e: string)
    requires ',' !in a && ',' !in b && ',' !in c && ',' !in d && ',' !in e
    ensures CommaFields(a + [','] + b + [','] + c + [','] + d + [','] + e) == [a, b, c, d, e]
  {
    NoComma(a);
    AddField(a, [a], b);
    AddField(a + [','] + b, [a, b], c);
    AddField(a + [','] + b + [','] + c, [a, b, c], d);
    AddField(a + [','] + b + [','] + c + [','] + d, [a, b, c, d], e);
  }

  lemma {:induction false} CatCons(x: string, rest: seq<string>)
    ensures Cat([x] + rest) == x + Cat(rest)
  {
    assert ([x] + rest)[1..] == rest;
  }

  lemma {:induction false} CatNine(parts: seq<string>)
    requires |parts| == 9
    ensures Cat(parts) == parts[0] + parts[1]
                          + (parts[2] + parts[3] + (parts[4] + parts[5] + (parts[6] + parts[7] + parts[8])))
  {
    var last := [parts[8]];
    assert last[1..] == [] && Cat(last) == parts[8] + "" == parts[8];
    CatTwo(parts[6], parts[7], last);
    CatTwo(parts[4], parts[5], [parts[6], parts[7]] + last);
    CatTwo(parts[2], parts[3], [parts[4], parts[5]] + ([parts[6], parts[7]] + last));
    CatTwo(parts[0], parts[1], [parts[2], parts[3]] + ([parts[4], parts[5]] + ([parts[6], parts[7]] + last)));
    assert parts == [parts[0], parts[1]] + ([parts[2], parts[3]] + ([parts[4], parts[5]] + ([parts[6], parts[7]] + last)));
  }

  lemma {:induction false} Reassociate(a: string, n: string, b: string, m: string, c: string, w: string, x: string,
                                       h: string, d: string, e: string)
    ensures a + n + (([','] + b) + m + (([','] + c) + w + (x + h + ([','] + d + [','] + e))))
            == (a + n) + [','] + (b + m) + [','] + (c + w + x + h) + [','] + d + [','] + e
  {
  }

  lemma {:induction false} CatTwo(x: string, y: string, rest: seq<string>)
    ensures Cat([x, y] + rest) == x + y + Cat(rest)
  {
    assert [x, y] + rest == [x] + ([y] + rest);
    CatCons(x, [y] + rest);
    CatCons(y, rest);
  }

  /** The field is the attribute name followed by the number, which is read back from its digits. */
  predicate Says(field: string, attr: string, n: nat) {
    attr <= field && Value(field[|attr|..]) == n
  }

  /** The same for the two numbers of a resolution. */
  ghost predicate SaysSize(field: string, attr: string, w: nat, h: nat) {
    attr <= field
    && exists k :: |attr| <= k < |field| && field[k] == 'x' && 'x' !in field[|attr|..k]
                   && Value(field[|attr|..k]) == w && Value(field[k + 1..]) == h
  }

  lemma {:induction false} NumberSaid(attr: string, n: nat)
    requires ',' !in attr
    ensures Says(attr + Decimal(n), attr, n) && ',' !in attr + Decimal(n)
  {
    assert (attr + Decimal(n))[|attr|..] == Decimal(n);
    DigitsRoundTrip(n);
    NoneOf(n, ',');
  }

  lemma {:induction false} NoneOf(n: nat, c: char)
    requires !('0' <= c <= '9')
    ensures c !in Decimal(n)
  {
    var all := DIGITS;
    assert c !in all;
  }

  lemma {:induction false} SizeSaid(attr: string, w: nat, h: nat)
    requires ',' !in attr
    ensures SaysSize(attr + Decimal(w) + "x" + Decimal(h), attr, w, h) && ',' !in attr + Decimal(w) + "x" + Decimal(h)
  {
    var field, k := attr + Decimal(w) + "x" + Decimal(h), |attr + Decimal(w)|;
    assert field[|attr|..k] == Decimal(w) && field[k + 1..] == Decimal(h) && field[k] == 'x';
    DigitsRoundTrip(w);
    DigitsRoundTrip(h);
    NoneOf(w, 'x');
    NoneOf(w, ',');
    NoneOf(h, ',');
  }

  lemma {:induction false} CodecsTag()
    ensures ",CODECS=\"" + CODECS + "\"" == [','] + "CODECS=\"avc1.4d0028" + [','] + "mp4a.40.2\""
  {
    var a, b, key, quote := "avc1.4d0028", "mp4a.40.2", "CODECS=\"", "\"";
    assert CODECS == a + [','] + b;
    assert ",CODECS=\"" == [','] + key;
    assert "CODECS=\"avc1.4d0028" == key + a;
    assert "mp4a.40.2\"" == b + quote;
    assert ([','] + key) + (a + [','] + b) + quote == [','] + (key + a) + [','] + (b + quote);
  }

  lemma {:induction false} TagLabels()
    ensures ",AVERAGE-BANDWIDTH=" == [','] + "AVERAGE-BANDWIDTH=" && ",RESOLUTION=" == [','] + "RESOLUTION="
    ensures ',' !in "#EXT-X-STREAM-INF:BANDWIDTH=" && ',' !in "AVERAGE-BANDWIDTH=" && ',' !in "RESOLUTION="
    ensures ',' !in "CODECS=\"avc1.4d0028" && ',' !in "mp4a.40.2\""
  {
  }

  /** The tag with its fixed texts abstracted: cut at its commas it says the four numbers. */
  lemma {:induction false} TagSays(parts: seq<string>, a: string, b: string, c: string, d: string, e: string,
                                   peak: nat, average: nat, w: nat, h: nat)
    requires ',' !in a && ',' !in b && ',' !in c && ',' !in d && ',' !in e
    requires parts == [a, Decimal(peak), [','] + b, Decimal(average), [','] + c, Decimal(w), "x", Decimal(h),
                       [','] + d + [','] + e]
    requires Cat(parts) == parts[0] + parts[1]
                           + (parts[2] + parts[3] + (parts[4] + parts[5] + (parts[6] + parts[7] + parts[8])))
    ensures var fields := CommaFields(Cat(parts));
            && |fields| == 5
            && Says(fields[0], a, peak) && Says(fields[1], b, average) && SaysSize(fields[2], c, w, h)
            && fields[3] == d && fields[4] == e
  {
    NumberSaid(a, peak);
    NumberSaid(b, average);
    SizeSaid(c, w, h);
    Reassociate(a, Decimal(peak), b, Decimal(average), c, Decimal(w), "x", Decimal(h), d, e);
    FiveFields(a + Decimal(peak), b + Decimal(average), c + Decimal(w) + "x" + Decimal(h), d, e);
  }

  /** The tag's pieces, with its fixed texts as parameters. */
  predicate PiecesOf(parts: seq<string>, r: Rung, w: nat, h: nat, a: string, b: string, c: string, d: string, e: string) {
    parts == [a, Decimal(r.maxRate + r.audioBitrate), [','] + b, Decimal(r.videoBitrate + r.audioBitrate), [','] + c,
              Decimal(Width(r, w, h)), "x", Decimal(r.height), [','] + d + [','] + e]
  }

  lemma {:induction false} TagIs(r: Rung, w: nat, h: nat, a: string, b: string, c: string, d: string, e: string)
    returns (parts: seq<string>)
    requires a == "#EXT-X-STREAM-INF:BANDWIDTH=" && ",AVERAGE-BANDWIDTH=" == [','] + b && ",RESOLUTION=" == [','] + c
    requires ",CODECS=\"" + CODECS + "\"" == [','] + d + [','] + e
    ensures StreamInf(r, w, h) == Cat(parts) && PiecesOf(parts, r, w, h, a, b, c, d, e)
  {
    parts := TagParts(PeakBandwidth(r), AverageBandwidth(r), Width(r, w, h), r.height);
  }

  lemma {:induction false} PiecesSay(parts: seq<string>, r: Rung, w: nat, h: nat, a: string, b: string, c: string,
                                     d: string, e: string)
    requires PiecesOf(parts, r, w, h, a, b, c, d, e)
    requires ',' !in a && ',' !in b && ',' !in c && ',' !in d && ',' !in e
    ensures var fields := CommaFields(Cat(parts));
            && |fields| == 5
            && Says(fields[0], a, r.maxRate + r.audioBitrate) && Says(fields[1], b, r.videoBitrate + r.audioBitrate)
            && SaysSize(fields[2], c, Width(r, w, h), r.height)
            && fields[3] == d && fields[4] == e
  {
    CatNine(parts);
    TagSays(parts, a, b, c, d, e, r.maxRate + r.audioBitrate, r.videoBitrate + r.audioBitrate, Width(r, w, h), r.height);
  }

  /**
   * What a player reads from a rung's tag: the peak is the maximum rate plus audio, the average the video
   * bitrate plus audio, the size the rung's height at the source's aspect ratio, and the two codecs.
   */
  lemma {:induction false} TagReadsBack(r: Rung, w: nat, h: nat)
    ensures var fields := CommaFields(StreamInf(r, w, h));
            && |fields| == 5
            && Says(fields[0], "#EXT-X-STREAM-INF:BANDWIDTH=", r.maxRate + r.audioBitrate)
            && Says(fields[1], "AVERAGE-BANDWIDTH=", r.videoBitrate + r.audioBitrate)
            && SaysSize(fields[2], "RESOLUTION=", Width(r, w, h), r.height)
            && fields[3] == "CODECS=\"avc1.4d0028" && fields[4] == "mp4a.40.2\""
  {
    var a, b, c, d, e := "#EXT-X-STREAM-INF:BANDWIDTH=", "AVERAGE-BANDWIDTH=", "RESOLUTION=", "CODECS=\"avc1.4d0028",
                         "mp4a.40.2\"";
    TagLabels();
    CodecsTag();
    var parts := TagIs(r, w, h, a, b, c, d, e);
    PiecesSay(parts, r, w, h, a, b, c, d, e);
  }

  // ---------------------------------------------------------------- variant playlists

  predicate HasDotDot(line: string) {
    exists i | 0 <= i < |line| - 1 :: line[i] == '.' && line[i + 1] == '.'
  }

  /** A reference that could leave the rung's directory. */
  predicate Unsafe(line: string) {
    '/' in line || '\\' in line || HasDotDot(line)
  }

  /** Blank and '#' lines stay; a media line becomes the signed URL of its key; an unsafe one is refused. */
  function VariantRule(prefix: string, sign: string -> Option<string>): string -> Option<string> {
    (line: string) =>
      if Passes(line) then Some(line)
      else if Unsafe(line) then None
      else sign(Join([prefix, line]))
  }

  method RewriteVariantPlaylist(raw: string, asset: string, version: int, rung: string, sign: string -> Option<string>)
    returns (r: Option<string>)
    ensures r == RewriteText(raw, VariantRule(RenditionPrefix(asset, version, rung), sign))
  {
    var prefix := RenditionPrefix(asset, version, rung);
    r := SignLines(raw, prefix, sign);
  }

  /** One line: None when it is refused or cannot be signed. */
  method SignLine(line: string, prefix: string, sign: string -> Option<string>) returns (l: Option<string>)
    ensures l == VariantRule(prefix, sign)(line)
  {
    if Passes(line) {
      return Some(line);
    }
    if Unsafe(line) {
      return None;
    }
    l := sign(Join([prefix, line]));
  }

  method SignLines(raw: string, prefix: string, sign: string -> Option<string>) returns (r: Option<string>)
    ensures r == RewriteText(raw, VariantRule(prefix, sign))
  {
    ghost var rule := VariantRule(prefix, sign);
    var sc := new Scanner(raw);
    var out := "";
    StartOfText(raw, rule);
    var more := true;
    while more
      invariant more ==> !sc.failed && RewriteText(raw, rule) == Continue(out, RewriteText(sc.rest, rule))
      invariant !more ==> RewriteText(raw, rule) == if sc.failed then None else Some(out)
      decreases |sc.rest|, more
    {
      ghost var rest := sc.rest;
      more := sc.Scan();
      if more {
        AfterLineShrinks(rest);
        var l := SignLine(sc.line, prefix, sign);
        if l.None? {
          RewriteStep(rest, rule);
          return None;
        }
        LineDone(out, rest, rule);
        out := out + l.value + "\n";
      } else if rest == "" {
        EndOfText(out, rule);
      } else {
        RewriteStep(rest, rule);
      }
    }
    if sc.failed {
      return None;
    }
    return Some(out);
  }

  lemma {:induction false} AfterLineShrinks(s: string)
    requires s != ""
    ensures |AfterLine(s)| < |s|
  {
  }

  /** A safe media line is an ordinary name or ".". */
  lemma {:induction false} SafeLine(line: string)
    requires !Passes(line) && !Unsafe(line)
    ensures Plain(line) || line == "."
  {
    var dots := "..";
    assert dots[0] == '.' && dots[1] == '.';
    assert HasDotDot(dots);
  }

  /** The key that is signed for a safe media line: the rung's prefix itself or a direct child of it. */
  lemma {:induction false} SignedKey(asset: string, version: int, rung: string, line: string)
    requires Plain(asset) && Plain(rung) && !Passes(line) && !Unsafe(line)
    ensures var prefix := RenditionPrefix(asset, version, rung);
            Join([prefix, line]) == if line == "." then prefix else prefix + "/" + line
  {
    PrefixParts(asset, version, rung);
    SafeLine(line);
    var parts := ["renditions", asset, "v" + Decimal(version), rung];
    if line == "." {
      JoinDot(parts);
    } else {
      JoinChild(parts, line);
    }
  }

  ghost predicate SignsCleanly(sign: string -> Option<string>) {
    forall k :: sign(k).Some? ==> '\n' !in sign(k).value
  }

  /** The rewrite of a variant in the rule's own terms. */
  lemma {:induction false} VariantRewrites(raw: string, asset: string, version: int, rung: string,
      sign: string -> Option<string>)
    requires Plain(asset) && Plain(rung) && SignsCleanly(sign)
    ensures var prefix := RenditionPrefix(asset, version, rung);
            var key := (line: string) => if line == "." then prefix else prefix + "/" + line;
            var r := RewriteText(raw, VariantRule(prefix, sign));
            && (r.Some? <==> Scannable(raw) && forall i | 0 <= i < |Lines(raw)| ::
                  Passes(Lines(raw)[i]) || (!Unsafe(Lines(raw)[i]) && sign(key(Lines(raw)[i])).Some?))
            && (r.Some? ==>
                  && |Segments(r.value)| == |Lines(raw)|
                  && forall i | 0 <= i < |Lines(raw)| ::
                       if Passes(Lines(raw)[i]) then Segments(r.value)[i] == Lines(raw)[i]
                       else Some(Segments(r.value)[i]) == sign(key(Lines(raw)[i])))
  {
    var prefix := RenditionPrefix(asset, version, rung);
    var rule := VariantRule(prefix, sign);
    var lines := Lines(raw);
    RewriteLinesAre(lines, rule);
    forall i | 0 <= i < |lines| && !Passes(lines[i]) && !Unsafe(lines[i])
      ensures Join([prefix, lines[i]]) == if lines[i] == "." then prefix else prefix + "/" + lines[i]
    {
      SignedKey(asset, version, rung, lines[i]);
    }
    var r := RewriteText(raw, rule);
    if r.Some? {
      var out := RewriteLines(lines, rule).value;
      LinesHaveNoNewline(raw);
      forall l | l in out ensures '\n' !in l {
        var i :| 0 <= i < |out| && out[i] == l;
        assert rule(lines[i]) == Some(l);
      }
      SegmentsUnlines(out);
    }
  }

  /** A media line that cannot leave the rung's directory: no slash, no backslash, no two dots in a row. */
  predicate Contained(line: string) {
    '/' !in line && '\\' !in line && forall j | 0 <= j < |line| - 1 :: line[j] != '.' || line[j + 1] != '.'
  }

  lemma {:induction false} ContainedIsSafe(line: string)
    ensures Contained(line) <==> !Unsafe(line)
  {
  }

  /**
   * For every playlist: the rewrite fails exactly when a line is too long, some media line could leave the
   * rung's directory, or its key cannot be signed. Otherwise line i of the result is line i of the playlist
   * when that is blank or starts with '#', and else the signed URL of a key that is the rung's prefix or a
   * direct child of it.
   */
  lemma {:induction false} VariantIsLinePreserving(raw: string, asset: string, version: int, rung: string,
      sign: string -> Option<string>)
    requires Plain(asset) && Plain(rung) && SignsCleanly(sign)
    ensures var prefix, lines := RenditionPrefix(asset, version, rung), Lines(raw);
            var key := (line: string) => if line == "." then prefix else prefix + "/" + line;
            var r := RewriteText(raw, VariantRule(prefix, sign));
            && (r.Some? <==> Scannable(raw) && forall i | 0 <= i < |lines| ::
                  lines[i] == "" || lines[i][0] == '#' || (Contained(lines[i]) && sign(key(lines[i])).Some?))
            && (r.Some? ==>
                  && |Segments(r.value)| == |lines|
                  && forall i | 0 <= i < |lines| ::
                       if lines[i] == "" || lines[i][0] == '#' then Segments(r.value)[i] == lines[i]
                       else Some(Segments(r.value)[i]) == sign(key(lines[i])))
  {
    VariantRewrites(raw, asset, version, rung, sign);
    forall i | 0 <= i < |Lines(raw)| ensures Contained(Lines(raw)[i]) <==> !Unsafe(Lines(raw)[i]) {
      ContainedIsSafe(Lines(raw)[i]);
    }
  }
}
