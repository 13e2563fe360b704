/**
 * Playlist text: how a line scanner cuts it, and how it is put together again line by line.
 */
module Text {
  import opened Results

  /** The scanner's buffer limit: a line this long, or longer, cannot be scanned. */
  const MAX_LINE: nat := 1024 * 1024

  /** Position of the first newline, or the length when there is none. */
  function LineEnd(s: string): (k: nat)
    ensures k <= |s| && '\n' !in s[..k] && (k < |s| ==> s[k] == '\n')
  {
    if s == "" || s[0] == '\n' then 0 else
      var k := LineEnd(s[1..]);
      assert s[..k + 1] == [s[0]] + s[1..][..k];
      k + 1
  }

  /** What follows the first line. */
  function AfterLine(s: string): string {
    var k := LineEnd(s);
    if k < |s| then s[k + 1..] else ""
  }

  /** The text cut at newlines; a last piece without a newline counts when it is not empty. */
  function Segments(s: string): seq<string>
    decreases |s|
  {
    if s == "" then [] else [s[..LineEnd(s)]] + Segments(AfterLine(s))
  }

  function DropCR(s: string): string {
    if s != "" && s[|s| - 1] == '\r' then s[..|s| - 1] else s
  }

  function DropCRs(segments: seq<string>): (r: seq<string>)
    ensures |r| == |segments| && forall i | 0 <= i < |r| :: r[i] == DropCR(segments[i])
  {
    if segments == [] then [] else [DropCR(segments[0])] + DropCRs(segments[1..])
  }

  /** The lines a scanner yields. */
  function Lines(s: string): seq<string> {
    DropCRs(Segments(s))
  }

  predicate Scannable(s: string) {
    forall i | 0 <= i < |Segments(s)| :: |Segments(s)[i]| < MAX_LINE
  }

  /** Each line followed by a newline. */
  function Unlines(lines: seq<string>): string {
    if lines == [] then "" else lines[0] + "\n" + Unlines(lines[1..])
  }

  lemma {:induction false} UnlinesAppend(lines: seq<string>, more: seq<string>)
    ensures Unlines(lines + more) == Unlines(lines) + Unlines(more)
  {
    if lines == [] {
      assert lines + more == more;
    } else {
      assert (lines + more)[1..] == lines[1..] + more;
      UnlinesAppend(lines[1..], more);
    }
  }

  lemma {:induction false} LineEndAt(line: string, rest: string)
    requires '\n' !in line
    ensures LineEnd(line + "\n" + rest) == |line|
  {
    var s := line + "\n" + rest;
    if line != "" {
      assert s[1..] == line[1..] + "\n" + rest;
      LineEndAt(line[1..], rest);
    }
  }

  /** Text put together from lines is cut into the same lines again. */
  lemma {:induction false} SegmentsUnlines(lines: seq<string>)
    requires forall l | l in lines :: '\n' !in l
    ensures Segments(Unlines(lines)) == lines
  {
    if lines != [] {
      var s, rest := Unlines(lines), Unlines(lines[1..]);
      assert lines[0] in lines;
      LineEndAt(lines[0], rest);
      assert s[..|lines[0]|] == lines[0] && AfterLine(s) == rest;
      SegmentsUnlines(lines[1..]);
    }
  }

  lemma {:induction false} SegmentsHaveNoNewline(s: string)
    ensures forall i | 0 <= i < |Segments(s)| :: '\n' !in Segments(s)[i]
    decreases |s|
  {
    if s != "" {
      SegmentsHaveNoNewline(AfterLine(s));
    }
  }

  lemma {:induction false} LinesHaveNoNewline(s: string)
    ensures forall i | 0 <= i < |Lines(s)| :: '\n' !in Lines(s)[i]
  {
    SegmentsHaveNoNewline(s);
  }

  /** Text no longer than the limit that has a newline has no line of the limit's length. */
  lemma {:induction false} ShortTextScans(s: string)
    requires |s| < MAX_LINE
    ensures Scannable(s)
    decreases |s|
  {
    if s != "" {
      ShortTextScans(AfterLine(s));
      var tail := Segments(AfterLine(s));
      forall i | 0 <= i < |Segments(s)| ensures |Segments(s)[i]| < MAX_LINE {
        assert Segments(s)[i] == if i == 0 then s[..LineEnd(s)] else tail[i - 1];
      }
    }
  }

  lemma {:induction false} FirstSegment(line: string, rest: string)
    requires '\n' !in line
    ensures Segments(line + "\n" + rest) == [line] + Segments(rest)
  {
    var s := line + "\n" + rest;
    LineEndAt(line, rest);
    assert s[..|line|] == line && s[|line| + 1..] == rest;
  }

  lemma {:induction false} LastSegment(line: string)
    requires '\n' !in line
    ensures Segments(line) == if line == "" then [] else [line]
  {
    if line != "" {
      assert LineEnd(line) == |line|;
      assert line[..|line|] == line && Segments("") == [];
    }
  }

  lemma {:induction false} FirstLine(line: string, rest: string)
    requires '\n' !in line
    ensures Lines(line + "\n" + rest) == [DropCR(line)] + Lines(rest)
  {
    FirstSegment(line, rest);
    assert ([line] + Segments(rest))[1..] == Segments(rest);
  }

  lemma {:induction false} ScansOn(line: string, rest: string)
    requires '\n' !in line
    ensures Scannable(line + "\n" + rest) <==> |line| < 1_048_576 && Scannable(rest)
  {
    FirstSegment(line, rest);
    AllShort(line, Segments(rest));
  }

  lemma {:induction false} AllShort(line: string, tail: seq<string>)
    ensures var segments := [line] + tail;
            (forall i | 0 <= i < |segments| :: |segments[i]| < MAX_LINE) <==>
            |line| < MAX_LINE && forall i | 0 <= i < |tail| :: |tail[i]| < MAX_LINE
  {
    var segments := [line] + tail;
    assert segments[0] == line;
    assert forall i | 0 <= i < |tail| :: segments[i + 1] == tail[i];
    assert forall i | 0 < i < |segments| :: segments[i] == tail[i - 1];
  }

  lemma {:induction false} DropsOne(line: string)
    ensures DropCR(line + "\r") == line
    ensures line == "" || line[|line| - 1] != '\r' ==> DropCR(line) == line
  {
    var cr := line + "\r";
    assert cr[|cr| - 1] == '\r' && cr[..|cr| - 1] == line;
  }

  /**
   * The scanner's cut, told by what a text starts with: up to the newline is a line, without one carriage
   * return at its end, and a line of 1048576 characters is too long.
   */
  lemma {:induction false} ScannerCuts(line: string, rest: string)
    requires '\n' !in line
    ensures Lines(line + "\r" + "\n" + rest) == [line] + Lines(rest)
    ensures line == "" || line[|line| - 1] != '\r' ==> Lines(line + "\n" + rest) == [line] + Lines(rest)
    ensures Scannable(line + "\n" + rest) <==> |line| < 1_048_576 && Scannable(rest)
  {
    var cr := "\r";
    assert '\n' !in cr;
    DropsOne(line);
    FirstLine(line + cr, rest);
    FirstLine(line, rest);
    ScansOn(line, rest);
  }

  /** A last line needs no newline, and is not one when it is empty. */
  lemma {:induction false} ScannerEnds(line: string)
    requires '\n' !in line && (line == "" || line[|line| - 1] != '\r')
    ensures Lines(line) == if line == "" then [] else [line]
    ensures Scannable(line) <==> |line| < 1_048_576
  {
    LastSegment(line);
    DropsOne(line);
  }

  // ---------------------------------------------------------------- rewriting line by line

  /** Blank lines and lines starting with '#' are not references. */
  predicate Passes(line: string) {
    line == "" || line[0] == '#'
  }

  /** Every line by the rule; None as soon as the rule refuses one. */
  function RewriteLines(lines: seq<string>, rule: string -> Option<string>): Option<seq<string>> {
    if lines == [] then Some([])
    else
      match rule(lines[0])
      case None => None
      case Some(l) =>
        match RewriteLines(lines[1..], rule)
        case None => None
        case Some(ls) => Some([l] + ls)
  }

  lemma {:induction false} RewriteLinesAre(lines: seq<string>, rule: string -> Option<string>)
    ensures RewriteLines(lines, rule).Some? <==> forall i | 0 <= i < |lines| :: rule(lines[i]).Some?
    ensures RewriteLines(lines, rule).Some? ==>
              var out := RewriteLines(lines, rule).value;
              |out| == |lines| && forall i | 0 <= i < |lines| :: rule(lines[i]) == Some(out[i])
  {
    if lines != [] {
      RewriteLinesAre(lines[1..], rule);
      assert forall i | 0 < i < |lines| :: lines[i] == lines[1..][i - 1];
      if rule(lines[0]).Some? && RewriteLines(lines[1..], rule).None? {
        var i :| 0 <= i < |lines[1..]| && rule(lines[1..][i]).None?;
        assert lines[i + 1] == lines[1..][i];
      }
    }
  }

  /** Scan, rewrite each line, write it back with a newline. None stands for the returned error. */
  function RewriteText(raw: string, rule: string -> Option<string>): Option<string> {
    if !Scannable(raw) then None
    else
      match RewriteLines(Lines(raw), rule)
      case None => None
      case Some(ls) => Some(Unlines(ls))
  }

  // ---------------------------------------------------------------- the scanner

  /** A line scanner over a text: `rest` is unread, `line` the current line, `failed` a line too long. */
  class Scanner {
    var rest: string
    var line: string
    var failed: bool

    constructor (text: string)
      ensures rest == text && !failed
    {
      rest, line, failed := text, "", false;
    }

    method Scan() returns (more: bool)
      requires !failed
      modifies this
      ensures more == (old(rest) != "" && LineEnd(old(rest)) < MAX_LINE)
      ensures more ==> line == DropCR(old(rest)[..LineEnd(old(rest))]) && rest == AfterLine(old(rest)) && !failed
      ensures !more ==> failed == (old(rest) != "") && rest == old(rest)
    {
      if rest == "" {
        return false;
      }
      var k := LineEnd(rest);
      if k >= MAX_LINE {
        failed := true;
        return false;
      }
      line := DropCR(rest[..k]);
      rest := AfterLine(rest);
      return true;
    }
  }

  /** Reading one line: what is left to rewrite, given that its first line became `l`. */
  lemma {:induction false} RewriteStep(rest: string, rule: string -> Option<string>)
    requires rest != ""
    ensures var first := DropCR(rest[..LineEnd(rest)]);
            RewriteText(rest, rule) ==
            if LineEnd(rest) >= MAX_LINE || rule(first).None? then None
            else
              match RewriteText(AfterLine(rest), rule)
              case None => None
              case Some(more) => Some(rule(first).value + "\n" + more)
  {
    var k := LineEnd(rest);
    var segs := Segments(rest);
    var tail := Segments(AfterLine(rest));
    assert segs == [rest[..k]] + tail;
    assert segs[1..] == tail;
    assert Lines(rest)[1..] == Lines(AfterLine(rest));
    assert Scannable(rest) <==> k < MAX_LINE && Scannable(AfterLine(rest)) by {
      if Scannable(rest) {
        assert |segs[0]| < MAX_LINE;
        forall i | 0 <= i < |tail| ensures |tail[i]| < MAX_LINE {
          assert tail[i] == segs[i + 1];
        }
      }
    }
  }

  /** What was written so far, followed by what the rest still rewrites to. */
  function Continue(out: string, more: Option<string>): Option<string> {
    match more
    case None => None
    case Some(m) => Some(out + m)
  }

  lemma {:induction false} StartOfText(raw: string, rule: string -> Option<string>)
    ensures Continue("", RewriteText(raw, rule)) == RewriteText(raw, rule)
  {
    var r := RewriteText(raw, rule);
    if r.Some? {
      assert "" + r.value == r.value;
    }
  }

  lemma {:induction false} ContinueLine(out: string, l: string, more: Option<string>)
    ensures Continue(out, match more case None => None case Some(m) => Some(l + "\n" + m))
            == Continue(out + l + "\n", more)
  {
    if more.Some? {
      var newline := "\n";
      assert out + (l + newline + more.value) == out + l + newline + more.value;
    }
  }

  /** A line the rule accepts moves from the text to the output. */
  lemma {:induction false} LineDone(out: string, rest: string, rule: string -> Option<string>)
    requires rest != "" && LineEnd(rest) < MAX_LINE && rule(DropCR(rest[..LineEnd(rest)])).Some?
    ensures Continue(out, RewriteText(rest, rule))
            == Continue(out + rule(DropCR(rest[..LineEnd(rest)])).value + "\n", RewriteText(AfterLine(rest), rule))
  {
    RewriteStep(rest, rule);
    ContinueLine(out, rule(DropCR(rest[..LineEnd(rest)])).value, RewriteText(AfterLine(rest), rule));
  }

  lemma {:induction false} EndOfText(out: string, rule: string -> Option<string>)
    ensures Continue(out, RewriteText("", rule)) == Some(out)
  {
    assert Segments("") == [] && Lines("") == [];
    assert out + "" == out;
  }
}
