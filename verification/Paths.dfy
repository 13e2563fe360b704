/** Slash-separated storage keys: joining with path cleaning, and decimal numbers inside them. */
module Paths {

  /** Position of the first slash, or the length when there is none. */
  function SlashAt(s: string): (k: nat)
    ensures k <= |s| && '/' !in s[..k] && (k < |s| ==> s[k] == '/')
  {
    if s == "" || s[0] == '/' then 0 else
      var k := SlashAt(s[1..]);
      assert s[..k + 1] == [s[0]] + s[1..][..k];
      k + 1
  }

  /** The elements between slashes, empty ones included. */
  function Split(s: string): (r: seq<string>)
    ensures |r| > 0
    decreases |s|
  {
    var k := SlashAt(s);
    if k == |s| then [s] else [s[..k]] + Split(s[k + 1..])
  }

  function Glue(parts: seq<string>): string {
    if parts == [] then "" else if |parts| == 1 then parts[0] else parts[0] + "/" + Glue(parts[1..])
  }

  /** Lexical cleaning of the elements: empty and "." vanish, ".." removes the element before it. */
  function CleanParts(parts: seq<string>, rooted: bool, out: seq<string>): seq<string> {
    if parts == [] then out
    else
      var rest := parts[1..];
      if parts[0] == "" || parts[0] == "." then CleanParts(rest, rooted, out)
      else if parts[0] != ".." then CleanParts(rest, rooted, out + [parts[0]])
      else if out != [] && out[|out| - 1] != ".." then CleanParts(rest, rooted, out[..|out| - 1])
      else if rooted then CleanParts(rest, rooted, out)
      else CleanParts(rest, rooted, out + [".."])
  }

  function Clean(path: string): string {
    if path == "" then "."
    else
      var rooted := path[0] == '/';
      var body := Glue(CleanParts(Split(path), rooted, []));
      if rooted then "/" + body else if body == "" then "." else body
  }

  function NonEmpty(elems: seq<string>): seq<string> {
    if elems == [] then []
    else if elems[0] == "" then NonEmpty(elems[1..])
    else [elems[0]] + NonEmpty(elems[1..])
  }

  /** path.Join: the non-empty elements with slashes between them, cleaned. */
  function Join(elems: seq<string>): string {
    if NonEmpty(elems) == [] then "" else Clean(Glue(NonEmpty(elems)))
  }

  /** An ordinary file or directory name. */
  predicate Plain(s: string) {
    s != "" && s != "." && s != ".." && '/' !in s
  }

  predicate AllPlain(parts: seq<string>) {
    forall i | 0 <= i < |parts| :: Plain(parts[i])
  }

  lemma {:induction false} SlashAtEnd(a: string, rest: string)
    requires '/' !in a
    ensures SlashAt(a + "/" + rest) == |a|
  {
    var s := a + "/" + rest;
    if a != "" {
      assert s[1..] == a[1..] + "/" + rest;
      SlashAtEnd(a[1..], rest);
    }
  }

  lemma {:induction false} SplitGlue(parts: seq<string>)
    requires parts != [] && forall i | 0 <= i < |parts| :: '/' !in parts[i]
    ensures Split(Glue(parts)) == parts
  {
    if |parts| == 1 {
    } else {
      var rest := Glue(parts[1..]);
      SlashAtEnd(parts[0], rest);
      var s := Glue(parts);
      assert s[..|parts[0]|] == parts[0] && s[|parts[0]| + 1..] == rest;
      SplitGlue(parts[1..]);
    }
  }

  lemma {:induction false} CleanPlain(parts: seq<string>, rooted: bool, out: seq<string>)
    requires AllPlain(parts)
    ensures CleanParts(parts, rooted, out) == out + parts
  {
    if parts != [] {
      CleanPlain(parts[1..], rooted, out + [parts[0]]);
      assert out + [parts[0]] + parts[1..] == out + parts;
    }
  }

  lemma {:induction false} AllKept(elems: seq<string>)
    requires AllPlain(elems)
    ensures NonEmpty(elems) == elems
  {
    if elems != [] {
      AllKept(elems[1..]);
    }
  }

  lemma {:induction false} GlueStarts(parts: seq<string>)
    requires parts != [] && parts[0] != ""
    ensures Glue(parts) != "" && Glue(parts)[0] == parts[0][0]
  {
  }

  /** Joining ordinary names only puts slashes between them. */
  lemma {:induction false} JoinPlain(parts: seq<string>)
    requires parts != [] && AllPlain(parts)
    ensures Join(parts) == Glue(parts) && Split(Join(parts)) == parts
  {
    AllKept(parts);
    GlueStarts(parts);
    SplitGlue(parts);
    CleanPlain(parts, false, []);
    assert [] + parts == parts;
  }

  lemma {:induction false} GlueAppend(parts: seq<string>, name: string)
    requires parts != []
    ensures Glue(parts + [name]) == Glue(parts) + "/" + name
  {
    if |parts| == 1 {
      assert (parts + [name])[1..] == [name];
    } else {
      assert (parts + [name])[1..] == parts[1..] + [name];
      GlueAppend(parts[1..], name);
    }
  }

  /** Joining one more ordinary name to a cleaned key makes it a direct child of that key. */
  lemma {:induction false} JoinChild(parts: seq<string>, name: string)
    requires parts != [] && AllPlain(parts) && Plain(name)
    ensures Join([Join(parts), name]) == Join(parts + [name]) == Join(parts) + "/" + name
  {
    JoinPlain(parts);
    JoinPlain(parts + [name]);
    GlueAppend(parts, name);
    GlueStarts(parts);
    var two := [Glue(parts), name];
    assert NonEmpty(two) == two by {
      assert two[1..] == [name] && NonEmpty([name]) == [name];
    }
    assert two[1..] == [name];
    assert Glue(two) == Glue(parts + [name]);
    AllKept(parts + [name]);
  }

  /** Joining "." to a cleaned key is that key. */
  lemma {:induction false} JoinDot(parts: seq<string>)
    requires parts != [] && AllPlain(parts)
    ensures Join([Join(parts), "."]) == Join(parts)
  {
    JoinPlain(parts);
    GlueAppend(parts, ".");
    GlueStarts(parts);
    var two := [Glue(parts), "."];
    assert two[1..] == ["."] && NonEmpty(["."]) == ["."];
    assert NonEmpty(two) == two;
    assert Glue(two) == Glue(parts + ["."]);
    GlueStarts(parts + ["."]);
    SplitGlue(parts + ["."]);
    CleanThenDot(parts, []);
    assert [] + parts == parts;
  }

  lemma {:induction false} CleanThenDot(parts: seq<string>, out: seq<string>)
    requires AllPlain(parts)
    ensures CleanParts(parts + ["."], false, out) == out + parts
  {
    if parts == [] {
      assert (parts + ["."])[1..] == [];
    } else {
      assert (parts + ["."])[1..] == parts[1..] + ["."];
      CleanThenDot(parts[1..], out + [parts[0]]);
      assert out + [parts[0]] + parts[1..] == out + parts;
    }
  }

  // ---------------------------------------------------------------- decimal numbers

  const DIGITS := "0123456789"

  function Digits(n: nat): (s: string)
    ensures s != "" && forall c | c in s :: c in DIGITS
  {
    if n < 10 then [DIGITS[n]] else Digits(n / 10) + [DIGITS[n % 10]]
  }

  /** How %d prints an integer. */
  function Decimal(n: int): (s: string)
    ensures s != "" && forall c | c in s :: c in DIGITS || c == '-'
  {
    if n < 0 then "-" + Digits(-n) else Digits(n)
  }

  function Pow10(k: nat): nat {
    if k == 0 then 1 else 10 * Pow10(k - 1)
  }

  lemma {:induction false} DigitsLength(n: nat, k: nat)
    requires k > 0 && n < Pow10(k)
    ensures |Digits(n)| <= k
  {
    if n >= 10 {
      DigitsLength(n / 10, k - 1);
    }
  }

  /** The value a string of digits stands for: printing loses nothing. */
  function Value(s: string): int {
    if s == "" then 0 else 10 * Value(s[..|s| - 1]) + (s[|s| - 1] as int - '0' as int)
  }

  lemma {:induction false} DigitsRoundTrip(n: nat)
    ensures Value(Digits(n)) == n
  {
    if n >= 10 {
      DigitsRoundTrip(n / 10);
      assert Digits(n)[..|Digits(n)| - 1] == Digits(n / 10);
    } else {
      assert Digits(n)[..0] == "";
    }
  }
}
