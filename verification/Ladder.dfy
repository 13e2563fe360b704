/** The rungs of the adaptive-bitrate ladder and which of them a source gets. */
module Ladder {
  import opened Paths

  datatype Rung = Rung(name: string, height: nat, videoBitrate: nat, maxRate: nat, bufSize: nat, audioBitrate: nat,
                       preset: string, crf: nat)

  function PeakBandwidth(r: Rung): nat {
    r.maxRate + r.audioBitrate
  }

  function AverageBandwidth(r: Rung): nat {
    r.videoBitrate + r.audioBitrate
  }

  /** The even width matching the source's aspect ratio, with the quotient taken exactly. */
  function Width(r: Rung, srcW: nat, srcH: nat): (w: nat)
    ensures w % 2 == 0
    ensures srcH > 0 ==> w * srcH <= r.height * srcW < (w + 2) * srcH
  {
    if srcH == 0 then 0
    else
      var q := r.height * srcW / srcH;
      DivisionBounds(r.height * srcW, srcH);
      EvenBounds(q, srcH);
      q - q % 2
  }

  lemma {:induction false} DivisionBounds(n: nat, d: nat)
    requires d > 0
    ensures (n / d) * d <= n < (n / d + 1) * d
  {
  }

  lemma {:induction false} EvenBounds(q: nat, d: nat)
    ensures (q - q % 2) * d <= q * d && (q + 1) * d <= (q - q % 2 + 2) * d
  {
  }

  const FULL_LADDER: seq<Rung> := [
    Rung("1080p", 1080, 5_000_000, 5_350_000, 7_500_000, 128_000, "medium", 21),
    Rung("720p", 720, 2_800_000, 2_996_000, 4_200_000, 128_000, "medium", 22),
    Rung("480p", 480, 1_400_000, 1_498_000, 2_100_000, 96_000, "fast", 23),
    Rung("360p", 360, 800_000, 856_000, 1_200_000, 64_000, "fast", 24),
    Rung("240p", 240, 400_000, 428_000, 600_000, 48_000, "veryfast", 26)
  ]

  function AtMost(rungs: seq<Rung>, height: int): seq<Rung> {
    if rungs == [] then []
    else
      var front := AtMost(rungs[..|rungs| - 1], height);
      var r := rungs[|rungs| - 1];
      if r.height <= height then front + [r] else front
  }

  /** The rungs a source of this height gets: those it can fill, or the lowest when it can fill none. */
  function LadderSpec(height: int): seq<Rung> {
    var out := AtMost(FULL_LADDER, height);
    if out == [] then [FULL_LADDER[|FULL_LADDER| - 1]] else out
  }

  predicate Descending(s: seq<Rung>) {
    forall i, j | 0 <= i < j < |s| :: s[i].height > s[j].height
  }

  /** Filtering by height keeps exactly the rungs that fit. */
  lemma {:induction false} AtMostKeeps(rungs: seq<Rung>, height: int, r: Rung)
    ensures r in AtMost(rungs, height) <==> r in rungs && r.height <= height
  {
    if rungs != [] {
      AtMostKeeps(rungs[..|rungs| - 1], height, r);
      assert rungs == rungs[..|rungs| - 1] + [rungs[|rungs| - 1]];
    }
  }

  /** And keeps them in order. */
  lemma {:induction false} AtMostDescends(rungs: seq<Rung>, height: int)
    requires Descending(rungs)
    ensures Descending(AtMost(rungs, height)) && |AtMost(rungs, height)| <= |rungs|
  {
    if rungs != [] {
      var front, last := rungs[..|rungs| - 1], rungs[|rungs| - 1];
      AtMostDescends(front, height);
      forall r | r in AtMost(front, height) ensures r.height > last.height {
        AtMostKeeps(front, height, r);
        TallerThanLast(rungs, r);
      }
      if last.height <= height {
        DescendsFurther(AtMost(front, height), last);
      }
    }
  }

  lemma {:induction false} TallerThanLast(rungs: seq<Rung>, r: Rung)
    requires Descending(rungs) && rungs != [] && r in rungs[..|rungs| - 1]
    ensures r.height > rungs[|rungs| - 1].height
  {
    var k :| 0 <= k < |rungs| - 1 && rungs[..|rungs| - 1][k] == r;
    assert rungs[k] == r;
  }

  lemma {:induction false} DescendsFurther(s: seq<Rung>, last: Rung)
    requires Descending(s) && forall r | r in s :: r.height > last.height
    ensures Descending(s + [last])
  {
    forall i, j | 0 <= i < j < |s| + 1 ensures (s + [last])[i].height > (s + [last])[j].height {
      assert s[i] in s;
    }
  }

  lemma {:induction false} FullLadderDescends()
    ensures Descending(FULL_LADDER) && |FULL_LADDER| == 5 && FULL_LADDER[4].name == "240p"
  {
  }

  /** Each rung is named after its height; its peak is 1.07 times and its buffer 1.5 times its average bitrate. */
  lemma {:induction false} RungNumbers(r: Rung)
    requires r in FULL_LADDER
    ensures Value(r.name[..|r.name| - 1]) == r.height && r.name[|r.name| - 1] == 'p'
    ensures r.maxRate * 100 == r.videoBitrate * 107
    ensures r.bufSize * 2 == r.videoBitrate * 3
    ensures r.height % 2 == 0
  {
    var n := r.name[..|r.name| - 1];
    if r.height == 1080 {
      assert n == [n[0], n[1], n[2], n[3]];
      FourDigits(n[0], n[1], n[2], n[3]);
    } else {
      assert n == [n[0], n[1], n[2]];
      ThreeDigits(n[0], n[1], n[2]);
    }
  }

  lemma {:induction false} ThreeDigits(a: char, b: char, c: char)
    ensures Value([a, b, c]) == 100 * (a as int - 48) + 10 * (b as int - 48) + (c as int - 48)
  {
    assert [a, b, c][..2] == [a, b] && [a, b][..1] == [a] && [a][..0] == [];
    assert Value([a]) == a as int - 48;
  }

  lemma {:induction false} FourDigits(a: char, b: char, c: char, d: char)
    ensures Value([a, b, c, d]) == 1000 * (a as int - 48) + 100 * (b as int - 48) + 10 * (c as int - 48) + (d as int - 48)
  {
    ThreeDigits(a, b, c);
    assert [a, b, c, d][..3] == [a, b, c];
  }

  /** Never empty, from the tallest down, and nothing but full-ladder rungs. */
  lemma {:induction false} LadderSpecIs(height: int)
    ensures 1 <= |LadderSpec(height)| <= 5 && Descending(LadderSpec(height))
    ensures forall r | r in LadderSpec(height) :: r in FULL_LADDER
  {
    FullLadderDescends();
    AtMostDescends(FULL_LADDER, height);
    forall r | r in AtMost(FULL_LADDER, height) ensures r in FULL_LADDER {
      AtMostKeeps(FULL_LADDER, height, r);
    }
  }

  /** Never upscales, except that a source below the lowest rung still gets that rung. */
  method LadderFor(height: int) returns (out: seq<Rung>)
    ensures out == LadderSpec(height)
    ensures out != [] && Descending(out)
    ensures forall r | r in out :: r in FULL_LADDER && (r.height <= height || r.name == "240p")
    ensures forall r | r in FULL_LADDER && r.height <= height :: r in out
  {
    var full := FULL_LADDER;
    FullLadderDescends();
    out := [];
    var i := 0;
    while i < |full|
      invariant 0 <= i <= |full|
      invariant out == AtMost(full[..i], height)
    {
      assert full[..i + 1][..i] == full[..i];
      if full[i].height <= height {
        out := out + [full[i]];
      }
      i := i + 1;
    }
    assert full[..i] == full;
    AtMostDescends(full, height);
    forall r ensures r in out <==> r in full && r.height <= height {
      AtMostKeeps(full, height, r);
    }
    if out == [] {
      out := [full[|full| - 1]];
    }
  }

  // ---------------------------------------------------------------- sorting by bandwidth

  function InsertByPeak(r: Rung, sorted: seq<Rung>): seq<Rung> {
    if sorted == [] || PeakBandwidth(sorted[0]) <= PeakBandwidth(r) then [r] + sorted
    else [sorted[0]] + InsertByPeak(r, sorted[1..])
  }

  /** The stable order by falling peak bandwidth. */
  function ByPeak(ladder: seq<Rung>): seq<Rung> {
    if ladder == [] then [] else InsertByPeak(ladder[0], ByPeak(ladder[1..]))
  }

  predicate Falling(s: seq<Rung>) {
    forall i, j | 0 <= i < j < |s| :: PeakBandwidth(s[i]) >= PeakBandwidth(s[j])
  }

  /** The rungs of one bandwidth, in order. */
  function OfPeak(s: seq<Rung>, peak: nat): seq<Rung> {
    if s == [] then []
    else if PeakBandwidth(s[0]) == peak then [s[0]] + OfPeak(s[1..], peak)
    else OfPeak(s[1..], peak)
  }

  lemma {:induction false} InsertIsPermutation(r: Rung, s: seq<Rung>)
    ensures multiset(InsertByPeak(r, s)) == multiset(s) + multiset{r}
  {
    if s != [] && PeakBandwidth(s[0]) > PeakBandwidth(r) {
      InsertIsPermutation(r, s[1..]);
      assert s == [s[0]] + s[1..];
    }
  }

  lemma {:induction false} InsertFalls(r: Rung, s: seq<Rung>)
    requires Falling(s)
    ensures Falling(InsertByPeak(r, s))
  {
    if s != [] && PeakBandwidth(s[0]) > PeakBandwidth(r) {
      var t := InsertByPeak(r, s[1..]);
      InsertFalls(r, s[1..]);
      InsertIsPermutation(r, s[1..]);
      forall k | 0 <= k < |t| ensures PeakBandwidth(s[0]) >= PeakBandwidth(t[k]) {
        assert t[k] in multiset(t);
        BelowFirst(s, r, t[k]);
      }
      FallsFurther(s[0], t);
    }
  }

  lemma {:induction false} BelowFirst(s: seq<Rung>, r: Rung, x: Rung)
    requires Falling(s) && s != [] && PeakBandwidth(s[0]) > PeakBandwidth(r) && x in multiset(s[1..]) + multiset{r}
    ensures PeakBandwidth(s[0]) >= PeakBandwidth(x)
  {
    if x in s[1..] {
      var k :| 0 <= k < |s| - 1 && s[1..][k] == x;
      assert s[k + 1] == x;
    }
  }

  lemma {:induction false} FallsFurther(first: Rung, t: seq<Rung>)
    requires Falling(t) && forall k | 0 <= k < |t| :: PeakBandwidth(first) >= PeakBandwidth(t[k])
    ensures Falling([first] + t)
  {
  }

  lemma {:induction false} InsertKeepsOrder(r: Rung, s: seq<Rung>, peak: nat)
    ensures OfPeak(InsertByPeak(r, s), peak) == OfPeak([r] + s, peak)
  {
    assert ([r] + s)[1..] == s;
    if s != [] && PeakBandwidth(s[0]) > PeakBandwidth(r) {
      var t := InsertByPeak(r, s[1..]);
      InsertKeepsOrder(r, s[1..], peak);
      assert ([s[0]] + t)[1..] == t && ([r] + s[1..])[1..] == s[1..];
    }
  }

  /** The order is falling, loses no rung, and keeps rungs of equal bandwidth as they were. */
  lemma {:induction false} ByPeakIsStableSort(ladder: seq<Rung>, peak: nat)
    ensures Falling(ByPeak(ladder))
    ensures multiset(ByPeak(ladder)) == multiset(ladder)
    ensures OfPeak(ByPeak(ladder), peak) == OfPeak(ladder, peak)
  {
    if ladder != [] {
      ByPeakIsStableSort(ladder[1..], peak);
      InsertFalls(ladder[0], ByPeak(ladder[1..]));
      InsertIsPermutation(ladder[0], ByPeak(ladder[1..]));
      InsertKeepsOrder(ladder[0], ByPeak(ladder[1..]), peak);
      assert ladder == [ladder[0]] + ladder[1..];
      assert ([ladder[0]] + ByPeak(ladder[1..]))[1..] == ByPeak(ladder[1..]);
    }
  }
}
