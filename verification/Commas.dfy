/** Text cut at its commas: the directives of a header, the attributes of a tag. */
module Commas {

  /** Position of the first comma, or the length when there is none. */
  function CommaAt(s: string): (k: nat)
    ensures k <= |s| && (k < |s| ==> s[k] == ',')
  {
    if s == "" || s[0] == ',' then 0 else 1 + CommaAt(s[1..])
  }

  /** The pieces between the commas, empty ones included. */
  function CommaFields(s: string): seq<string>
    decreases |s|
  {
    var k := CommaAt(s);
    if k == |s| then [s] else [s[..k]] + CommaFields(s[k + 1..])
  }

  lemma {:induction false} FirstField(s: string, head: string, tail: string)
    requires s == head + [','] + tail && CommaAt(s) == |head|
    ensures CommaFields(s) == [head] + CommaFields(tail)
  {
    assert s[..|head|] == head && s[|head| + 1..] == tail;
  }

  lemma {:induction false} CutAtComma(a: string)
    requires CommaAt(a) < |a|
    ensures a == a[..CommaAt(a)] + [','] + a[CommaAt(a) + 1..]
  {
    CutAt(a, CommaAt(a));
  }

  lemma {:induction false} CutAt<T>(a: seq<T>, k: nat)
    requires k < |a|
    ensures a == a[..k] + [a[k]] + a[k + 1..]
  {
  }

  lemma {:induction false} Regroup<T>(x: seq<T>, c: seq<T>, y: seq<T>, z: seq<T>)
    ensures (x + c + y) + z == x + c + (y + z) && (x + y) + z == x + (y + z)
  {
  }

  lemma {:induction false} FieldsJoin(a: string, b: string)
    ensures CommaFields(a + [','] + b) == CommaFields(a) + CommaFields(b)
    decreases |a|, 1
  {
    var s, k := a + [','] + b, CommaAt(a);
    CommaFirst(a, b);
    if k == |a| {
      FirstField(s, a, b);
      NoMoreCommas(a);
    } else {
      var head, rest := a[..k], a[k + 1..];
      CutAtComma(a);
      FirstField(a, head, rest);
      JoinRest(s, a, head, rest, b);
    }
  }

  lemma {:induction false} NoMoreCommas(a: string)
    requires CommaAt(a) == |a|
    ensures CommaFields(a) == [a]
  {
  }

  lemma {:induction false} JoinRest(s: string, a: string, head: string, rest: string, b: string)
    requires s == a + [','] + b && a == head + [','] + rest && CommaAt(s) == |head|
    ensures CommaFields(s) == [head] + CommaFields(rest) + CommaFields(b)
    decreases |rest| + 1, 0
  {
    var tail := rest + [','] + b;
    Regroup(head, [','], rest, [','] + b);
    assert s == head + [','] + tail;
    FirstField(s, head, tail);
    FieldsJoin(rest, b);
    Regroup([head], [], CommaFields(rest), CommaFields(b));
  }

  lemma {:induction false} CommaFirst(a: string, b: string)
    ensures CommaAt(a + [','] + b) == CommaAt(a)
  {
    if a != "" && a[0] != ',' {
      assert (a + [','] + b)[1..] == a[1..] + [','] + b;
      CommaFirst(a[1..], b);
    }
  }

  lemma {:induction false} NoComma(s: string)
    requires ',' !in s
    ensures CommaFields(s) == [s]
  {
    if s != "" {
      NoComma(s[1..]);
      assert ',' !in s[1..];
    }
  }
}
