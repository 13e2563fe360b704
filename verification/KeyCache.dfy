/**
 * The cache of token-signing keys: how long a fetched set lasts, when it is fetched again, and what is
 * served. Times are in nanoseconds; every call reads the clock once, and the clock may run backwards.
 */
module KeyCache {
  import opened Results
  import PledgeModel
  import opened Paths
  import opened Commas

  type Int64 = PledgeModel.Int64

  const SECOND: int := 1_000_000_000
  const MINUTE: int := 60 * SECOND
  const HOUR: int := 60 * MINUTE
  const DAY: int := 24 * HOUR

  // ---------------------------------------------------------------- the Cache-Control header

  predicate Space(c: char) {
    || '\t' <= c <= '\r' || c == ' ' || c == '\U{0085}' || c == '\U{00A0}' || c == '\U{1680}'
    || '\U{2000}' <= c <= '\U{200A}' || c == '\U{2028}' || c == '\U{2029}' || c == '\U{202F}'
    || c == '\U{205F}' || c == '\U{3000}'
  }

  function Trim(s: string): string {
    if s == "" then s
    else if Space(s[0]) then Trim(s[1..])
    else if Space(s[|s| - 1]) then Trim(s[..|s| - 1])
    else s
  }

  predicate Digit(c: char) {
    '0' <= c <= '9'
  }

  predicate Numeric(s: string) {
    s != "" && forall i | 0 <= i < |s| :: Digit(s[i])
  }

  /** A decimal number with an optional sign that fits 64 bits. */
  function Atoi(s: string): Option<Int64> {
    var digits := if s != "" && (s[0] == '-' || s[0] == '+') then s[1..] else s;
    if !Numeric(digits) then None
    else
      var v := if s[0] == '-' then -Value(digits) else Value(digits);
      if -0x8000_0000_0000_0000 <= v <= 0x7FFF_FFFF_FFFF_FFFF then Some(v) else None
  }

  const MAX_AGE := "max-age="

  /** The seconds a directive gives, if it is a max-age that parses. */
  function Age(directive: string): Option<Int64> {
    var d := Trim(directive);
    if MAX_AGE <= d then Atoi(d[|MAX_AGE|..]) else None
  }

  /** The last age among the first n directives. */
  function LastAge(directives: seq<string>, n: nat): Option<Int64>
    requires n <= |directives|
  {
    if n == 0 then None
    else
      var age := Age(directives[n - 1]);
      if age.Some? then age else LastAge(directives, n - 1)
  }

  /** Seconds as 64-bit nanoseconds; the product wraps around. */
  function Nanos(secs: Int64): Int64 {
    (secs * SECOND + 0x8000_0000_0000_0000) % 0x1_0000_0000_0000_0000 - 0x8000_0000_0000_0000
  }

  function Clamp(t: int): (r: int)
    ensures MINUTE <= r <= DAY
    ensures MINUTE <= t <= DAY ==> r == t
  {
    if t > DAY then DAY else if t < MINUTE then MINUTE else t
  }

  function Ttl(age: Option<Int64>): int {
    Clamp(if age.None? then HOUR else Nanos(age.value))
  }

  function TtlOf(header: string): int {
    Ttl(LastAge(CommaFields(header), |CommaFields(header)|))
  }

  method KeyTTL(header: string) returns (r: int)
    ensures r == TtlOf(header) && MINUTE <= r <= DAY
  {
    var directives := CommaFields(header);
    var ttl := HOUR;
    var i := 0;
    while i < |directives|
      invariant 0 <= i <= |directives|
      invariant ttl == if LastAge(directives, i).None? then HOUR else Nanos(LastAge(directives, i).value)
    {
      var age := Age(directives[i]);
      if age.Some? {
        ttl := Nanos(age.value);
      }
      i := i + 1;
    }
    r := Clamp(ttl);
  }

  lemma {:induction false} LastAgeJoin(a: seq<string>, b: seq<string>, n: nat)
    requires n <= |b|
    ensures LastAge(a + b, |a| + n) == if LastAge(b, n).Some? then LastAge(b, n) else LastAge(a, |a|)
  {
    if n > 0 {
      LastAgeJoin(a, b, n - 1);
      assert (a + b)[|a| + n - 1] == b[n - 1];
    } else {
      SameAges(a + b, a, |a|);
    }
  }

  lemma {:induction false} SameAges(s: seq<string>, a: seq<string>, n: nat)
    requires n <= |a| && a <= s
    ensures LastAge(s, n) == LastAge(a, n)
  {
    if n > 0 {
      SameAges(s, a, n - 1);
    }
  }

  predicate SaysAge(header: string) {
    LastAge(CommaFields(header), |CommaFields(header)|).Some?
  }

  /** Of several directives the last max-age that parses decides, wherever the others are. */
  lemma {:induction false} LastMaxAgeDecides(a: string, b: string)
    ensures TtlOf(a + [','] + b) == TtlOf(if SaysAge(b) then b else a)
  {
    FieldsJoin(a, b);
    LastAgeJoin(CommaFields(a), CommaFields(b), |CommaFields(b)|);
  }

  lemma {:induction false} DigitsAreDigits(n: nat)
    ensures forall i | 0 <= i < |Digits(n)| :: Digit(Digits(n)[i])
  {
    var all := DIGITS;
    forall i | 0 <= i < |Digits(n)| ensures Digit(Digits(n)[i]) {
      assert Digits(n)[i] in all;
    }
  }

  lemma {:induction false} AtoiOfDigits(digits: string, n: nat)
    requires Numeric(digits) && Value(digits) == n
    ensures Atoi(digits) == if n <= 0x7FFF_FFFF_FFFF_FFFF then Some(n) else None
  {
    assert Digit(digits[0]);
  }

  lemma {:induction false} AtoiOfPositive(s: string, digits: string, n: nat)
    requires Numeric(digits) && Value(digits) == n && s == ['+'] + digits
    ensures Atoi(s) == if n <= 0x7FFF_FFFF_FFFF_FFFF then Some(n) else None
  {
    assert s[0] == '+' && s[1..] == digits;
  }

  lemma {:induction false} AtoiOfNegative(s: string, digits: string, n: nat)
    requires Numeric(digits) && Value(digits) == n && s == ['-'] + digits
    ensures Atoi(s) == if n <= 0x8000_0000_0000_0000 then Some(0 - n) else None
  {
    assert s[0] == '-' && s[1..] == digits;
  }

  /** Printed with or without a sign, a number is read exactly when it fits 64 bits. */
  lemma {:induction false} AtoiOfSigned(n: nat)
    ensures Atoi(Digits(n)) == (if n <= 0x7FFF_FFFF_FFFF_FFFF then Some(n) else None)
    ensures Atoi(['+'] + Digits(n)) == (if n <= 0x7FFF_FFFF_FFFF_FFFF then Some(n) else None)
    ensures Atoi(['-'] + Digits(n)) == (if n <= 0x8000_0000_0000_0000 then Some(0 - n) else None)
  {
    DigitsAreDigits(n);
    DigitsRoundTrip(n);
    AtoiOfDigits(Digits(n), n);
    AtoiOfPositive(['+'] + Digits(n), Digits(n), n);
    AtoiOfNegative(['-'] + Digits(n), Digits(n), n);
  }

  /** Anything but digits after the sign is no number. */
  lemma {:induction false} AtoiRefuses(s: string, i: nat)
    requires i < |s| && !('0' <= s[i] <= '9') && (i > 0 || |s| == 1 || (s[0] != '+' && s[0] != '-'))
    ensures Atoi(s).None? && Atoi("").None?
  {
    assert i > 0 ==> s[1..][i - 1] == s[i];
    assert !Digit(s[i]);
  }

  /** White space, by code point. */
  lemma {:induction false} SpaceByCode(c: char)
    ensures Space(c) <==> c as int in {9, 10, 11, 12, 13, 32, 133, 160, 5760, 8192, 8193, 8194, 8195, 8196, 8197, 8198, 8199,
                                       8200, 8201, 8202, 8232, 8233, 8239, 8287, 12288}
  {
  }

  /** A printed number is read back. */
  lemma {:induction false} AtoiRoundTrip(n: Int64)
    ensures Atoi(Decimal(n)) == Some(n)
  {
    var m: int := if n < 0 then 0 - n else n;
    var minus := "-";
    assert minus == ['-'];
    AtoiOfSigned(m);
  }

  lemma {:induction false} AgeText(prefix: string, number: string)
    requires |prefix| == 8 && ',' !in prefix && prefix[0] == 'm'
    requires number != "" && ',' !in number && !Space(number[|number| - 1])
    ensures var s := prefix + number;
            ',' !in s && Trim(s) == s && prefix <= s && s[8..] == number
  {
    var s := prefix + number;
    assert s[|s| - 1] == number[|number| - 1];
  }

  lemma {:induction false} DecimalIsPlain(n: int)
    ensures Decimal(n) != "" && ',' !in Decimal(n) && !Space(Decimal(n)[|Decimal(n)| - 1])
  {
    var digits := Digits(if n < 0 then -n else n);
    DigitsAreDigits(if n < 0 then -n else n);
    var minus := "-";
    assert Digit(digits[|digits| - 1]);
    assert Decimal(n) == if n < 0 then minus + digits else digits;
    forall i | 0 <= i < |digits| ensures digits[i] != ',' {
      assert Digit(digits[i]);
    }
  }

  lemma {:induction false} AgeOfNumber(n: Int64)
    ensures CommaFields(MAX_AGE + Decimal(n)) == [MAX_AGE + Decimal(n)] && Age(MAX_AGE + Decimal(n)) == Some(n)
  {
    var prefix := MAX_AGE;
    assert prefix[0] == 'm' && |prefix| == 8 && ',' !in prefix;
    DecimalIsPlain(n);
    AtoiRoundTrip(n);
    AgeText(prefix, Decimal(n));
    NoComma(prefix + Decimal(n));
  }

  lemma {:induction false} TtlOfNumber(n: Int64)
    ensures TtlOf(MAX_AGE + Decimal(n)) == Clamp(Nanos(n))
  {
    AgeOfNumber(n);
    OneDirective(MAX_AGE + Decimal(n), n);
  }

  lemma {:induction false} OneDirective(d: string, n: Int64)
    requires Age(d) == Some(n) && CommaFields(d) == [d]
    ensures TtlOf(d) == Clamp(Nanos(n))
  {
    assert LastAge([d], 1) == Some(n);
  }

  lemma {:induction false} NanosFit(n: Int64)
    requires -9_223_372_036 <= n <= 9_223_372_036
    ensures Nanos(n) == n * SECOND
  {
  }

  /**
   * A max-age is honoured, within the bounds, exactly when its nanoseconds fit 64 bits or wrap around to
   * a number beyond the same bound.
   */
  lemma {:induction false} MaxAgeHonoured(n: Int64)
    ensures TtlOf(MAX_AGE + Decimal(n)) == Clamp(n * SECOND) <==>
              || -9_223_372_036 <= n <= 9_223_372_036
              || (if n > 0 then Nanos(n) >= DAY else Nanos(n) <= MINUTE)
  {
    TtlOfNumber(n);
    if -9_223_372_036 <= n <= 9_223_372_036 {
      NanosFit(n);
    }
  }

  lemma {:induction false} NanosWrap(n: Int64)
    requires 9_223_372_036 < n <= 18_446_744_073
    ensures Nanos(n) == n * SECOND - 0x1_0000_0000_0000_0000 < 0
  {
  }

  /** Ages between some 292 and 584 years give the least time instead of the most. */
  lemma {:induction false} HugeMaxAgeWraps(n: Int64)
    requires 9_223_372_036 < n <= 18_446_744_073
    ensures TtlOf(MAX_AGE + Decimal(n)) == MINUTE && Clamp(n * SECOND) == DAY
  {
    TtlOfNumber(n);
    NanosWrap(n);
  }

  // ---------------------------------------------------------------- whole headers

  predicate AllSpace(s: string) {
    forall i | 0 <= i < |s| :: Space(s[i])
  }

  lemma {:induction false} TrimTail(s: string, after: string)
    requires s != "" && !Space(s[0]) && !Space(s[|s| - 1]) && AllSpace(after)
    ensures Trim(s + after) == s
  {
    if after == "" {
      assert s + after == s;
    } else {
      var less := after[..|after| - 1];
      assert (s + after)[..|s + after| - 1] == s + less;
      TrimTail(s, less);
    }
  }

  /** White space around a directive does not matter. */
  lemma {:induction false} TrimPadded(before: string, s: string, after: string)
    requires s != "" && !Space(s[0]) && !Space(s[|s| - 1]) && AllSpace(before) && AllSpace(after)
    ensures Trim(before + s + after) == s
  {
    if before == "" {
      assert before + s + after == s + after;
      TrimTail(s, after);
    } else {
      assert (before + s + after)[1..] == before[1..] + s + after;
      TrimPadded(before[1..], s, after);
    }
  }

  lemma {:induction false} PaddedAge(before: string, n: Int64, after: string)
    requires AllSpace(before) && AllSpace(after)
    ensures Age(before + (MAX_AGE + Decimal(n)) + after) == Some(n)
  {
    var prefix, number := MAX_AGE, Decimal(n);
    assert prefix[0] == 'm' && |prefix| == 8 && ',' !in prefix;
    DecimalIsPlain(n);
    AgeText(prefix, number);
    AtoiRoundTrip(n);
    assert (prefix + number)[|prefix + number| - 1] == number[|number| - 1];
    TrimPadded(before, prefix + number, after);
  }

  lemma {:induction false} TrimKeeps(s: string, c: char)
    requires c !in s
    ensures c !in Trim(s)
  {
    if s != "" && Space(s[0]) {
      TrimKeeps(s[1..], c);
    } else if s != "" && Space(s[|s| - 1]) {
      TrimKeeps(s[..|s| - 1], c);
    }
  }

  lemma {:induction false} FieldsKeep(s: string, c: char)
    requires c !in s
    ensures forall i | 0 <= i < |CommaFields(s)| :: c !in CommaFields(s)[i]
    decreases |s|
  {
    var k := CommaAt(s);
    if k < |s| {
      FieldsKeep(s[k + 1..], c);
    }
  }

  lemma {:induction false} NoAgeIn(fields: seq<string>, n: nat)
    requires n <= |fields| && forall i | 0 <= i < |fields| :: '=' !in fields[i]
    ensures LastAge(fields, n).None?
  {
    if n > 0 {
      NoAgeIn(fields, n - 1);
      TrimKeeps(fields[n - 1], '=');
      var prefix := MAX_AGE;
      assert prefix[7] == '=';
    }
  }

  /** A header that names no age, not having a single equals sign, gives one hour. */
  lemma {:induction false} NoAgeGivesAnHour(header: string)
    requires '=' !in header
    ensures !SaysAge(header) && TtlOf(header) == 3_600_000_000_000
  {
    FieldsKeep(header, '=');
    NoAgeIn(CommaFields(header), |CommaFields(header)|);
  }

  lemma {:induction false} PaddedHeader(before: string, n: Int64, after: string)
    requires AllSpace(before) && AllSpace(after)
    ensures SaysAge(before + (MAX_AGE + Decimal(n)) + after)
    ensures TtlOf(before + (MAX_AGE + Decimal(n)) + after) == TtlOf(MAX_AGE + Decimal(n))
  {
    var d := before + (MAX_AGE + Decimal(n)) + after;
    PaddedAge(before, n, after);
    assert ',' !in d by {
      var prefix := MAX_AGE;
      assert ',' !in prefix;
      DecimalIsPlain(n);
    }
    NoComma(d);
    assert LastAge([d], 1) == Some(n);
    TtlOfNumber(n);
  }

  /** A max-age counts wherever it stands in the header and whatever white space is around it. */
  lemma {:induction false} AgeAnywhere(a: string, before: string, n: Int64, after: string, b: string)
    requires AllSpace(before) && AllSpace(after) && '=' !in b
    ensures TtlOf(a + [','] + (before + (MAX_AGE + Decimal(n)) + after) + [','] + b) == TtlOf(MAX_AGE + Decimal(n))
  {
    var d := before + (MAX_AGE + Decimal(n)) + after;
    PaddedHeader(before, n, after);
    NoAgeGivesAnHour(b);
    LastMaxAgeDecides(a + [','] + d, b);
    LastMaxAgeDecides(a, d);
  }

  /** What the token issuer sends, for every age: the seconds asked for, no less than a minute and no more than a day. */
  lemma {:induction false} TypicalHeader(n: Int64)
    requires -9_223_372_036 <= n <= 9_223_372_036
    ensures TtlOf("public, max-age=" + Decimal(n) + ", must-revalidate")
            == if n < 60 then 60_000_000_000 else if n > 86_400 then 86_400_000_000_000 else n * 1_000_000_000
  {
    AnyTypicalHeader(n);
    TtlOfNumber(n);
    NanosFit(n);
  }

  lemma {:induction false} AnyTypicalHeader(n: Int64)
    ensures TtlOf("public, max-age=" + Decimal(n) + ", must-revalidate") == TtlOf(MAX_AGE + Decimal(n))
  {
    var b := " must-revalidate";
    assert '=' !in b;
    var space := " ";
    assert AllSpace(space) && AllSpace("");
    AgeAnywhere("public", space, n, "", b);
    var d := space + (MAX_AGE + Decimal(n)) + "";
    HeaderText(Decimal(n), d);
  }

  lemma {:induction false} HeaderText(number: string, d: string)
    requires d == " " + (MAX_AGE + number) + ""
    ensures "public, max-age=" + number + ", must-revalidate" == "public" + [','] + d + [','] + " must-revalidate"
  {
    var whole, head, tail := "public, max-age=", "public", ", must-revalidate";
    assert whole == head + [','] + " " + MAX_AGE;
    assert tail == [','] + " must-revalidate";
    assert whole + number == head + [','] + d;
  }

  // ---------------------------------------------------------------- the cache

  /** Keys by key id; what a key is does not matter here. */
  type Keys = map<string, nat>

  datatype Cache = Cache(keys: Option<Keys>, fetchedAt: int, expiresAt: int)

  const FRESH := Cache(None, 0, 0)

  /** A fetch fails, or brings the usable keys of the response and its Cache-Control header. */
  datatype Response = FetchFailed | Fetched(keys: Keys, cacheControl: string)

  datatype Call = Call(kid: string, now: int, response: Response)

  /** The key served without a fetch. */
  function Held(c: Cache, kid: string, now: int): Option<nat> {
    if c.keys.Some? && kid in c.keys.value && now < c.expiresAt then Some(c.keys.value[kid]) else None
  }

  /** A call fetches when it finds no live key and the set is missing, expired or a minute old. */
  predicate Fetches(c: Cache, call: Call) {
    Held(c, call.kid, call.now).None? &&
    (c.keys.None? || call.now >= c.expiresAt || call.now - c.fetchedAt >= MINUTE)
  }

  predicate Usable(r: Response) {
    r.Fetched? && r.keys != map[]
  }

  predicate Refreshes(c: Cache, call: Call) {
    Fetches(c, call) && Usable(call.response)
  }

  function After(c: Cache, call: Call): Cache {
    if Refreshes(c, call)
    then Cache(Some(call.response.keys), call.now, call.now + TtlOf(call.response.cacheControl))
    else c
  }

  function Served(c: Cache, call: Call): Option<nat> {
    var held, c' := Held(c, call.kid, call.now), After(c, call);
    if held.Some? then held
    else if Fetches(c, call) && !Usable(call.response) then None
    else if c'.keys.Some? && call.kid in c'.keys.value then Some(c'.keys.value[call.kid])
    else None
  }

  class FirebaseVerifier {
    var keys: Option<Keys>
    var fetchedAt: int
    var expiresAt: int

    constructor ()
      ensures State() == FRESH
    {
      keys, fetchedAt, expiresAt := None, 0, 0;
    }

    ghost function State(): Cache
      reads this
    {
      Cache(keys, fetchedAt, expiresAt)
    }

    method RefreshLocked(now: int, response: Response) returns (ok: bool)
      modifies this
      ensures ok == Usable(response)
      ensures State() == if ok then Cache(Some(response.keys), now, now + TtlOf(response.cacheControl))
                         else old(State())
    {
      if response.FetchFailed? || response.keys == map[] {
        return false;
      }
      var ttl := KeyTTL(response.cacheControl);
      keys, fetchedAt, expiresAt := Some(response.keys), now, now + ttl;
      return true;
    }

    /** The held key when it is live. */
    method Lookup(kid: string, now: int) returns (r: Option<nat>)
      ensures r == Held(State(), kid, now)
    {
      if keys.Some? && kid in keys.value && now < expiresAt {
        return Some(keys.value[kid]);
      }
      return None;
    }

    /** When the fetch fails, what is held is looked up again, and never found. */
    method Key(kid: string, now: int, response: Response) returns (r: Option<nat>)
      modifies this
      ensures State() == After(old(State()), Call(kid, now, response))
      ensures r == Served(old(State()), Call(kid, now, response))
      ensures Fetches(old(State()), Call(kid, now, response)) && !Usable(response) ==> r == None
    {
      r := Lookup(kid, now);
      if r.Some? {
        return r;
      }
      if keys.None? || now >= expiresAt || now - fetchedAt >= MINUTE {
        var ok := RefreshLocked(now, response);
        if !ok {
          r := Lookup(kid, now);
          return r;
        }
      }
      if keys.Some? && kid in keys.value {
        return Some(keys.value[kid]);
      }
      return None;
    }
  }

  /** Serving held keys while a fetch fails never happens: a live key is served before any fetch. */
  lemma {:induction false} FallbackIsDead(c: Cache, call: Call)
    requires Fetches(c, call) && !Usable(call.response)
    ensures Held(After(c, call), call.kid, call.now) == None && Served(c, call) == None
  {
  }

  // ---------------------------------------------------------------- whole runs

  function Run(c: Cache, calls: seq<Call>, n: nat): Cache
    requires n <= |calls|
  {
    if n == 0 then c else After(Run(c, calls, n - 1), calls[n - 1])
  }

  /** Call k refreshes the set. */
  predicate RefreshAt(calls: seq<Call>, k: nat) {
    k < |calls| && Refreshes(Run(FRESH, calls, k), calls[k])
  }

  /** The clock readings of the first n calls' refreshes. */
  function RefreshTimes(calls: seq<Call>, n: nat): seq<int>
    requires n <= |calls|
  {
    if n == 0 then []
    else if RefreshAt(calls, n - 1) then RefreshTimes(calls, n - 1) + [calls[n - 1].now]
    else RefreshTimes(calls, n - 1)
  }

  /** The response of the last refresh among the first n calls. */
  function LatestFetch(calls: seq<Call>, n: nat): Option<Call>
    requires n <= |calls|
  {
    if n == 0 then None
    else if RefreshAt(calls, n - 1) then Some(calls[n - 1])
    else LatestFetch(calls, n - 1)
  }

  predicate Lasts(c: Cache) {
    c.keys.Some? ==> c.keys.value != map[] && MINUTE <= c.expiresAt - c.fetchedAt <= DAY
  }

  /** What the cache holds is the set that the latest refresh fetched, for as long as its header allowed. */
  lemma {:induction false} HoldsLatestFetch(calls: seq<Call>, n: nat)
    requires n <= |calls|
    ensures Lasts(Run(FRESH, calls, n))
    ensures match LatestFetch(calls, n)
            case None => Run(FRESH, calls, n) == FRESH
            case Some(f) => Usable(f.response) && Run(FRESH, calls, n)
                              == Cache(Some(f.response.keys), f.now, f.now + TtlOf(f.response.cacheControl))
  {
    if n > 0 {
      HoldsLatestFetch(calls, n - 1);
    }
  }

  /** A served key is one the latest refresh fetched, and its set is younger than its time to live. */
  lemma {:induction false} ServedIsFresh(calls: seq<Call>, k: nat)
    requires k < |calls| && Served(Run(FRESH, calls, k), calls[k]).Some?
    ensures var f := LatestFetch(calls, k + 1);
            && f.Some? && f.value.response.Fetched?
            && calls[k].kid in f.value.response.keys
            && Served(Run(FRESH, calls, k), calls[k]) == Some(f.value.response.keys[calls[k].kid])
            && calls[k].now - f.value.now < TtlOf(f.value.response.cacheControl) <= DAY
  {
    HoldsLatestFetch(calls, k);
    HoldsLatestFetch(calls, k + 1);
  }

  /**
   * A key of the latest fetched set is served while the clock is before the fetch plus its time to live, by
   * no request at all: whatever the response would be, the answer and the cache are the same.
   */
  lemma {:induction false} LiveKeyIsServed(calls: seq<Call>, k: nat, call: Call)
    requires k <= |calls| && LatestFetch(calls, k).Some?
    requires var f := LatestFetch(calls, k).value;
             f.response.Fetched? && call.kid in f.response.keys && call.now < f.now + TtlOf(f.response.cacheControl)
    ensures var c, f := Run(FRESH, calls, k), LatestFetch(calls, k).value;
            && Served(c, call) == Some(f.response.keys[call.kid])
            && !Fetches(c, call) && After(c, call) == c
  {
    HoldsLatestFetch(calls, k);
  }

  /** A key is served exactly when it is held and live, or when this very call fetches a set that has it. */
  lemma {:induction false} ServedExactly(calls: seq<Call>, k: nat, call: Call)
    requires k <= |calls|
    ensures var c := Run(FRESH, calls, k);
            var live := c.keys.Some? && call.now < c.expiresAt && call.kid in c.keys.value;
            && (live ==> Served(c, call) == Some(c.keys.value[call.kid]))
            && (!live && Refreshes(c, call) && call.kid in call.response.keys ==>
                  Served(c, call) == Some(call.response.keys[call.kid]))
            && (!live && !(Refreshes(c, call) && call.kid in call.response.keys) ==> Served(c, call).None?)
  {
  }

  /** A refresh comes at least a minute after the one before it. */
  lemma {:induction false} RefreshesApart(calls: seq<Call>, n: nat)
    requires n <= |calls|
    ensures var times := RefreshTimes(calls, n);
            && (times == [] <==> Run(FRESH, calls, n).keys.None?)
            && (times != [] ==> Run(FRESH, calls, n).fetchedAt == times[|times| - 1])
            && forall i, j | 0 <= i < j < |times| :: times[j] - times[i] >= MINUTE
  {
    if n > 0 {
      RefreshesApart(calls, n - 1);
      HoldsLatestFetch(calls, n - 1);
    }
  }

  /** For any clock readings, refreshes i and j are at least j - i minutes apart. */
  lemma {:induction false} RefreshRate(calls: seq<Call>, n: nat, i: nat, j: nat)
    requires n <= |calls| && i < j < |RefreshTimes(calls, n)|
    ensures RefreshTimes(calls, n)[j] - RefreshTimes(calls, n)[i] >= (j - i) * MINUTE
  {
    RefreshesApart(calls, n);
    if i < j - 1 {
      RefreshRate(calls, n, i, j - 1);
    }
  }

  /**
   * When the next call fetches: after a call that fetched, on a clock that has not gone back, a call whose
   * key id the cache does not hold sends a request exactly when that fetch failed or is a minute ago.
   */
  lemma {:induction false} NextFetch(calls: seq<Call>, k: nat)
    requires k + 1 < |calls| && Fetches(Run(FRESH, calls, k), calls[k]) && calls[k].now <= calls[k + 1].now
    requires var keys := Run(FRESH, calls, k + 1).keys; keys.Some? ==> calls[k + 1].kid !in keys.value
    ensures Fetches(Run(FRESH, calls, k + 1), calls[k + 1]) <==>
              !Usable(calls[k].response) || calls[k + 1].now - calls[k].now >= MINUTE
  {
    HoldsLatestFetch(calls, k);
  }

  /** A fetch, successful or not, comes at least a minute after the latest refresh. */
  lemma {:induction false} FetchAfterRefresh(calls: seq<Call>, k: nat)
    requires k < |calls| && Fetches(Run(FRESH, calls, k), calls[k])
    ensures LatestFetch(calls, k).Some? ==> calls[k].now - LatestFetch(calls, k).value.now >= MINUTE
  {
    HoldsLatestFetch(calls, k);
  }

  /**
   * Failed fetches are not rationed: once the set is a minute old, each of any number of calls with
   * unknown key ids sends a request while requests fail, even all at the same instant.
   */
  lemma {:induction false} FailedFetchesAreNotBounded(c: Cache, calls: seq<Call>, n: nat)
    requires n <= |calls|
    requires forall k | 0 <= k < |calls| ::
               && !Usable(calls[k].response) && calls[k].now - c.fetchedAt >= MINUTE
               && (c.keys.Some? ==> calls[k].kid !in c.keys.value)
    ensures Run(c, calls, n) == c
    ensures n < |calls| ==> Fetches(Run(c, calls, n), calls[n])
  {
    if n > 0 {
      FailedFetchesAreNotBounded(c, calls, n - 1);
    }
  }
}
