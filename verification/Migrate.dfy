/** Numbered schema migrations: loading the files in order, applying the pending ones, reverting the latest. */
module Migrate {
  import opened Results

  datatype Migration = Migration(version: int, name: string, up: string, down: string)

  datatype ScriptKind = UpSql | DownSql | NeitherSql

  /** A directory entry: not an .sql file, one whose name does not parse, or one that does. */
  datatype DirEntry = Other | Malformed | Sql(version: int, name: string, kind: ScriptKind, body: string)

  // ---------------------------------------------------------------- loading

  predicate Fine(e: DirEntry) {
    e.Other? || (e.Sql? && e.kind != NeitherSql)
  }

  function Versions(entries: seq<DirEntry>): set<int> {
    set e | e in entries && e.Sql? :: e.version
  }

  /** The body of the last file of this version and kind, "" when there is none. */
  function Body(entries: seq<DirEntry>, version: int, kind: ScriptKind): string {
    if entries == [] then ""
    else
      var last := entries[|entries| - 1];
      if last.Sql? && last.version == version && last.kind == kind then last.body
      else Body(entries[..|entries| - 1], version, kind)
  }

  /** The name in the first file of this version. */
  function Name(entries: seq<DirEntry>, version: int): string {
    if entries == [] then ""
    else
      var front, last := entries[..|entries| - 1], entries[|entries| - 1];
      if version in Versions(front) || !last.Sql? || last.version != version then Name(front, version) else last.name
  }

  function MigrationOf(entries: seq<DirEntry>, version: int): Migration {
    Migration(version, Name(entries, version), Body(entries, version, UpSql), Body(entries, version, DownSql))
  }

  /** Entry k is a file of this version; of this kind, the last one; of any kind, the first one. */
  predicate FileOf(entries: seq<DirEntry>, version: int, k: nat) {
    k < |entries| && entries[k].Sql? && entries[k].version == version
  }

  predicate LastFile(entries: seq<DirEntry>, version: int, kind: ScriptKind, k: nat) {
    && FileOf(entries, version, k) && entries[k].kind == kind
    && forall j: nat | k < j < |entries| && FileOf(entries, version, j) :: entries[j].kind != kind
  }

  lemma {:induction false} BodyIs(entries: seq<DirEntry>, version: int, kind: ScriptKind, k: nat)
    requires LastFile(entries, version, kind, k)
    ensures Body(entries, version, kind) == entries[k].body
  {
    var n := |entries| - 1;
    if k < n {
      var front := entries[..n];
      assert FileOf(entries, version, n) ==> entries[n].kind != kind;
      forall j: nat | k < j < n && FileOf(front, version, j) ensures front[j].kind != kind {
        assert FileOf(entries, version, j);
      }
      BodyIs(front, version, kind, k);
    }
  }

  lemma {:induction false} NoBody(entries: seq<DirEntry>, version: int, kind: ScriptKind)
    requires forall k: nat | FileOf(entries, version, k) :: entries[k].kind != kind
    ensures Body(entries, version, kind) == ""
  {
    if entries != [] {
      var n := |entries| - 1;
      var front := entries[..n];
      assert FileOf(entries, version, n) ==> entries[n].kind != kind;
      forall j: nat | FileOf(front, version, j) ensures front[j].kind != kind {
        assert FileOf(entries, version, j);
      }
      NoBody(front, version, kind);
    }
  }

  lemma {:induction false} NameIs(entries: seq<DirEntry>, version: int, k: nat)
    requires FileOf(entries, version, k) && forall j: nat | j < k :: !FileOf(entries, version, j)
    ensures Name(entries, version) == entries[k].name
  {
    var n := |entries| - 1;
    var front := entries[..n];
    if k < n {
      assert front[k] in front && version in Versions(front);
      forall j: nat | j < k ensures !FileOf(front, version, j) {
        assert !FileOf(entries, version, j);
      }
      NameIs(front, version, k);
    } else if version in Versions(front) {
      var e :| e in front && e.Sql? && e.version == version;
      var j: nat :| j < |front| && front[j] == e;
      assert FileOf(entries, version, j);
    }
  }

  /**
   * A version's scripts are the bodies of its last up file and its last down file, empty without one; its name
   * is that of its first file.
   */
  lemma {:induction false} MigrationIs(entries: seq<DirEntry>, version: int, up: nat, down: nat, first: nat)
    requires LastFile(entries, version, UpSql, up)
    requires FileOf(entries, version, first) && forall j: nat | j < first :: !FileOf(entries, version, j)
    ensures var m := MigrationOf(entries, version);
            && m.version == version && m.name == entries[first].name && m.up == entries[up].body
            && (LastFile(entries, version, DownSql, down) ==> m.down == entries[down].body)
            && ((forall k: nat | FileOf(entries, version, k) :: entries[k].kind != DownSql) ==> m.down == "")
  {
    BodyIs(entries, version, UpSql, up);
    if LastFile(entries, version, DownSql, down) {
      BodyIs(entries, version, DownSql, down);
    } else if forall k: nat | FileOf(entries, version, k) :: entries[k].kind != DownSql {
      NoBody(entries, version, DownSql);
    }
    NameIs(entries, version, first);
  }

  predicate Ascending(all: seq<Migration>) {
    forall i, j | 0 <= i < j < |all| :: all[i].version < all[j].version
  }

  function InsertByVersion(m: Migration, all: seq<Migration>): seq<Migration> {
    if all == [] || m.version <= all[0].version then [m] + all else [all[0]] + InsertByVersion(m, all[1..])
  }

  function SortByVersion(all: seq<Migration>): seq<Migration> {
    if all == [] then [] else InsertByVersion(all[0], SortByVersion(all[1..]))
  }

  lemma {:induction false} InsertKeeps(m: Migration, all: seq<Migration>)
    requires Ascending(all) && forall x | x in all :: x.version != m.version
    ensures Ascending(InsertByVersion(m, all))
    ensures forall x :: x in InsertByVersion(m, all) <==> x == m || x in all
  {
    if all != [] && m.version > all[0].version {
      InsertKeeps(m, all[1..]);
      assert all == [all[0]] + all[1..];
      var rest := InsertByVersion(m, all[1..]);
      forall j | 0 <= j < |rest| ensures all[0].version < rest[j].version {
        assert rest[j] == m || rest[j] in all[1..];
      }
    }
  }

  lemma {:induction false} SortKeeps(all: seq<Migration>)
    requires forall i, j | 0 <= i < j < |all| :: all[i].version != all[j].version
    ensures Ascending(SortByVersion(all))
    ensures forall x :: x in SortByVersion(all) <==> x in all
  {
    if all != [] {
      SortKeeps(all[1..]);
      assert all == [all[0]] + all[1..];
      InsertKeeps(all[0], SortByVersion(all[1..]));
    }
  }

  /** Reads one file into the migrations found so far. */
  method AddFile(byVersion: map<int, Migration>, ghost seen: seq<DirEntry>, e: DirEntry)
    returns (r: map<int, Migration>)
    requires e.Sql? && e.kind != NeitherSql
    requires byVersion == map v | v in Versions(seen) :: MigrationOf(seen, v)
    ensures r == map v | v in Versions(seen + [e]) :: MigrationOf(seen + [e], v)
  {
    var m := if e.version in byVersion then byVersion[e.version] else Migration(e.version, e.name, "", "");
    m := if e.kind == UpSql then m.(up := e.body) else m.(down := e.body);
    r := byVersion[e.version := m];
    assert (seen + [e])[..|seen|] == seen;
    assert Versions(seen + [e]) == Versions(seen) + {e.version};
    NoFileNoBody(seen, e.version);
    assert m == MigrationOf(seen + [e], e.version);
  }

  lemma {:induction false} NoFileNoBody(entries: seq<DirEntry>, version: int)
    ensures version !in Versions(entries) ==> Body(entries, version, UpSql) == "" == Body(entries, version, DownSql)
  {
    if entries != [] {
      var front := entries[..|entries| - 1];
      NoFileNoBody(front, version);
      assert Versions(front) <= Versions(entries);
    }
  }

  /** Every version needs an up script that is not empty, and every .sql name has to parse. */
  predicate Loadable(entries: seq<DirEntry>) {
    && (forall e | e in entries :: Fine(e))
    && (forall v | v in Versions(entries) :: Body(entries, v, UpSql) != "")
  }

  method LoadMigrations(entries: seq<DirEntry>) returns (r: Option<seq<Migration>>)
    ensures r.Some? <==> Loadable(entries)
    ensures r.Some? ==> Ascending(r.value)
    ensures r.Some? ==> forall m ::
              m in r.value <==> m.version in Versions(entries) && m == MigrationOf(entries, m.version)
  {
    var byVersion: map<int, Migration> := map[];
    var i := 0;
    while i < |entries|
      invariant 0 <= i <= |entries|
      invariant forall k | 0 <= k < i :: Fine(entries[k])
      invariant byVersion == map v | v in Versions(entries[..i]) :: MigrationOf(entries[..i], v)
    {
      var e := entries[i];
      if e.Malformed? || (e.Sql? && e.kind == NeitherSql) {
        assert !Fine(e) && e in entries;
        return None;
      }
      assert entries[..i + 1] == entries[..i] + [e];
      if e.Sql? {
        byVersion := AddFile(byVersion, entries[..i], e);
      } else {
        SkipFile(entries[..i], e);
      }
      i := i + 1;
    }
    assert entries[..i] == entries;
    r := Collect(byVersion);
    if r.Some? {
      forall v | v in Versions(entries) ensures Body(entries, v, UpSql) != "" {
        assert byVersion[v].up != "";
      }
    }
  }

  lemma {:induction false} SkipFile(seen: seq<DirEntry>, e: DirEntry)
    requires e.Other?
    ensures Versions(seen + [e]) == Versions(seen)
    ensures forall v :: MigrationOf(seen + [e], v) == MigrationOf(seen, v)
  {
    assert (seen + [e])[..|seen|] == seen;
  }

  lemma {:induction false} SomeMember(s: set<int>)
    ensures s == {} || exists v :: v in s
  {
    if forall v :: v !in s {
      assert s == {};
    }
  }

  /** The migrations in order of version, unless one has no up script. */
  method Collect(byVersion: map<int, Migration>) returns (r: Option<seq<Migration>>)
    requires forall v | v in byVersion :: byVersion[v].version == v
    ensures r.Some? <==> forall v | v in byVersion :: byVersion[v].up != ""
    ensures r.Some? ==> Ascending(r.value)
    ensures r.Some? ==> forall m :: m in r.value <==> m.version in byVersion && byVersion[m.version] == m
  {
    var out: seq<Migration> := [];
    var todo := byVersion.Keys;
    while todo != {}
      invariant todo <= byVersion.Keys
      invariant forall v | v in byVersion && v !in todo :: byVersion[v].up != ""
      invariant forall m :: m in out <==> m.version in byVersion && m.version !in todo && byVersion[m.version] == m
      invariant forall i, j | 0 <= i < j < |out| :: out[i].version != out[j].version
      decreases todo
    {
      SomeMember(todo);
      var v :| v in todo;
      if byVersion[v].up == "" {
        return None;
      }
      forall k | 0 <= k < |out| ensures out[k].version != v {
        assert out[k] in out;
      }
      out := out + [byVersion[v]];
      todo := todo - {v};
    }
    SortKeeps(out);
    return Some(SortByVersion(out));
  }

  // ---------------------------------------------------------------- applying and reverting

  /** The schema, and the versions recorded in schema_migrations. */
  datatype Db<S> = Db(schema: S, applied: set<int>)

  datatype Outcome<S> = Outcome(db: Db<S>, ok: bool)

  /** What a script does to a schema, None when it fails; `fault` is any other error before the commit. */
  type Exec<!S> = (string, S) -> Option<S>

  /** One migration in its own transaction: the script, then the row, or neither. */
  function Apply<S>(exec: Exec<S>, db: Db<S>, m: Migration, fault: bool): Outcome<S> {
    var s := exec(m.up, db.schema);
    if fault || s.None? || m.version in db.applied then Outcome(db, false)
    else Outcome(Db(s.value, db.applied + {m.version}), true)
  }

  function Revert<S>(exec: Exec<S>, db: Db<S>, m: Migration, fault: bool): Outcome<S> {
    var s := exec(m.down, db.schema);
    if fault || s.None? then Outcome(db, false) else Outcome(Db(s.value, db.applied - {m.version}), true)
  }

  /** `up` over the first n migrations; `seen` are the versions applied before it began. */
  function UpTo<S>(exec: Exec<S>, db: Db<S>, seen: set<int>, all: seq<Migration>, n: nat,
                   fault: int -> bool): Outcome<S>
    requires n <= |all|
  {
    if n == 0 then Outcome(db, true)
    else
      var o := UpTo(exec, db, seen, all, n - 1, fault);
      if !o.ok || all[n - 1].version in seen then o else Apply(exec, o.db, all[n - 1], fault(all[n - 1].version))
  }

  function Up<S>(exec: Exec<S>, db: Db<S>, all: seq<Migration>, fault: int -> bool): Outcome<S> {
    UpTo(exec, db, db.applied, all, |all|, fault)
  }

  predicate IsLatest(applied: set<int>, v: int) {
    v in applied && forall w | w in applied :: w <= v
  }

  /** The place of a version in the list, |all| when its files are missing. */
  function Place(all: seq<Migration>, version: int): (k: nat)
    ensures k <= |all| && (k < |all| ==> all[k].version == version)
    ensures forall i | 0 <= i < k :: all[i].version != version
  {
    if all == [] then 0 else if all[0].version == version then 0 else 1 + Place(all[1..], version)
  }

  /** `down` when `latest` is the last applied version. */
  function Down<S>(exec: Exec<S>, db: Db<S>, all: seq<Migration>, latest: int, fault: bool): Outcome<S> {
    var k := Place(all, latest);
    if k == |all| || all[k].down == "" then Outcome(db, false) else Revert(exec, db, all[k], fault)
  }

  class Connection<S> {
    var schema: S
    var applied: set<int>
    const exec: Exec<S>

    constructor (schema: S, applied: set<int>, exec: Exec<S>)
      ensures this.schema == schema && this.applied == applied && this.exec == exec
    {
      this.schema, this.applied, this.exec := schema, applied, exec;
    }

    function Current(): Db<S>
      reads this
    {
      Db(schema, applied)
    }

    /** Runs a script and changes the row of its version, and undoes both when anything fails. */
    method InTx(script: string, version: int, insert: bool, fault: bool) returns (ok: bool)
      modifies this
      ensures var s := exec(script, old(schema));
              && ok == (!fault && s.Some? && !(insert && version in old(applied)))
              && schema == (if ok then s.value else old(schema))
              && applied == (if !ok then old(applied)
                          else if insert then old(applied) + {version} else old(applied) - {version})
    {
      var before, rows := schema, applied;
      var s := exec(script, schema);
      if s.None? {
        return false;
      }
      schema := s.value;
      if (insert && version in applied) || fault {
        schema, applied := before, rows;
        return false;
      }
      applied := if insert then applied + {version} else applied - {version};
      return true;
    }

    method MigrateUp(all: seq<Migration>, listRead: bool, fault: int -> bool) returns (ok: bool)
      modifies this
      ensures !listRead ==> !ok && Current() == old(Current())
      ensures listRead ==> Outcome(Current(), ok) == Up(exec, old(Current()), all, fault)
    {
      if !listRead {
        return false;
      }
      var seen := applied;
      var i := 0;
      while i < |all|
        invariant 0 <= i <= |all|
        invariant Outcome(Current(), true) == UpTo(exec, old(Current()), seen, all, i, fault)
      {
        if all[i].version !in seen {
          var done := InTx(all[i].up, all[i].version, true, fault(all[i].version));
          if !done {
            StopsAt(exec, old(Current()), seen, all, i + 1, fault);
            return false;
          }
        }
        i := i + 1;
      }
      return true;
    }

    method MigrateDown(all: seq<Migration>, listRead: bool, fault: bool) returns (ok: bool)
      modifies this
      ensures !listRead ==> !ok && Current() == old(Current())
      ensures listRead && old(applied) == {} ==> ok && Current() == old(Current())
      ensures forall latest | listRead && IsLatest(old(applied), latest) ::
                Outcome(Current(), ok) == Down(exec, old(Current()), all, latest, fault)
    {
      if !listRead {
        return false;
      }
      if applied == {} {
        return true;
      }
      HasLatest(applied);
      var latest :| IsLatest(applied, latest);
      var i := 0;
      while i < |all| && all[i].version != latest
        invariant 0 <= i <= |all|
        invariant forall j | 0 <= j < i :: all[j].version != latest
      {
        i := i + 1;
      }
      if i == |all| || all[i].down == "" {
        return false;
      }
      ok := InTx(all[i].down, latest, false, fault);
    }
  }

  lemma {:induction false} HasLatest(applied: set<int>)
    requires applied != {}
    ensures exists v :: IsLatest(applied, v)
    decreases |applied|
  {
    SomeMember(applied);
    var v :| v in applied;
    var rest := applied - {v};
    var best := v;
    if rest != {} {
      HasLatest(rest);
      var w :| IsLatest(rest, w);
      best := if v < w then w else v;
    }
    forall x | x in applied ensures x <= best {
      assert x == v || x in rest;
    }
    assert IsLatest(applied, best);
  }

  /** A failed migration is the last one touched. */
  lemma {:induction false} StopsAt<S>(exec: Exec<S>, db: Db<S>, seen: set<int>, all: seq<Migration>, n: nat,
                                      fault: int -> bool)
    requires n <= |all| && !UpTo(exec, db, seen, all, n, fault).ok
    ensures UpTo(exec, db, seen, all, |all|, fault) == UpTo(exec, db, seen, all, n, fault)
    decreases |all| - n
  {
    if n < |all| {
      StopsAt(exec, db, seen, all, n + 1, fault);
    }
  }

  // ---------------------------------------------------------------- whole runs

  function VersionsOf(all: seq<Migration>, n: nat): set<int>
    requires n <= |all|
  {
    set i | 0 <= i < n :: all[i].version
  }

  /** The schema after the first n up scripts. */
  function Fold<S>(exec: Exec<S>, base: S, all: seq<Migration>, n: nat): Option<S>
    requires n <= |all|
  {
    if n == 0 then Some(base)
    else
      var s := Fold(exec, base, all, n - 1);
      if s.None? then None else exec(all[n - 1].up, s.value)
  }

  /** Each down script, where it does not fail, takes back what its up script did. */
  ghost predicate DownsInvert<S(!new)>(exec: Exec<S>, all: seq<Migration>) {
    forall i, s | 0 <= i < |all| && exec(all[i].up, s).Some? ::
      var back := exec(all[i].down, exec(all[i].up, s).value);
      back == None || back == Some(s)
  }

  ghost predicate AtPrefix<S(!new)>(exec: Exec<S>, base: S, all: seq<Migration>, db: Db<S>, k: nat) {
    && k <= |all|
    && db.applied == VersionsOf(all, k)
    && (DownsInvert(exec, all) ==> Fold(exec, base, all, k) == Some(db.schema))
  }

  /** `up` skips what is applied and goes on from there. */
  lemma {:induction false} UpToGoesOn<S(!new)>(exec: Exec<S>, base: S, db: Db<S>, all: seq<Migration>, n: nat, k: nat,
                                              fault: int -> bool)
    returns (j: nat)
    requires Ascending(all) && n <= |all| && AtPrefix(exec, base, all, db, k)
    ensures var o := UpTo(exec, db, db.applied, all, n, fault);
            && k <= j && AtPrefix(exec, base, all, o.db, j)
            && (o.ok ==> j == if n <= k then k else n)
            && (!o.ok ==> j < n && (fault(all[j].version) || exec(all[j].up, o.db.schema).None?))
  {
    if n == 0 {
      return k;
    }
    j := UpToGoesOn(exec, base, db, all, n - 1, k, fault);
    var o := UpTo(exec, db, db.applied, all, n - 1, fault);
    if n <= k {
      assert all[n - 1].version in VersionsOf(all, k);
    } else if o.ok {
      NotYetApplied(all, k, n - 1);
      NotYetApplied(all, n - 1, n - 1);
      if UpTo(exec, db, db.applied, all, n, fault).ok {
        assert VersionsOf(all, n) == VersionsOf(all, n - 1) + {all[n - 1].version};
        j := n;
      }
    }
  }

  lemma {:induction false} NotYetApplied(all: seq<Migration>, k: nat, n: nat)
    requires Ascending(all) && k <= n < |all|
    ensures all[n].version !in VersionsOf(all, k)
  {
  }

  /** On a prefix, the latest applied version is the prefix's last. */
  lemma {:induction false} LatestOfPrefix(all: seq<Migration>, k: nat, latest: int)
    requires Ascending(all) && 0 < k <= |all| && IsLatest(VersionsOf(all, k), latest)
    ensures Place(all, latest) == k - 1 && VersionsOf(all, k - 1) == VersionsOf(all, k) - {latest}
  {
    assert all[k - 1].version in VersionsOf(all, k);
    var i :| 0 <= i < k && all[i].version == latest;
    assert i == k - 1;
  }

  lemma {:induction false} DownGoesBack<S(!new)>(exec: Exec<S>, base: S, db: Db<S>, all: seq<Migration>, k: nat,
                                                 latest: int, fault: bool)
    requires Ascending(all) && AtPrefix(exec, base, all, db, k) && IsLatest(db.applied, latest)
    ensures k > 0
    ensures var o := Down(exec, db, all, latest, fault);
            && (o.ok <==> !fault && all[k - 1].down != "" && exec(all[k - 1].down, db.schema).Some?)
            && AtPrefix(exec, base, all, o.db, if o.ok then k - 1 else k)
  {
    LatestOfPrefix(all, k, latest);
    if DownsInvert(exec, all) {
      var before := Fold(exec, base, all, k - 1);
      assert exec(all[k - 1].up, before.value) == Some(db.schema);
    }
  }

  datatype Command = UpCommand(listRead: bool, faults: int -> bool) | DownCommand(listRead: bool, fault: bool)

  ghost function Do<S>(exec: Exec<S>, all: seq<Migration>, db: Db<S>, c: Command): Outcome<S> {
    match c
    case UpCommand(r, fault) => if r then Up(exec, db, all, fault) else Outcome(db, false)
    case DownCommand(r, fault) =>
      if !r then Outcome(db, false)
      else if db.applied == {} then Outcome(db, true)
      else
        HasLatest(db.applied);
        var latest :| IsLatest(db.applied, latest);
        Down(exec, db, all, latest, fault)
  }

  ghost function Run<S>(exec: Exec<S>, all: seq<Migration>, db: Db<S>, cs: seq<Command>): Db<S>
    decreases |cs|
  {
    if cs == [] then db else Run(exec, all, Do(exec, all, db, cs[0]).db, cs[1..])
  }

  lemma {:induction false} DoKeepsPrefix<S(!new)>(exec: Exec<S>, base: S, all: seq<Migration>, db: Db<S>, k: nat,
                                                  c: Command)
    returns (j: nat)
    requires Ascending(all) && AtPrefix(exec, base, all, db, k)
    ensures AtPrefix(exec, base, all, Do(exec, all, db, c).db, j)
  {
    match c {
      case UpCommand(r, fault) =>
        if r {
          j := UpToGoesOn(exec, base, db, all, |all|, k, fault);
        } else {
          j := k;
        }
      case DownCommand(r, fault) =>
        j := k;
        if r && db.applied != {} {
          HasLatest(db.applied);
          var latest :| IsLatest(db.applied, latest) && Do(exec, all, db, c) == Down(exec, db, all, latest, fault);
          DownGoesBack(exec, base, db, all, k, latest, fault);
          j := if Do(exec, all, db, c).ok then k - 1 else k;
        }
    }
  }

  /**
   * Over any run of up and down, whatever fails: the applied versions are a prefix of the sorted list, and
   * when downs invert ups the schema is what that prefix's up scripts make of the empty one.
   */
  lemma {:induction false} RunKeepsPrefix<S(!new)>(exec: Exec<S>, base: S, all: seq<Migration>, db: Db<S>, k: nat,
                                                  cs: seq<Command>)
    returns (j: nat)
    requires Ascending(all) && AtPrefix(exec, base, all, db, k)
    ensures AtPrefix(exec, base, all, Run(exec, all, db, cs), j)
    decreases |cs|
  {
    j := k;
    if cs != [] {
      j := DoKeepsPrefix(exec, base, all, db, k, cs[0]);
      j := RunKeepsPrefix(exec, base, all, Do(exec, all, db, cs[0]).db, j, cs[1..]);
    }
  }

  lemma {:induction false} FreshDatabase<S(!new)>(exec: Exec<S>, base: S, all: seq<Migration>, cs: seq<Command>)
    requires Ascending(all)
    ensures exists k: nat :: AtPrefix(exec, base, all, Run(exec, all, Db(base, {}), cs), k)
  {
    var k := RunKeepsPrefix(exec, base, all, Db(base, {}), 0, cs);
  }

  /** Whatever was applied before, a successful up leaves every version of the list applied and drops none. */
  lemma {:induction false} UpAppliesAll<S>(exec: Exec<S>, db: Db<S>, all: seq<Migration>, n: nat, fault: int -> bool)
    requires n <= |all| && UpTo(exec, db, db.applied, all, n, fault).ok
    ensures UpTo(exec, db, db.applied, all, n, fault).db.applied == db.applied + VersionsOf(all, n)
  {
    if n > 0 {
      UpAppliesAll(exec, db, all, n - 1, fault);
      assert VersionsOf(all, n) == VersionsOf(all, n - 1) + {all[n - 1].version};
    }
  }

  lemma {:induction false} NothingToApply<S>(exec: Exec<S>, db: Db<S>, all: seq<Migration>, n: nat, fault: int -> bool)
    requires n <= |all| && VersionsOf(all, |all|) <= db.applied
    ensures UpTo(exec, db, db.applied, all, n, fault) == Outcome(db, true)
  {
    if n > 0 {
      NothingToApply(exec, db, all, n - 1, fault);
      assert all[n - 1].version in VersionsOf(all, |all|);
    }
  }

  /** Repeating a successful up succeeds and changes nothing. */
  lemma {:induction false} UpTwice<S>(exec: Exec<S>, db: Db<S>, all: seq<Migration>, fault: int -> bool,
                                      again: int -> bool)
    requires Up(exec, db, all, fault).ok
    ensures VersionsOf(all, |all|) <= Up(exec, db, all, fault).db.applied
    ensures Up(exec, Up(exec, db, all, fault).db, all, again) == Up(exec, db, all, fault)
  {
    UpAppliesAll(exec, db, all, |all|, fault);
    NothingToApply(exec, Up(exec, db, all, fault).db, all, |all|, again);
  }

  lemma {:induction false} OneFileOnly(version: int, name: string, body: string)
    ensures var one := Sql(version, name, UpSql, body);
            Name([one], version) == name && Body([one], version, DownSql) == ""
  {
    var one := Sql(version, name, UpSql, body);
    assert [one][..0] == [];
    assert version !in Versions([]);
    assert Body([], version, DownSql) == "";
  }

  /** Two up files of one version load as one migration: the first file's name with the second one's script. */
  lemma {:induction false} SecondUpFileWins(version: int, a: string, b: string, x: string, y: string)
    requires y != ""
    ensures var entries := [Sql(version, a, UpSql, x), Sql(version, b, UpSql, y)];
            Loadable(entries) && MigrationOf(entries, version) == Migration(version, a, y, "")
  {
    var one, two := Sql(version, a, UpSql, x), Sql(version, b, UpSql, y);
    assert [one, two][..1] == [one] && [one][..0] == [];
    assert Versions([one]) == {version} == Versions([one, two]) by {
      assert one in [one] && one in [one, two];
    }
    assert Versions([]) == {};
    OneFileOnly(version, a, x);
    assert Name([one, two], version) == Name([one], version);
    assert Body([one, two], version, DownSql) == Body([one], version, DownSql);
  }
}
