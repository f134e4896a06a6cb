/** The migration ledger: one transactional sweep per call, over a database several stores share.
    A database is its file-header counter, the ledger's rows, and, per store, the statements that
    have been executed for it, in order: any schema they build is a fold over that list. */
module Migrations {
  import opened Wrappers

  type Store = int
  type Name = int
  type Sql = int

  datatype Migration = Migration(name: Name, sql: Sql)

  datatype Db = Db(userVersion: int, ledger: map<(Store, int), Name>, ran: map<Store, seq<Sql>>)

  datatype Error =
    | NoStore | PreLedger | HistoryGap | TooNew
    | Unreachable | Unreadable | StepFailed(version: int) | NotCommitted

  function Ran(db: Db, store: Store): seq<Sql> {
    if store in db.ran then db.ran[store] else []
  }

  function Versions(db: Db, store: Store): set<int> {
    set k | k in db.ledger && k.0 == store :: k.1
  }

  function Count(db: Db, store: Store): nat { |Versions(db, store)| }

  /** The versions are exactly 1 to n. */
  ghost predicate UpTo(versions: set<int>, n: int) {
    forall v :: v in versions <==> 1 <= v <= n
  }

  ghost predicate GapFree(db: Db, store: Store) {
    UpTo(Versions(db, store), Count(db, store))
  }

  /** What a sweep refuses before writing anything. */
  ghost function Refusal(db: Db, store: Store, list: seq<Migration>): Option<Error> {
    if store == 0 then Some(NoStore)
    else if db.userVersion != 0 then Some(PreLedger)
    else if !GapFree(db, store) then Some(HistoryGap)
    else if Count(db, store) > |list| then Some(TooNew)
    else None
  }

  /** One step executed and recorded. */
  function Applied(db: Db, store: Store, m: Migration, version: int): Db {
    Db(db.userVersion, db.ledger[(store, version) := m.name], db.ran[store := Ran(db, store) + [m.sql]])
  }

  /** Steps `from` (counted from 0) up to `to`, in order. */
  function Upgraded(db: Db, store: Store, list: seq<Migration>, from: nat, till: nat): Db
    requires from <= till <= |list|
  {
    if from == till then db else Applied(Upgraded(db, store, list, from, till - 1), store, list[till - 1], till)
  }

  // ---------------------------------------------------------------- ledgers

  lemma {:induction false} UpToCounts(versions: set<int>, n: nat)
    requires UpTo(versions, n)
    ensures |versions| == n
  {
    if n == 0 {
      if versions != {} { Inhabited(versions); }
    } else {
      UpToCounts(versions - {n}, n - 1);
      assert versions == (versions - {n}) + {n};
    }
  }

  /** A store's history is sound against a list: versions 1 to n recorded, each under its name, and
      exactly the first n statements executed, once each, in order. */
  ghost predicate HistoryOk(db: Db, store: Store, list: seq<Migration>) {
    && GapFree(db, store) && Count(db, store) <= |list|
    && (forall v :: 1 <= v <= Count(db, store) ==> (store, v) in db.ledger && db.ledger[(store, v)] == list[v - 1].name)
    && Ran(db, store) == Sqls(list[..Count(db, store)])
  }

  function Sqls(list: seq<Migration>): seq<Sql> {
    seq(|list|, i requires 0 <= i < |list| => list[i].sql)
  }

  lemma AppliedVersions(db: Db, store: Store, m: Migration, version: int, other: Store)
    ensures var n := Applied(db, store, m, version);
      Versions(n, other) == if other == store then Versions(db, store) + {version} else Versions(db, other)
  {
    var n := Applied(db, store, m, version);
    forall v
      ensures v in Versions(n, other) <==> v in (if other == store then Versions(db, store) + {version} else Versions(db, other))
    {
      assert v in Versions(n, other) <==> (other, v) in n.ledger;
      assert v in Versions(db, other) <==> (other, v) in db.ledger;
    }
  }

  lemma StepCounts(db: Db, store: Store, m: Migration)
    requires GapFree(db, store)
    ensures var n := Applied(db, store, m, Count(db, store) + 1);
      GapFree(n, store) && Count(n, store) == Count(db, store) + 1
  {
    var c := Count(db, store);
    AppliedVersions(db, store, m, c + 1, store);
    UpToCounts(Versions(Applied(db, store, m, c + 1), store), c + 1);
  }

  lemma StepKeepsHistory(db: Db, store: Store, list: seq<Migration>)
    requires HistoryOk(db, store, list) && Count(db, store) < |list|
    ensures var n := Applied(db, store, list[Count(db, store)], Count(db, store) + 1);
      HistoryOk(n, store, list) && Count(n, store) == Count(db, store) + 1
  {
    var c := Count(db, store);
    StepCounts(db, store, list[c]);
    assert list[..c + 1] == list[..c] + [list[c]];
    assert Sqls(list[..c + 1]) == Sqls(list[..c]) + [list[c].sql];
  }

  lemma {:induction false} UpgradeKeepsHistory(db: Db, store: Store, list: seq<Migration>, till: nat)
    requires HistoryOk(db, store, list) && Count(db, store) <= till <= |list|
    ensures var n := Upgraded(db, store, list, Count(db, store), till);
      HistoryOk(n, store, list) && Count(n, store) == till && n.userVersion == db.userVersion
  {
    if Count(db, store) < till {
      UpgradeKeepsHistory(db, store, list, till - 1);
      StepKeepsHistory(Upgraded(db, store, list, Count(db, store), till - 1), store, list);
    }
  }

  lemma {:induction false} UpgradeSparesOthers(db: Db, store: Store, list: seq<Migration>, from: nat, till: nat, other: Store)
    requires from <= till <= |list| && other != store
    ensures var n := Upgraded(db, store, list, from, till);
      && Versions(n, other) == Versions(db, other) && Ran(n, other) == Ran(db, other)
      && (forall v :: (other, v) in n.ledger <==> (other, v) in db.ledger)
      && (forall v :: (other, v) in db.ledger ==> n.ledger[(other, v)] == db.ledger[(other, v)])
  {
    if from < till {
      UpgradeSparesOthers(db, store, list, from, till - 1, other);
      AppliedVersions(Upgraded(db, store, list, from, till - 1), store, list[till - 1], till, other);
    }
  }

  // ---------------------------------------------------------------- the sweep, as written

  lemma {:induction false} LeastOf(s: set<int>) returns (least: int)
    requires s != {}
    ensures least in s && forall v :: v in s ==> least <= v
    decreases |s|
  {
    Inhabited(s);
    var any :| any in s;
    assert s == (s - {any}) + {any};
    if s - {any} == {} { return any; }
    var rest := LeastOf(s - {any});
    least := if any < rest then any else rest;
  }

  /** The rows of a query ordered by version. */
  ghost predicate Ordered(rows: seq<int>, versions: set<int>) {
    && (forall v :: v in rows <==> v in versions)
    && (forall i, j :: 0 <= i < j < |rows| ==> rows[i] < rows[j])
  }

  /** Ascending rows from 1 with none missing are exactly 1 to n. */
  lemma RowsAreUpTo(rows: seq<int>, versions: set<int>)
    requires Ordered(rows, versions) && forall j :: 0 <= j < |rows| ==> rows[j] == j + 1
    ensures UpTo(versions, |rows|) && |versions| == |rows|
  {
    forall v
      ensures v in versions <==> 1 <= v <= |rows|
    {
      if 1 <= v <= |rows| { assert rows[v - 1] == v; }
    }
    UpToCounts(versions, |rows|);
  }

  /** The ordered rows of versions 1 to n are in step. */
  lemma {:induction false} RowsInStep(rows: seq<int>, versions: set<int>, n: int, upto: nat)
    requires Ordered(rows, versions) && UpTo(versions, n) && upto <= |rows|
    ensures forall j :: 0 <= j < upto ==> rows[j] == j + 1
  {
    if upto > 0 {
      RowsInStep(rows, versions, n, upto - 1);
      var last := rows[upto - 1];
      assert last in rows;
      assert 1 <= last <= n && (upto > 1 ==> rows[upto - 2] < last);
      assert 1 <= upto <= last;
      assert upto in versions;
      var k :| 0 <= k < |rows| && rows[k] == upto;
    }
  }

  /** A row out of step means some version is missing, or one below 1 is there. */
  lemma GapFound(rows: seq<int>, versions: set<int>, i: nat, n: int)
    requires Ordered(rows, versions) && i < |rows| && rows[i] != i + 1
    requires forall j :: 0 <= j < i ==> rows[j] == j + 1
    ensures !UpTo(versions, n)
  {
    if UpTo(versions, n) { RowsInStep(rows, versions, n, i + 1); }
  }

  /** A database, and the one transaction open on it. */
  class Database {
    var db: Db
    var tx: Db
    /** How often a transaction has been asked for, a step run in one, and a commit. */
    ghost var begins: nat
    ghost var steps: nat
    ghost var commits: nat

    constructor (db: Db)
      ensures this.db == db
    {
      this.db, tx, begins, steps, commits := db, db, 0, 0, 0;
    }

    method Begin() returns (ok: bool)
      modifies this`tx, this`begins
      ensures ok ==> tx == db
      ensures begins == old(begins) + 1
    {
      ok, begins := *, begins + 1;
      if ok { tx := db; }
    }

    method Commit() returns (ok: bool)
      modifies this`db, this`commits
      ensures db == if ok then tx else old(db)
      ensures commits == old(commits) + 1
    {
      ok, commits := *, commits + 1;
      if ok { db := tx; }
    }

    method QueryVersions(store: Store) returns (rows: Option<seq<int>>)
      ensures rows.Some? ==> Ordered(rows.value, Versions(tx, store))
    {
      var found: seq<int> := [];
      var all := Versions(tx, store);
      var todo := all;
      while todo != {}
        invariant todo <= all && Ordered(found, all - todo)
        invariant forall i, v :: 0 <= i < |found| && v in todo ==> found[i] < v
      {
        ghost var g := LeastOf(todo);
        var least :| least in todo && forall v :: v in todo ==> least <= v;
        found := found + [least];
        todo := todo - {least};
      }
      assert all - todo == all;
      var fails := *;
      rows := if fails then None else Some(found);
    }

    /** How many of the store's migrations are recorded: an answer exactly for histories 1 to n with
        none missing, as far as they can be read at all. */
    method CountApplied(store: Store) returns (n: Option<nat>, readable: bool)
      ensures n.Some? ==> GapFree(tx, store) && n.value == Count(tx, store)
      ensures readable ==> (n.Some? <==> GapFree(tx, store))
      ensures !readable ==> n.None?
    {
      var rows := QueryVersions(store);
      if rows.None? { return None, false; }
      var count, i := 0, 0;
      while i < |rows.value|
        invariant 0 <= i == count <= |rows.value|
        invariant forall j :: 0 <= j < i ==> rows.value[j] == j + 1
      {
        count := count + 1;
        if rows.value[i] != count {
          GapFound(rows.value, Versions(tx, store), i, Count(tx, store));
          return None, true;
        }
        i := i + 1;
      }
      RowsAreUpTo(rows.value, Versions(tx, store));
      return Some(count), true;
    }

    /** One step and its row, inside the transaction; a failure leaves the transaction anyhow. */
    method Apply(store: Store, m: Migration, version: int) returns (ok: bool)
      modifies this`tx, this`steps
      ensures ok ==> tx == Applied(old(tx), store, m, version)
      ensures steps == old(steps) + 1
    {
      ok, steps := *, steps + 1;
      tx := tx.(ran := tx.ran[store := Ran(tx, store) + [m.sql]]);
      if !ok { return; }
      ok := *;
      if ok { tx := tx.(ledger := tx.ledger[(store, version) := m.name]); }
    }

    /** Applies what is missing, all in one transaction, or changes nothing. */
    method Migrate(store: Store, list: seq<Migration>) returns (err: Option<Error>)
      modifies this
      ensures db == After(old(db), Call(store, list, err.None?))
      ensures err.None? ==> Refusal(old(db), store, list).None?
      ensures err.Some? && !err.value.Unreachable? && !err.value.Unreadable? && !err.value.StepFailed? && !err.value.NotCommitted? ==>
                err == Refusal(old(db), store, list)
      ensures err == Some(NoStore) <==> store == 0
      ensures err == Some(Unreachable) ==> begins > old(begins)
      ensures err.Some? && err.value.StepFailed? ==> steps > old(steps) && Count(old(db), store) < err.value.version <= |list|
      ensures err == Some(NotCommitted) ==> commits > old(commits)
      ensures err == Some(PreLedger) ==> old(db).userVersion != 0
      ensures err == Some(HistoryGap) ==> old(db).userVersion == 0 && !GapFree(old(db), store)
      ensures err == Some(TooNew) ==> old(db).userVersion == 0 && GapFree(old(db), store) && Count(old(db), store) > |list|
      ensures err.None? ==> old(db).userVersion == 0 && GapFree(old(db), store) && Count(old(db), store) <= |list|
    {
      if store == 0 { return Some(NoStore); }
      var ok := Begin();
      if !ok { return Some(Unreachable); }
      if tx.userVersion != 0 { return Some(PreLedger); }
      var n, readable := CountApplied(store);
      if n.None? { return Some(if readable then HistoryGap else Unreadable); }
      if n.value > |list| { return Some(TooNew); }
      var i := n.value;
      while i < |list|
        invariant n.value <= i <= |list| && db == old(db)
        invariant tx == Upgraded(db, store, list, n.value, i) && steps >= old(steps) && commits == old(commits)
      {
        ok := Apply(store, list[i], i + 1);
        if !ok { return Some(StepFailed(i + 1)); }
        i := i + 1;
      }
      ok := Commit();
      err := if ok then None else Some(NotCommitted);
    }
  }

  // ---------------------------------------------------------------- any number of sweeps

  /** One call of migrate; `ok` is whether every statement and the commit went through. */
  datatype Call = Call(store: Store, list: seq<Migration>, ok: bool)

  ghost function After(db: Db, c: Call): Db {
    if Refusal(db, c.store, c.list).None? && c.ok then Upgraded(db, c.store, c.list, Count(db, c.store), |c.list|) else db
  }

  ghost function Play(db: Db, calls: seq<Call>): Db {
    if calls == [] then db else After(Play(db, calls[..|calls| - 1]), calls[|calls| - 1])
  }

  /** Each release's list for a store is a beginning of what that list will ever be. */
  ghost predicate Append(calls: seq<Call>, full: Store -> seq<Migration>) {
    forall i :: 0 <= i < |calls| ==> calls[i].list <= full(calls[i].store)
  }

  lemma LongerListStands(db: Db, store: Store, list: seq<Migration>, full: seq<Migration>)
    requires list <= full && Count(db, store) <= |list|
    ensures HistoryOk(db, store, list) <==> HistoryOk(db, store, full)
  {
    var c := Count(db, store);
    assert full[..c] == list[..c];
  }

  lemma CallKeepsHistory(db: Db, c: Call, store: Store, full: seq<Migration>)
    requires HistoryOk(db, store, full) && (c.store == store ==> c.list <= full)
    ensures HistoryOk(After(db, c), store, full)
  {
    if Refusal(db, c.store, c.list).None? && c.ok {
      if c.store == store {
        LongerListStands(db, store, c.list, full);
        UpgradeKeepsHistory(db, store, c.list, |c.list|);
        LongerListStands(After(db, c), store, c.list, full);
      } else {
        UpgradeSparesOthers(db, c.store, c.list, Count(db, c.store), |c.list|, store);
      }
    }
  }

  /** Each migration is applied exactly once: over any interleaving of sweeps, failed ones included,
      by any stores and releases whose lists grow by appending, every store's ledger stays exactly 1
      to n under the right names, and what has been executed for it is its first n statements, once
      each, in order. */
  lemma {:induction false} EachAppliedOnce(db: Db, calls: seq<Call>, full: Store -> seq<Migration>, store: Store)
    requires HistoryOk(db, store, full(store)) && Append(calls, full)
    ensures HistoryOk(Play(db, calls), store, full(store))
  {
    if calls != [] {
      EachAppliedOnce(db, calls[..|calls| - 1], full, store);
      CallKeepsHistory(Play(db, calls[..|calls| - 1]), calls[|calls| - 1], store, full(store));
    }
  }

  /** An empty database has a sound history for everyone. */
  lemma EmptyIsSound(store: Store, list: seq<Migration>)
    ensures HistoryOk(Db(0, map[], map[]), store, list)
  {
    assert Versions(Db(0, map[], map[]), store) == {};
    assert list[..0] == [];
  }

  /** A file from before the ledger is left alone by every sweep there will ever be. */
  lemma {:induction false} PreLedgerUntouched(db: Db, calls: seq<Call>)
    requires db.userVersion != 0
    ensures Play(db, calls) == db
  {
    if calls != [] { PreLedgerUntouched(db, calls[..|calls| - 1]); }
  }

  /** So is one whose history has a gap or is ahead of the list, by the sweeps of that store. */
  lemma {:induction false} UnsoundUntouched(db: Db, store: Store, lists: seq<seq<Migration>>, ok: bool)
    requires store == 0 || !GapFree(db, store) || forall i :: 0 <= i < |lists| ==> Count(db, store) > |lists[i]|
    ensures Play(db, Sweeps(store, lists, ok)) == db
  {
    if lists != [] {
      var init := lists[..|lists| - 1];
      UnsoundUntouched(db, store, init, ok);
      assert Sweeps(store, lists, ok)[..|lists| - 1] == Sweeps(store, init, ok);
    }
  }

  function Sweeps(store: Store, lists: seq<seq<Migration>>, ok: bool): seq<Call> {
    seq(|lists|, i requires 0 <= i < |lists| => Call(store, lists[i], ok))
  }

  /** A sweep that goes through leaves the store exactly at its list, every other store alone, and a
      repeated one changes nothing. */
  lemma SweepReachesTheList(db: Db, store: Store, list: seq<Migration>, other: Store)
    requires store != 0 && db.userVersion == 0 && HistoryOk(db, store, list) && other != store
    ensures var n := After(db, Call(store, list, true));
      && Count(n, store) == |list| && Ran(n, store) == Sqls(list)
      && Versions(n, other) == Versions(db, other) && Ran(n, other) == Ran(db, other)
      && After(n, Call(store, list, true)) == n
  {
    UpgradeKeepsHistory(db, store, list, |list|);
    UpgradeSparesOthers(db, store, list, Count(db, store), |list|, other);
    assert list[..|list|] == list;
  }

  lemma {:induction false} UpgradeInTwo(db: Db, store: Store, first: seq<Migration>, list: seq<Migration>, from: nat, till: nat)
    requires first <= list && from <= |first| <= till <= |list|
    ensures Upgraded(db, store, list, from, till) == Upgraded(Upgraded(db, store, first, from, |first|), store, list, |first|, till)
    decreases till
  {
    if |first| < till {
      UpgradeInTwo(db, store, first, list, from, till - 1);
    } else {
      SameStart(db, store, first, list, from, till);
    }
  }

  lemma {:induction false} SameStart(db: Db, store: Store, first: seq<Migration>, list: seq<Migration>, from: nat, till: nat)
    requires first <= list && from <= till <= |first|
    ensures Upgraded(db, store, list, from, till) == Upgraded(db, store, first, from, till)
  {
    if from < till { SameStart(db, store, first, list, from, till - 1); }
  }

  /** Upgrading through an earlier release's list is upgrading directly. */
  lemma ThroughAPrefix(db: Db, store: Store, first: seq<Migration>, list: seq<Migration>)
    requires first <= list && store != 0 && db.userVersion == 0 && HistoryOk(db, store, first)
    ensures After(After(db, Call(store, first, true)), Call(store, list, true)) == After(db, Call(store, list, true))
  {
    UpgradeKeepsHistory(db, store, first, |first|);
    UpgradeInTwo(db, store, first, list, Count(db, store), |list|);
  }
}
