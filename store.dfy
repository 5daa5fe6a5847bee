/** The database tables the core reads and writes: transactions keyed by
    digest, users and cached statistics. */
module Store {
  import opened Wrappers
  import opened Seqs
  import opened Records
  import opened Stats

  /** A `User` row: whether indexing completed, and when. */
  datatype UserRow = UserRow(isIndexed: bool, lastIndexedAt: Option<int>)

  // ----------------------------------------- createMany with skipDuplicates

  /** The table after inserting `rows` in order, skipping each row whose
      digest is already present (the first write of a digest wins). */
  function InsertAll(m: map<string, TxRecord>, rows: seq<TxRecord>): map<string, TxRecord>
  {
    if rows == [] then m
    else
      var t := InsertAll(m, rows[..|rows| - 1]);
      var x := rows[|rows| - 1];
      if x.digest in t then t else t[x.digest := x]
  }

  /** The digests the insert adds, in insertion order. */
  function NewKeys(m: map<string, TxRecord>, rows: seq<TxRecord>): seq<string>
  {
    if rows == [] then []
    else
      var x := rows[|rows| - 1];
      NewKeys(m, rows[..|rows| - 1]) + (if x.digest in InsertAll(m, rows[..|rows| - 1]) then [] else [x.digest])
  }

  /** Inserting never changes or removes a stored row; the table holds
      exactly the old keys and the row digests; the new keys are the digests
      not stored before, each once. */
  lemma {:induction false} InsertAllProps(m: map<string, TxRecord>, rows: seq<TxRecord>)
    ensures forall d :: d in m ==> d in InsertAll(m, rows) && InsertAll(m, rows)[d] == m[d]
    ensures forall d :: d in InsertAll(m, rows) <==> d in m || exists i :: 0 <= i < |rows| && rows[i].digest == d
    ensures NoDup(NewKeys(m, rows))
    ensures forall d :: d in NewKeys(m, rows) <==> d in InsertAll(m, rows) && d !in m
  {
    if rows != [] {
      var p := rows[..|rows| - 1];
      InsertAllProps(m, p);
      forall d | d in InsertAll(m, rows) && d !in m
        ensures exists i :: 0 <= i < |rows| && rows[i].digest == d
      {
        if d in InsertAll(m, p) {
          var i :| 0 <= i < |p| && p[i].digest == d;
          assert rows[i] == p[i];
        }
      }
      forall d | exists i :: 0 <= i < |rows| && rows[i].digest == d
        ensures d in InsertAll(m, rows)
      {
        var i :| 0 <= i < |rows| && rows[i].digest == d;
        if i < |p| { assert p[i] == rows[i]; }
      }
    }
  }

  /** A digest not stored before ends up holding the first row that
      carries it. */
  lemma {:induction false} InsertAllFirstWins(m: map<string, TxRecord>, rows: seq<TxRecord>, i: nat)
    requires i < |rows| && rows[i].digest !in m
    requires forall j :: 0 <= j < i ==> rows[j].digest != rows[i].digest
    ensures rows[i].digest in InsertAll(m, rows) && InsertAll(m, rows)[rows[i].digest] == rows[i]
  {
    var p := rows[..|rows| - 1];
    if i < |p| {
      assert p[i] == rows[i];
      InsertAllFirstWins(m, p, i);
      InsertAllProps(m, p);
    } else {
      forall j | 0 <= j < |p| ensures p[j].digest != rows[i].digest {
        assert p[j] == rows[j];
      }
      InsertAllProps(m, p);
    }
  }

  /** Two batches in a row insert like their concatenation. */
  lemma InsertAllAppend(m: map<string, TxRecord>, a: seq<TxRecord>, b: seq<TxRecord>)
    ensures InsertAll(m, a + b) == InsertAll(InsertAll(m, a), b)
    ensures NewKeys(m, a + b) == NewKeys(m, a) + NewKeys(InsertAll(m, a), b)
  {
    InsertAllAppendMap(m, a, b);
    NewKeysAppend(m, a, b);
  }

  lemma {:induction false} InsertAllAppendMap(m: map<string, TxRecord>, a: seq<TxRecord>, b: seq<TxRecord>)
    ensures InsertAll(m, a + b) == InsertAll(InsertAll(m, a), b)
    decreases |b|
  {
    if b == [] {
      assert a + b == a;
    } else {
      var b' := b[..|b| - 1];
      InsertAllAppendMap(m, a, b');
      assert (a + b)[..|a + b| - 1] == a + b';
      assert (a + b)[|a + b| - 1] == b[|b| - 1];
    }
  }

  lemma {:induction false} NewKeysAppend(m: map<string, TxRecord>, a: seq<TxRecord>, b: seq<TxRecord>)
    ensures NewKeys(m, a + b) == NewKeys(m, a) + NewKeys(InsertAll(m, a), b)
    decreases |b|
  {
    if b == [] {
      assert a + b == a;
    } else {
      var b' := b[..|b| - 1];
      var x := b[|b| - 1];
      NewKeysAppend(m, a, b');
      InsertAllAppendMap(m, a, b');
      assert (a + b)[..|a + b| - 1] == a + b';
      assert (a + b)[|a + b| - 1] == x;
      var added := if x.digest in InsertAll(m, a + b') then [] else [x.digest];
      assert NewKeys(m, a + b) == NewKeys(m, a + b') + added;
      assert NewKeys(InsertAll(m, a), b) == NewKeys(InsertAll(m, a), b') + added;
    }
  }

  /** Inserting one more row, as the loop of `createMany` does. */
  lemma InsertStep(m: map<string, TxRecord>, rows: seq<TxRecord>, i: nat)
    requires i < |rows|
    ensures var t := InsertAll(m, rows[..i]);
      var x := rows[i];
      && InsertAll(m, rows[..i + 1]) == (if x.digest in t then t else t[x.digest := x])
      && NewKeys(m, rows[..i + 1]) == NewKeys(m, rows[..i]) + (if x.digest in t then [] else [x.digest])
  {
    assert rows[..i + 1][..i] == rows[..i];
  }

  /** Storing a row under a new digest keeps the digest list duplicate-free
      and in step with the table. */
  lemma TableGrows(txs: map<string, TxRecord>, order: seq<string>, row: TxRecord)
    requires NoDup(order) && (forall d :: d in txs <==> d in order)
    requires row.digest !in txs
    ensures NoDup(order + [row.digest])
    ensures forall d :: d in txs[row.digest := row] <==> d in order + [row.digest]
  {
  }

  /** A batch stored after `rows` leaves the table as if `rows + batch` had
      been stored in one go. */
  lemma BatchAfter(base: map<string, TxRecord>, baseOrder: seq<string>, rows: seq<TxRecord>, batch: seq<TxRecord>,
                   txs: map<string, TxRecord>, order: seq<string>)
    requires txs == InsertAll(InsertAll(base, rows), batch)
    requires order == baseOrder + NewKeys(base, rows) + NewKeys(InsertAll(base, rows), batch)
    ensures txs == InsertAll(base, rows + batch) && order == baseOrder + NewKeys(base, rows + batch)
  {
    InsertAllAppendMap(base, rows, batch);
    NewKeysAppend(base, rows, batch);
    ConcatAssoc(baseOrder, NewKeys(base, rows), NewKeys(InsertAll(base, rows), batch));
  }

  lemma ConcatAssoc<T>(a: seq<T>, b: seq<T>, c: seq<T>)
    ensures a + b + c == a + (b + c)
  {
  }

  /** Rows whose digests are all stored already insert nothing. */
  lemma {:induction false} NothingNew(m: map<string, TxRecord>, rows: seq<TxRecord>)
    requires forall i :: 0 <= i < |rows| ==> rows[i].digest in m
    ensures InsertAll(m, rows) == m && NewKeys(m, rows) == []
  {
    if rows != [] {
      var p := rows[..|rows| - 1];
      assert forall i :: 0 <= i < |p| ==> p[i] == rows[i];
      NothingNew(m, p);
    }
  }

  /** Re-running an insert over the same rows changes nothing. */
  lemma InsertAllIdempotent(m: map<string, TxRecord>, rows: seq<TxRecord>)
    ensures InsertAll(InsertAll(m, rows), rows) == InsertAll(m, rows)
    ensures NewKeys(InsertAll(m, rows), rows) == []
  {
    InsertAllProps(m, rows);
    NothingNew(InsertAll(m, rows), rows);
  }

  // ------------------------------------------------------- reading back rows

  /** A second write to the same user row replaces the first. */
  lemma OverwriteUser(users: map<string, UserRow>, address: string, first: UserRow, second: UserRow)
    ensures users[address := first][address := second] == users[address := second]
  {
  }

  function Timestamp(r: TxRecord): int { r.timestamp }

  /** A user's rows, in insertion order. */
  function RowsOf(txs: map<string, TxRecord>, order: seq<string>, user: string): (rs: seq<TxRecord>)
    requires forall d :: d in order ==> d in txs
    ensures forall r :: r in rs ==> r.userAddress == user
    ensures forall i :: 0 <= i < |order| && txs[order[i]].userAddress == user ==> txs[order[i]] in rs
  {
    if order == [] then []
    else
      var d := order[|order| - 1];
      RowsOf(txs, order[..|order| - 1], user) + (if txs[d].userAddress == user then [txs[d]] else [])
  }

  lemma SortedRows(txs: map<string, TxRecord>, order: seq<string>, user: string)
    requires forall d :: d in txs <==> d in order
    ensures var rs := SortDesc(RowsOf(txs, order, user), Timestamp);
      && SortedDesc(rs, Timestamp)
      && multiset(rs) == multiset(RowsOf(txs, order, user))
      && (forall r :: r in rs ==> r.userAddress == user)
      && (forall d :: d in txs && txs[d].userAddress == user ==> txs[d] in rs)
  {
    var own := RowsOf(txs, order, user);
    var rs := SortDesc(own, Timestamp);
    SortDescProps(own, Timestamp);
    forall r | r in rs ensures r in own {
      assert r in multiset(rs);
    }
    forall d | d in txs && txs[d].userAddress == user ensures txs[d] in rs {
      var i :| 0 <= i < |order| && order[i] == d;
      assert txs[d] in own;
      assert txs[d] in multiset(own);
    }
  }

  class Db {
    var txs: map<string, TxRecord>
    var order: seq<string>
    var users: map<string, UserRow>
    var stats: map<string, Snapshot>

    /** `order` lists every stored digest once, in insertion order. */
    ghost predicate Valid()
      reads this
    {
      NoDup(order) && forall d :: d in txs <==> d in order
    }

    constructor()
      ensures Valid() && txs == map[] && order == [] && users == map[] && stats == map[]
    {
      txs, order, users, stats := map[], [], map[], map[];
    }

    /** `transaction.createMany({ data: rows, skipDuplicates: true })`. */
    method CreateMany(rows: seq<TxRecord>)
      requires Valid()
      modifies this
      ensures Valid()
      ensures txs == InsertAll(old(txs), rows) && order == old(order) + NewKeys(old(txs), rows)
      ensures users == old(users) && stats == old(stats)
    {
      var i := 0;
      while i < |rows|
        invariant i <= |rows| && Valid()
        invariant txs == InsertAll(old(txs), rows[..i]) && order == old(order) + NewKeys(old(txs), rows[..i])
        invariant users == old(users) && stats == old(stats)
      {
        InsertStep(old(txs), rows, i);
        InsertRow(rows[i]);
        i := i + 1;
      }
      assert rows[..i] == rows;
    }

    /** One row of `createMany` with `skipDuplicates`: stored unless its
        digest is present already. */
    method InsertRow(row: TxRecord)
      requires Valid()
      modifies this
      ensures Valid()
      ensures txs == (if row.digest in old(txs) then old(txs) else old(txs)[row.digest := row])
      ensures order == old(order) + (if row.digest in old(txs) then [] else [row.digest])
      ensures users == old(users) && stats == old(stats)
    {
      if row.digest !in txs {
        TableGrows(txs, order, row);
        txs := txs[row.digest := row];
        order := order + [row.digest];
      }
    }

    /** `user.upsert({ update: { isIndexed: false }, create: { isIndexed:
        false } })`: an existing row keeps its `lastIndexedAt`. */
    method MarkUnindexed(address: string)
      modifies this
      ensures users == old(users)[address := UserRow(false,
                if address in old(users) then old(users)[address].lastIndexedAt else None)]
      ensures txs == old(txs) && order == old(order) && stats == old(stats)
    {
      var at := if address in users then users[address].lastIndexedAt else None;
      users := users[address := UserRow(false, at)];
    }

    /** `user.update({ data: { isIndexed: true, ... } })`, which fails when
        the user row does not exist; `at` is the new `lastIndexedAt`, if the
        caller sets one. */
    method MarkIndexed(address: string, at: Option<int>) returns (found: bool)
      modifies this
      ensures found <==> address in old(users)
      ensures found ==> users == old(users)[address := UserRow(true,
                if at.Some? then at else old(users)[address].lastIndexedAt)]
      ensures !found ==> users == old(users)
      ensures txs == old(txs) && order == old(order) && stats == old(stats)
    {
      found := address in users;
      if found {
        var last := if at.Some? then at else users[address].lastIndexedAt;
        users := users[address := UserRow(true, last)];
      }
    }

    /** `userStats.upsert(...)`: the wallet's snapshot is replaced. */
    method SaveStats(address: string, s: Snapshot)
      modifies this
      ensures stats == old(stats)[address := s]
      ensures txs == old(txs) && order == old(order) && users == old(users)
    {
      stats := stats[address := s];
    }

    /** `transaction.findMany({ where: { userAddress }, orderBy: { timestamp:
        "desc" } })`: the user's rows, newest first, rows with equal
        timestamps in insertion order. */
    function FindMany(user: string): (rs: seq<TxRecord>)
      reads this
      requires Valid()
      ensures SortedDesc(rs, Timestamp)
      ensures multiset(rs) == multiset(RowsOf(txs, order, user))
      ensures forall r :: r in rs ==> r.userAddress == user
      ensures forall d :: d in txs && txs[d].userAddress == user ==> txs[d] in rs
    {
      SortedRows(txs, order, user);
      SortDesc(RowsOf(txs, order, user), Timestamp)
    }
  }
}
