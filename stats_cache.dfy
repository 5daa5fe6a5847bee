/** `calculateAndCacheStats(address)`: read the wallet's rows, aggregate
    them, store the snapshot and mark the wallet as indexed. */
module StatsCache {
  import opened Wrappers
  import opened Seqs
  import opened Stats
  import opened Store

  /** Why the step throws: the aggregation failed, or the final user update
      found no row for the wallet. */
  datatype CacheError = AggregationFailed(cause: StatsError) | UserMissing

  /** The aggregation of the wallet's rows, as the store holds them. */
  function StatsFor(txs: map<string, Records.TxRecord>, order: seq<string>, address: string,
                    monthOf: int -> Month, ln: real -> real): Result<Snapshot, StatsError>
    requires forall d :: d in order ==> d in txs
  {
    StatsOf(SortDesc(RowsOf(txs, order, address), Timestamp), address, monthOf, ln)
  }

  /** On an aggregation failure nothing is written. Otherwise the snapshot is
      saved, and the user row is marked indexed at `now` when it exists (a
      missing row makes the final update throw after the snapshot was
      saved). The transaction table is never touched. */
  method CalculateAndCacheStats(db: Db, address: string, now: int, monthOf: int -> Month, ln: real -> real)
    returns (r: Result<Snapshot, CacheError>)
    requires db.Valid()
    modifies db
    ensures db.Valid() && db.txs == old(db.txs) && db.order == old(db.order)
    ensures var expected := StatsFor(old(db.txs), old(db.order), address, monthOf, ln);
      && (expected.Failure? ==>
            r == Failure(AggregationFailed(expected.error))
            && db.stats == old(db.stats) && db.users == old(db.users))
      && (expected.Success? ==>
            db.stats == old(db.stats)[address := expected.value]
            && (address in old(db.users) ==>
                  r == Success(expected.value)
                  && db.users == old(db.users)[address := UserRow(true, Some(now))])
            && (address !in old(db.users) ==> r == Failure(UserMissing) && db.users == old(db.users)))
  {
    var txs := db.FindMany(address);
    var s := Aggregate(txs, address, monthOf, ln);
    if s.Failure? {
      return Failure(AggregationFailed(s.error));
    }
    db.SaveStats(address, s.value);
    var found := db.MarkIndexed(address, Some(now));
    if !found {
      return Failure(UserMissing);
    }
    r := Success(s.value);
  }
}
