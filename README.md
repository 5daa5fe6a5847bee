# sui-wrapped core, modelled in Dafny

sui-wrapped builds a "year in review" for a Sui wallet. It crawls the
wallet's transaction history page by page, stores each transaction once
(keyed by digest), and aggregates the stored rows into a statistics
snapshot. The snapshot holds:

- volume, inflow and outflow;
- the biggest transaction;
- the top five assets and top five counterparties;
- a monthly histogram and the ten most recent transactions;
- an archetype and a rank.

This project models the four core files of that pipeline.

- **Resilient RPC client** (`src/lib/rpc-switcher.ts`). A class that rotates
  over a pool of endpoint URLs on rate-limit errors. After one full pass of
  rate limits it falls back to five retries with exponential backoff.
  - `RpcSwitch.RateLimitSwitch` keeps the class's own mutable state:
    `currentIndex`, `requestCount` and `rotationCount`.
  - `ExecuteWithRetry` is a method that runs the source's two loops, the
    rotating pass (`RotatePass`) and the backoff loop (`RetryBackoff`).
  - It is proved equal to a recursive description of the run (`Call`).
  - `Call` is in turn proved to meet a non-recursive characterisation
    (`Faithful`) of which endpoints are tried, which waits happen and
    which error is thrown.
- **Aggregation** (`src/lib/stats.ts`).
  - `Stats.Aggregate` is the one pass over the rows, written with its
    loops: the outer loop, whose body is `AddTx`, and the inner loops
    `CountInteractions` and `ApplyChanges`.
  - It is proved equal to a fold (`Stats.StatsOf`) whose properties are
    proved as lemmas: histogram, flow conservation, counts, biggest
    transaction, top-five ordering, recent transactions, archetype
    priority and rank bound.
  - `StatsCache.CalculateAndCacheStats` adds the database reads and writes.
- **Two indexers**: GraphQL (`src/lib/index-graphql.ts`) and JSON-RPC
  (`src/lib/index.ts`).
  - Each has a row mapping, an interactor rule and a page loop that writes
    to a `Store.Db` object.
  - The object holds maps for the transaction, user and statistics tables.
  - The remote query results are a scripted sequence of pages. `None`, or
    running out of pages, means the query threw.
  - The loop (`RunPages`) is proved equal to a recursive crawl description
    (`CrawlAll`). Lemmas then give its shape: the cursor chain, the stop
    reasons and, for GraphQL, the row cap.

Supporting modules:

- `Wrappers`: `Option` and `Result`.
- `Seqs`: deduplication as `Array.from(new Set(..))` does it, and a stable
  descending sort.
- `Strings`: JavaScript `||` on optional strings, `includes`, `padStart`,
  `toLowerCase` and `split("::").pop()`.
- `Address`: `normalizeSuiAddress`.
- `Interactors`: `extractInteractors`, shared by both indexers.
- `Records`: the stored transaction row.

Amounts are integers in base units (1 SUI = 10^9). The archetype thresholds
are compared exactly on `real`s.

Behaviours of the code worth noting:

- **Counterparties.** A transaction received from someone else lists the
  sender's raw address, not a normalized one.
- **Error on exhaustion.** When all five retries are rate limited, the
  error thrown is the last error of the first pass, not the last error
  observed.
- **Retry classifier.** The backoff loop uses a narrower rate-limit test
  than the first pass. It ignores `statusCode`, "Too Many Requests" and the
  serialized error (`ClassifiersDisagree`, `StatusCodeOnlyInFirstPass`).
- **JSON-RPC indexer.**
  - It has no row cap.
  - It ignores a missing address.
  - It reads the interactor fields (`sender.address`, `owner.address`)
    from other places than the stored row (`transaction.data.sender`,
    `owner.AddressOwner`).
- **Address prefix.** Normalization strips only a lower-case `0x`, so
  `0XAB` and `0xab` normalize differently.
- **Symbols.** A type `p::m::SUI` from any module gets the symbol "SUI" in
  the asset tally, but it is not the native coin for the recent-transaction
  summary.

## Model

| member | source | states |
|---|---|---|
| Address.Normalize | src/lib/index-graphql.ts:134-139 | the result is empty exactly when the input is empty |
| Address.NormalizeShape | src/lib/index-graphql.ts:134-139 | a non-empty address becomes "0x" + zero padding + the lower-cased body; the length is 66 exactly when the body has at most 64 characters, and longer bodies are kept whole |
| Address.NormalizeIdempotent | src/lib/index-graphql.ts:134-139 | normalizing twice is the same as normalizing once |
| Address.PrefixOptional | src/lib/index-graphql.ts:136-138 | "0x" + body and body normalize alike |
| Address.CaseInsensitiveBody | src/lib/index-graphql.ts:134-139 | two non-empty addresses whose bodies (after the optional "0x") agree up to ASCII letter case normalize to the same address |
| Address.UpperCasePrefixKept | src/lib/index-graphql.ts:136-138 | "0XAB" and "0xab" normalize to different addresses |
| Strings.IndexOf | src/lib/stats.ts:99 | the found index is the first occurrence of the separator: it occurs there and at no earlier position; none is found exactly when the string does not contain it |
| Strings.LastSegmentProps | src/lib/stats.ts:99 | `split("::").pop()` is a suffix of the string and contains no "::"; a string without "::" is returned whole; otherwise the segment is immediately preceded by "::" in the string |
| Strings.ToLower | src/lib/index-graphql.ts:138 | same length, no upper-case ASCII letter left, each of 'A'..'Z' becomes the matching 'a'..'z', other characters unchanged |
| Strings.PadStart | src/lib/index-graphql.ts:137 | the length is max(length, n), the string is a suffix, and the prefix is all pad characters |
| Seqs.DedupMembers | src/lib/rpc-switcher.ts:182 | `Array.from(new Set(s))` has no repeats and the same members as s |
| Seqs.DedupOfNoDup | src/lib/rpc-switcher.ts:182 | deduplicating a repeat-free list returns it unchanged |
| Seqs.DedupPrefix | src/lib/index-graphql.ts:146-166 | adding elements to a set never reorders those already read back |
| Seqs.CountPositive | src/lib/stats.ts:76-78 | an element occurs a positive number of times exactly when it is in the list |
| Seqs.SumBump | src/lib/stats.ts:70-73 | raising one bucket by one raises the sum by one |
| Seqs.SortDescProps | src/lib/stats.ts:122-123 | the stable descending sort is ordered, is a permutation, and keeps equal keys in input order |
| Seqs.InsertDescProps | src/lib/stats.ts:122-123 | inserting one element into a sorted list keeps it sorted and adds exactly that element |
| Seqs.InsertDescWithKey | src/lib/stats.ts:122-123 | among the elements with any one key, the inserted element comes first and the others keep their order (so the sort, which inserts each element in front of the later ones, is stable) |
| Seqs.TopOfSorted | src/lib/stats.ts:122-124 | the first k of the sorted list number min(k, n), are ordered, come from the input, and none left out is larger |
| Interactors.RecipientsMembers | src/lib/index-graphql.ts:154-164 | a raw owner is collected exactly when some change credits it with a positive amount and it is not the wallet |
| Interactors.NoOwnersNoRecipients | src/lib/index.ts:116-126 | changes without an owner address credit nobody |
| Interactors.ExtractInteractors | src/lib/index-graphql.ts:141-167 | no sender gives no interactors; a sender other than the wallet is the whole list; when the wallet sent, the list is each crediting owner once, in first-seen order; never a repeat |
| Stats.SymbolShape | src/lib/stats.ts:97-99 | a symbol is never empty; the native coin is "SUI"; another type gives "Unknown" exactly when its last segment is empty (or is "Unknown"), and otherwise that segment: a "::"-free suffix preceded by "::" when the type has one; a non-empty type without "::" is its own symbol |
| Stats.LookalikeSymbol | src/lib/stats.ts:97-99 | `pkg::mod::SUI` with mod other than `sui` gets the symbol "SUI" yet fails the native-coin test |
| Stats.NotNativeType | src/lib/stats.ts:97-98 | such a type fails the native-coin test |
| Stats.Add | src/lib/stats.ts:104 | `map.set(k, (map.get(k) || 0) + d)` changes only k's value, by d, keeps keys unique, and appends a new key after the existing ones in insertion order |
| Stats.TopEntries | src/lib/stats.ts:122-130 | the top list has min(5, n) entries in non-increasing order, taken from the tally, and no entry left out beats a kept one |
| Stats.TopTiesKeepInsertionOrder | src/lib/stats.ts:122-123 | entries with equal values keep the tally's insertion order |
| Stats.Fold | src/lib/stats.ts:65-119 | the activity histogram always has 12 buckets |
| Stats.Histogram | src/lib/stats.ts:65-73 | each bucket counts the transactions of its month, and the buckets add up to the transaction count |
| Stats.FlowConservation | src/lib/stats.ts:86-111 | over one transaction's changes, the volume grows by the SUI volume and equals the inflow growth plus the outflow growth, which also equals the growth of the SUI asset total |
| Stats.CountAllValid | src/lib/stats.ts:76-78 | counting a list adds each person's number of occurrences |
| Stats.VolumeConservation | src/lib/stats.ts:84-113 | over all rows, volume = inflow + outflow, both non-negative, the SUI asset total equals the volume, and the volume is the sum of the per-transaction SUI volumes |
| Stats.InteractionCounts | src/lib/stats.ts:75-78 | each counterparty's count is its number of occurrences across all `interactedWith` lists |
| Stats.BiggestTx | src/lib/stats.ts:115-118 | the biggest amount bounds every transaction's volume; when positive it belongs to the first transaction that reaches it, whose digest is kept; when zero the hash is "" |
| Stats.FoldBiggest | src/lib/stats.ts:113-118 | the fold's biggest amount and hash are those of a direct scan that replaces only on a strictly larger volume |
| Stats.BiggestOfProps | src/lib/stats.ts:115-118 | that scan finds an amount bounding every volume, reached first by the transaction whose digest it keeps, or 0 and "" |
| Stats.TxStepBiggest | src/lib/stats.ts:115-118 | one transaction replaces the biggest only when strictly larger |
| Stats.TxStepMeaning | src/lib/stats.ts:67-113 | one row adds one to its month's bucket and nothing to the others, its occurrence count to each counterparty, and its SUI volume to the volume, to the "SUI" asset total and, split by sign, to inflow plus outflow; a row whose changes are not an array leaves assets and flows alone |
| Stats.ArchetypePriority | src/lib/stats.ts:227-238 | the first matching rule wins: Whale exactly above 100000; Degen, Banker, Ghost and Normie only when their rule holds and every earlier one failed |
| Stats.WhaleBeforeGhost | src/lib/stats.ts:233-236 | a high-volume wallet with three transactions is a Whale, not a Ghost |
| Stats.WhaleInBaseUnits | src/lib/stats.ts:102 | the 100000 SUI threshold is 10^14 base units |
| Stats.RankPercentile | src/lib/stats.ts:175-178 | the rank is at least 1 |
| Stats.RankMonotone | src/lib/stats.ts:175-178 | a larger log-volume never gives a larger rank |
| Stats.FirstSuiChange | src/lib/stats.ts:143-146 | `find` returns the first change with the native coin type, or nothing when none has it |
| Stats.SummarizeAllProps | src/lib/stats.ts:137-164 | the recent list succeeds exactly when every row's changes are an array; then it has one entry per row, each the row's summary |
| Stats.SummarizeMeaning | src/lib/stats.ts:137-164 | a summary keeps the hash and time; SEND exactly when there is no native change or the first one is negative; the counterparty is the sender, or else the first interactor, or "Unknown" |
| Stats.CountInteractions | src/lib/stats.ts:76-78 | the loop computes the counting fold |
| Stats.ApplyChanges | src/lib/stats.ts:86-111 | the loop over balance changes computes the flow fold |
| Stats.AddTx | src/lib/stats.ts:67-119 | one pass of the outer loop body performs exactly the fold's step for that row |
| Stats.Aggregate | src/lib/stats.ts:55-178 | the whole aggregation pass returns the snapshot the fold specifies, or its failure |
| Stats.StatsFailure | src/lib/stats.ts:137-146 | the aggregation fails exactly when one of the ten most recent rows has changes that are not an array |
| Stats.SnapshotFacts | src/lib/stats.ts:121-178 | txCount is the row count; 12 months Jan..Dec summing to the row count; volume = inflow + outflow; the biggest amount bounds every transaction; both top lists have at most 5 entries and are sorted; min(10, n) recent entries, in row order; rank at least 1 |
| Stats.EmptyWallet | src/lib/stats.ts:55-178 | no rows give zero volume, no assets, no biggest hash, no recent entries and the Ghost archetype |
| Store.InsertAllProps | src/lib/index-graphql.ts:109-112 | skip-duplicates insertion never changes a stored row; the table holds the old keys plus the new digests; the new keys are those not stored before, each once |
| Store.InsertAllFirstWins | src/lib/index-graphql.ts:109-112 | a new digest holds the first row that carries it |
| Store.InsertAllAppend | src/lib/index-graphql.ts:109-112 | two batches insert like their concatenation |
| Store.BatchAfter | src/lib/index-graphql.ts:109-114 | storing a page after earlier pages leaves the table and its order as if all their rows had been stored at once |
| Store.NothingNew | src/lib/index-graphql.ts:109-112 | rows whose digests are all stored insert nothing |
| Store.InsertAllIdempotent | src/lib/index-graphql.ts:109-112 | inserting the same rows again changes nothing |
| Store.RowsOf | src/lib/stats.ts:43-45 | every row returned belongs to the user, and every stored row of the user is returned |
| Store.SortedRows | src/lib/stats.ts:43-53 | the user's rows newest first are sorted, are a permutation of the stored ones, and are complete |
| Store.Db.CreateMany | src/lib/index-graphql.ts:109-112 | the table and its insertion order are the skip-duplicates insertion of the rows; the users and stats are unchanged |
| Store.Db.InsertRow | src/lib/index-graphql.ts:109-112 | one row is stored only when its digest is new, appended to the order; the users and stats are unchanged |
| Store.Db.MarkUnindexed | src/lib/index-graphql.ts:53-57 | the user row becomes unindexed, keeping its lastIndexedAt, or is created |
| Store.Db.MarkIndexed | src/lib/stats.ts:221-224 | an existing user row becomes indexed (with the new time if one is given); a missing one is reported and nothing changes |
| Store.Db.SaveStats | src/lib/stats.ts:180-219 | the user's snapshot is replaced; nothing else changes |
| Store.Db.FindMany | src/lib/stats.ts:43-53 | the user's rows, newest first, a permutation of the stored ones, and all of them |
| StatsCache.CalculateAndCacheStats | src/lib/stats.ts:31-225 | a failed aggregation writes nothing; otherwise the snapshot of the stored rows is saved and the user is marked indexed now, or the step fails when the user row is missing |
| GraphqlIndexer.RecordFallbacks | src/lib/index-graphql.ts:83-107 | a row keeps digest and address; a present timestamp, sender, coin type or owner is kept; a missing timestamp becomes now, a missing sender or owner "", a missing coin type "Unknown"; one change per raw change with its amount; interactors without repeats |
| GraphqlIndexer.MapNodes | src/lib/index-graphql.ts:83-107 | the mapping loop produces the mapped rows |
| GraphqlIndexer.CrawlFromShape | src/lib/index-graphql.ts:60-122 | from any point, the loop asks for the given cursor and then each continuing page's end cursor; it stops on a thrown query, a missing address, an empty page, no next page or the cap |
| GraphqlIndexer.CrawlFromRows | src/lib/index-graphql.ts:83-114 | the rows handed to the store are the wallet's, and `totalIndexed` counts them |
| GraphqlIndexer.CrawlAllBatches | src/lib/index-graphql.ts:60-122 | the rows handed to the store are the mapped nodes of the pages fetched, page after page, and their number is the sum of the page sizes |
| GraphqlIndexer.CrawlShape | src/lib/index-graphql.ts:60-122 | the crawl starts with a null cursor and chains end cursors; it is incomplete exactly when a query threw; the rows stored are the mapped nodes of the pages fetched, all for the wallet, and `totalIndexed` is the sum of the page sizes |
| GraphqlIndexer.CrawlFromCap | src/lib/index-graphql.ts:114-121 | with full pages, the number of queries stays within cap / page size |
| GraphqlIndexer.CapBoundsQueries | src/lib/index-graphql.ts:121 | with full pages, at most four queries are made |
| GraphqlIndexer.StorePage | src/lib/index-graphql.ts:83-114 | a page's nodes are mapped and stored, skipping duplicates, and the stored count is the number of nodes |
| GraphqlIndexer.RunPages | src/lib/index-graphql.ts:59-122 | the page loop queries the cursors of the crawl, reports whether it completed, and inserts the crawl's rows, skipping duplicates |
| GraphqlIndexer.IndexUser | src/lib/index-graphql.ts:45-130 | the wallet is marked unindexed; the crawl's rows are inserted; statistics run exactly when no query threw; a thrown query or failed statistics leave the wallet unindexed and the snapshots as they were; on success the snapshot of the stored rows is saved and the wallet is indexed now; no other user row changes |
| RpcIndexer.InteractorsIgnoreStoredFields | src/lib/index.ts:42-65 | the stored sender comes from `transaction.data.sender`, but without `sender.address` there are no interactors; without any `owner.address` there is at most the sender |
| RpcIndexer.RecordFallbacks | src/lib/index.ts:42-65 | a row keeps digest and address; a present timestamp, sender, coin type or `AddressOwner` is kept; a missing timestamp becomes now, a missing sender or `AddressOwner` "", a missing coin type "Unknown"; one change per raw change with its amount; interactors without repeats |
| RpcIndexer.MapNodes | src/lib/index.ts:42-65 | the mapping loop produces the mapped rows |
| RpcIndexer.CrawlFromShape | src/lib/index.ts:23-80 | from any point, the loop asks for the given cursor and then each continuing page's `nextCursor`, unchanged; it stops only on a thrown query, an empty page or no next page |
| RpcIndexer.CrawlFromRows | src/lib/index.ts:42-72 | the rows handed to the store are the wallet's, and `totalIndexed` counts them |
| RpcIndexer.CrawlAllBatches | src/lib/index.ts:23-80 | the rows handed to the store are the mapped transactions of the pages fetched, page after page, and their number is the sum of the page sizes |
| RpcIndexer.CrawlShape | src/lib/index.ts:23-80 | the crawl starts with a null cursor and chains next cursors; it is incomplete exactly when a query threw; the rows stored are the mapped transactions of the pages fetched, all for the wallet, and `totalIndexed` is the sum of the page sizes |
| RpcIndexer.NoCap | src/lib/index.ts:23-80 | as long as pages continue, every one is fetched: there is no row cap |
| RpcIndexer.StorePage | src/lib/index.ts:42-72 | a page's transactions are mapped and stored, skipping duplicates, and the stored count is their number |
| RpcIndexer.RunPages | src/lib/index.ts:22-80 | the page loop queries the cursors of the crawl, reports whether it completed, and inserts the crawl's rows, skipping duplicates |
| RpcIndexer.CacheAndConfirm | src/lib/index.ts:82-88 | the statistics step and the second `isIndexed` update: a failure writes nothing; success saves the snapshot and leaves the wallet indexed at the time the statistics step set |
| RpcIndexer.IndexUser | src/lib/index.ts:8-92 | as for GraphQL; the second `isIndexed` update keeps the time set by the statistics step |
| RpcSwitch.RetryClassifierNarrower | src/lib/rpc-switcher.ts:141-144 | every error the backoff loop treats as a rate limit, the first pass does too |
| RpcSwitch.MessageOnlyRateLimit | src/lib/rpc-switcher.ts:93-100 | a message mentioning only "Too Many Requests" rotates in the first pass but aborts a retry |
| RpcSwitch.ClassifiersDisagree | src/lib/rpc-switcher.ts:93-100 | the error with message "Too Many Requests" is a rate limit only for the first pass |
| RpcSwitch.StatusCodeOnlyInFirstPass | src/lib/rpc-switcher.ts:142-144 | a `statusCode` 429 alone is a rate limit only for the first pass |
| RpcSwitch.Wait | src/lib/rpc-switcher.ts:125-152 | every wait is between 2 and 32 seconds |
| RpcSwitch.WaitSchedule | src/lib/rpc-switcher.ts:125-152 | the waits are 2, 4, 8, 16 and 32 seconds |
| RpcSwitch.FirstPassFaithful | src/lib/rpc-switcher.ts:82-120 | the rotating pass meets the run characterisation |
| RpcSwitch.BackoffFaithful | src/lib/rpc-switcher.ts:129-157 | the backoff loop meets the run characterisation |
| RpcSwitch.CallFaithful | src/lib/rpc-switcher.ts:64-158 | the whole call tries the endpoints in rotation from the starting index, then up to five retries at the starting index after the scheduled waits; it returns the first success or the first error that is not a rate limit, else the last first-pass error |
| RpcSwitch.CallBounds | src/lib/rpc-switcher.ts:64-158 | at most n + 5 attempts, n rotations and 5 waits, and the index ends in range |
| RpcSwitch.CallEarlyExit | src/lib/rpc-switcher.ts:82-118 | a first-attempt success or other error returns at once, with no rotation and no wait |
| RpcSwitch.BackoffOnlyAfterFullPass | src/lib/rpc-switcher.ts:122-134 | a wait happens only after every endpoint was rate limited, and the index is reset to the start |
| RpcSwitch.AllRateLimited | src/lib/rpc-switcher.ts:122-157 | when everything is rate limited: n + 5 attempts, waits 2..32 seconds, n rotations, the index back at the start, and the last first-pass error is thrown |
| RpcSwitch.NonEmpty | src/lib/rpc-switcher.ts:17 | the kept URLs are exactly the non-empty ones |
| RpcSwitch.NonEmptyAppend | src/lib/rpc-switcher.ts:17 | the filter keeps the order: it distributes over concatenation |
| RpcSwitch.NonEmptyKeepsAll | src/lib/rpc-switcher.ts:17 | a list without empty URLs passes the filter whole |
| RpcSwitch.RateLimitSwitch.constructor | src/lib/rpc-switcher.ts:15-24 | one client per URL, index and counters at zero |
| RpcSwitch.RateLimitSwitch.Create | src/lib/rpc-switcher.ts:15-24 | construction fails exactly when every URL is empty; otherwise it keeps the non-empty URLs in order |
| RpcSwitch.RateLimitSwitch.CurrentClient | src/lib/rpc-switcher.ts:161-163 | the current client's URL is the current, non-empty URL |
| RpcSwitch.RateLimitSwitch.ExecuteWithRetry | src/lib/rpc-switcher.ts:64-158 | the two retry loops produce the call's outcome, attempts and waits; the index ends where the call leaves it; one more request and one rotation per rate-limited first-pass attempt are counted |
| RpcSwitch.RateLimitSwitch.RotatePass | src/lib/rpc-switcher.ts:81-120 | the rotating loop either ends the call as the run description does, or leaves every endpoint rate limited, n rotations counted and the index back at the start |
| RpcSwitch.RateLimitSwitch.RetryBackoff | src/lib/rpc-switcher.ts:122-157 | the backoff loop produces the backoff phase of the run description, at the start endpoint, with no rotation |
| RpcSwitch.DefaultEndpointsDistinct | src/lib/rpc-switcher.ts:168-182 | the ten default URLs are distinct and non-empty, so deduplicating and filtering keep all ten |
| RpcSwitch.CreateDefault | src/lib/rpc-switcher.ts:167-187 | the factory's switch has the ten default URLs and starts at the first |

## Left out

- **Concurrency and proxying** are not modelled: the `p-limit` concurrency limiter and the `Proxy` that forwards `SuiClient` methods. Each call is modelled as one `ExecuteWithRetry`. Interleaved callers that share `currentIndex` are not modelled.
- **Time, logging and sleeping** are left out: the log lines, `Date.now()`, the ten-second statistics log and the `setTimeout` sleeps. The waits are returned as a list instead.
- **Remote calls** are inputs; the database is the `Store.Db` object.
  - A remote call is an `Operation`: a function from the attempt number and endpoint index to an outcome.
  - Query results are a scripted sequence of pages.
  - `JSON.stringify(error)` is a field of the error, so an error it cannot serialize is not modelled. On an error with circular references `JSON.stringify` throws, and on a thrown `undefined` it returns `undefined`, whose `includes` then throws (src/lib/rpc-switcher.ts:92, 98). In both cases `executeWithRetry` rejects with a `TypeError` before classifying, rather than rotating or rethrowing the original error.
  - The current time is a parameter.
- **`Store.Db`**: database reads and writes are assumed to succeed. A thrown Prisma call is not modelled, whether it sits outside the indexer's `try` (the first `user.upsert`, src/lib/index-graphql.ts:53-57 and src/lib/index.ts:16-20, whose error escapes `indexUser`) or inside it (`transaction.createMany`, whose failure would end the crawl before statistics run). The only database failure modelled is `user.update` on a missing user row.
- **`StatsCache.CalculateAndCacheStats`** assumes `findMany` and `userStats.upsert` succeed; a thrown Prisma call there is not modelled. Its only failures are an aggregation failure and `user.update` on a missing user row.
- **`GraphqlIndexer.IndexUser`** promises that statistics run exactly when no query threw. This holds in the model only because database writes cannot fail; a thrown `user.upsert` or `transaction.createMany` is not modelled.
- **`RpcIndexer.IndexUser`** makes the same promise under the same assumption: a thrown `user.upsert`, `transaction.createMany` or `user.update` is not modelled.
- **Month and logarithm** are parameters: the month of a timestamp (`getMonth`, which depends on the time zone) and the natural logarithm.
- **Floating point.** Amounts stay in integer base units instead of floating-point SUI. The archetype and the rank take their `/ 1e9` values as exact reals, so rounding is not modelled.
- **Peak day** is not part of this model: the SQL query and the stored `peakDay` and `peakDayCount`.
- **Stored strings.** The archetype's display name and emoji, and the constant `symbol` and `success` fields of a recent transaction, are not stored.
- **Parse errors.** Errors from `BigInt(..)` and `new Date(..)` on malformed input are not modelled. The raw amounts and timestamps are already integers.
- **Status codes.** Only the value 429 of the error status fields is modelled.
- **`Strings.ToLower`** folds ASCII letters only. JavaScript's `toLowerCase` also folds non-ASCII letters.
- **Database ordering.** `findMany` returns rows with equal timestamps in insertion order. The database does not promise this order.
- **`RpcIndexer.IndexUser` and `GraphqlIndexer.IndexUser`** end with the same state. The JSON-RPC variant's extra update is proved to keep the time that the statistics step set.
- **Thrown errors.** After a thrown query or a failed statistics step, the returned result is `None` or a `Failure`. The source only logs the error.
- **`Stats.RankPercentile`** states only the lower bound and monotonicity, not the exact value, because the logarithm is a parameter.
