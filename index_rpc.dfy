/** The JSON-RPC indexer (`indexUser` in `index.ts`): the same page loop as
    the GraphQL one but without a row cap or an address check, a different
    raw shape, and a second `isIndexed` update after the statistics. */
module RpcIndexer {
  import opened Wrappers
  import opened Seqs
  import opened Strings
  import opened Address
  import opened Records
  import opened Interactors
  import opened Stats
  import opened Store
  import opened StatsCache

  /** A raw balance change: `amount`, `coinType`, `owner?.AddressOwner` (what
      the row stores) and `owner?.address` (what the interactor rule reads). */
  datatype RpcChange = RpcChange(amount: int, coinType: Option<string>, addressOwner: Option<string>, ownerAddress: Option<string>)

  /** A raw transaction block: `digest`, `timestampMs` (parsed; `None` when
      absent or empty), `balanceChanges` (empty when absent),
      `transaction?.data?.sender` (what the row stores) and `sender?.address`
      (what the interactor rule reads). */
  datatype RpcNode = RpcNode(digest: string, timestampMs: Option<int>, changes: seq<RpcChange>,
                             dataSender: Option<string>, senderAddress: Option<string>)

  /** One `queryTransactionBlocks` response. */
  datatype RpcPage = RpcPage(data: seq<RpcNode>, hasNextPage: bool, nextCursor: Option<string>)

  // ------------------------------------------------------------ row mapping

  function OwnersOf(cs: seq<RpcChange>): seq<OwnerAmount>
  {
    seq(|cs|, i requires 0 <= i < |cs| => OwnerAmount(cs[i].ownerAddress, cs[i].amount))
  }

  /** `coinType || "Unknown"`, `owner?.AddressOwner || ""`. */
  function CleanChange(c: RpcChange): BalanceChange
  {
    BalanceChange(c.amount, TypeString(OrElse(c.coinType, "Unknown")), OrElse(c.addressOwner, ""))
  }

  function RecordOf(node: RpcNode, address: string, now: int): TxRecord
  {
    TxRecord(
      node.digest,
      if node.timestampMs.Some? then node.timestampMs.value else now,
      OrElse(node.dataSender, ""),
      address,
      InteractorsOf(node.senderAddress, address, OwnersOf(node.changes)),
      Some(seq(|node.changes|, i requires 0 <= i < |node.changes| => CleanChange(node.changes[i]))))
  }

  function RecordsOf(nodes: seq<RpcNode>, address: string, now: int): seq<TxRecord>
  {
    seq(|nodes|, i requires 0 <= i < |nodes| => RecordOf(nodes[i], address, now))
  }

  /** The stored row takes its sender from `transaction.data.sender` and its
      owners from `AddressOwner`, while the interactor rule reads
      `sender.address` and `owner.address`: without `sender.address` the
      interactors are empty whatever sender is stored, and without any
      `owner.address` a transaction sent by the wallet has none either. */
  lemma InteractorsIgnoreStoredFields(node: RpcNode, address: string, now: int)
    ensures var r := RecordOf(node, address, now);
      && r.sender == OrElse(node.dataSender, "")
      && (!Truthy(node.senderAddress) ==> r.interactedWith == [])
      && ((forall i :: 0 <= i < |node.changes| ==> node.changes[i].ownerAddress.None?) ==>
            r.interactedWith == [] || r.interactedWith == [node.senderAddress.value])
  {
    var owners := OwnersOf(node.changes);
    var normUser := Normalize(address);
    if forall i :: 0 <= i < |node.changes| ==> node.changes[i].ownerAddress.None? {
      NoOwnersNoRecipients(owners, normUser);
    }
  }

  /** The fallbacks of the mapping, as in the GraphQL twin: present values
      are kept; a missing timestamp becomes `now`, a missing sender or
      `AddressOwner` becomes "", a missing coin type becomes "Unknown". */
  lemma RecordFallbacks(node: RpcNode, address: string, now: int)
    ensures var r := RecordOf(node, address, now);
      && r.digest == node.digest && r.userAddress == address
      && (node.timestampMs.Some? ==> r.timestamp == node.timestampMs.value)
      && (node.timestampMs.None? ==> r.timestamp == now)
      && (Truthy(node.dataSender) ==> r.sender == node.dataSender.value)
      && (!Truthy(node.dataSender) ==> r.sender == "")
      && r.balanceChanges.Some? && |r.balanceChanges.value| == |node.changes|
      && (forall i :: 0 <= i < |node.changes| ==>
            var c := r.balanceChanges.value[i];
            var raw := node.changes[i];
            && c.amount == raw.amount
            && c.coinType.TypeString?
            && (Truthy(raw.coinType) ==> c.coinType.s == raw.coinType.value)
            && (!Truthy(raw.coinType) ==> c.coinType.s == "Unknown")
            && (Truthy(raw.addressOwner) ==> c.owner == raw.addressOwner.value)
            && (!Truthy(raw.addressOwner) ==> c.owner == ""))
      && NoDup(r.interactedWith)
  {
    var owners := OwnersOf(node.changes);
    var normUser := Normalize(address);
    if Truthy(node.senderAddress) && Normalize(node.senderAddress.value) == normUser {
      DedupMembers(Recipients(owners, normUser));
    }
  }

  lemma RecordsOfAppend(nodes: seq<RpcNode>, node: RpcNode, address: string, now: int)
    ensures RecordsOf(nodes + [node], address, now) == RecordsOf(nodes, address, now) + [RecordOf(node, address, now)]
  {
  }

  method MapNodes(nodes: seq<RpcNode>, address: string, now: int) returns (rows: seq<TxRecord>)
    ensures rows == RecordsOf(nodes, address, now)
  {
    rows := [];
    var i := 0;
    while i < |nodes|
      invariant i <= |nodes|
      invariant rows == RecordsOf(nodes[..i], address, now)
    {
      var node := nodes[i];
      var timestamp := now;
      if node.timestampMs.Some? {
        timestamp := node.timestampMs.value;
      }
      var clean := seq(|node.changes|, j requires 0 <= j < |node.changes| => CleanChange(node.changes[j]));
      var interactors := ExtractInteractors(node.senderAddress, address, OwnersOf(node.changes));
      var row := TxRecord(node.digest, timestamp, OrElse(node.dataSender, ""), address, interactors, Some(clean));
      assert row == RecordOf(node, address, now);
      RecordsOfAppend(nodes[..i], node, address, now);
      rows := rows + [row];
      assert nodes[..i + 1] == nodes[..i] + [node];
      i := i + 1;
    }
    assert nodes[..i] == nodes;
  }

  // --------------------------------------------------- the crawl, as a value

  datatype Crawl = Crawl(rows: seq<TxRecord>, requested: seq<Option<string>>, total: nat, completed: bool)

  predicate Continues(p: Option<RpcPage>) {
    p.Some? && p.value.data != [] && p.value.hasNextPage
  }

  /** The loop from the query with `cursor`; the next cursor is
      `nextCursor ?? null`, so an empty cursor is passed on as it is. */
  function CrawlFrom(pages: seq<Option<RpcPage>>, address: string, now: int, cursor: Option<string>,
                     total: nat, rows: seq<TxRecord>, requested: seq<Option<string>>): Crawl
    decreases |pages|
  {
    var asked := requested + [cursor];
    if pages == [] || pages[0].None? then Crawl(rows, asked, total, false)
    else
      var p := pages[0].value;
      if p.data == [] then Crawl(rows, asked, total, true)
      else
        var batch := RecordsOf(p.data, address, now);
        var total' := total + |p.data|;
        if !p.hasNextPage then Crawl(rows + batch, asked, total', true)
        else CrawlFrom(pages[1..], address, now, p.nextCursor, total', rows + batch, asked)
  }

  function CrawlAll(pages: seq<Option<RpcPage>>, address: string, now: int): Crawl
  {
    CrawlFrom(pages, address, now, None, 0, [], [])
  }

  // One step of the crawl, case by case.

  lemma CrawlFromThrows(pages: seq<Option<RpcPage>>, address: string, now: int, cursor: Option<string>,
                        total: nat, rows: seq<TxRecord>, requested: seq<Option<string>>)
    requires pages == [] || pages[0].None?
    ensures CrawlFrom(pages, address, now, cursor, total, rows, requested) == Crawl(rows, requested + [cursor], total, false)
  {
  }

  lemma CrawlFromEnds(pages: seq<Option<RpcPage>>, address: string, now: int, cursor: Option<string>,
                      total: nat, rows: seq<TxRecord>, requested: seq<Option<string>>)
    requires pages != [] && pages[0].Some? && pages[0].value.data == []
    ensures CrawlFrom(pages, address, now, cursor, total, rows, requested) == Crawl(rows, requested + [cursor], total, true)
  {
  }

  lemma CrawlFromStep(pages: seq<Option<RpcPage>>, address: string, now: int, cursor: Option<string>,
                      total: nat, rows: seq<TxRecord>, requested: seq<Option<string>>)
    requires pages != [] && pages[0].Some? && pages[0].value.data != []
    ensures var p := pages[0].value;
      var total' := total + |p.data|;
      var rows' := rows + RecordsOf(p.data, address, now);
      CrawlFrom(pages, address, now, cursor, total, rows, requested)
        == if !p.hasNextPage then Crawl(rows', requested + [cursor], total', true)
           else CrawlFrom(pages[1..], address, now, p.nextCursor, total', rows', requested + [cursor])
  {
  }

  /** Where the crawl `c` stands, given the `n` cursors asked before the
      query with the last cursor of `prefix`: it asked `prefix`, then each
      continuing page's next cursor, and it stopped on a thrown query or on
      a page after which the loop does not go on. */
  ghost predicate Shaped(pages: seq<Option<RpcPage>>, c: Crawl, n: nat, prefix: seq<Option<string>>)
  {
    var last := |c.requested| - n - 1;
    && n < |c.requested| <= n + |pages| + 1
    && c.requested[..n + 1] == prefix
    && (forall k :: 0 <= k < last ==>
          k < |pages| && Continues(pages[k]) && c.requested[n + k + 1] == pages[k].value.nextCursor)
    && (!c.completed <==> last >= |pages| || pages[last].None?)
    && (c.completed ==> !Continues(pages[last]))
  }

  /** A continuing first page puts its next cursor after the prefix. */
  lemma ShapedStep(pages: seq<Option<RpcPage>>, c: Crawl, n: nat, prefix: seq<Option<string>>)
    requires pages != [] && Continues(pages[0]) && |prefix| == n + 1
    requires Shaped(pages[1..], c, n + 1, prefix + [pages[0].value.nextCursor])
    ensures Shaped(pages, c, n, prefix)
  {
    assert c.requested[..n + 1] == c.requested[..n + 2][..n + 1];
    assert c.requested[n + 1] == (prefix + [pages[0].value.nextCursor])[n + 1];
    forall k | 0 <= k < |c.requested| - n - 1
      ensures k < |pages| && Continues(pages[k]) && c.requested[n + k + 1] == pages[k].value.nextCursor
    {
      if k > 0 {
        assert k - 1 < |c.requested| - (n + 1) - 1;
        assert pages[k] == pages[1..][k - 1];
      }
    }
    var last := |c.requested| - n - 1;
    if last < |pages| {
      assert pages[last] == pages[1..][last - 1];
    }
  }

  lemma {:induction false} CrawlFromShape(pages: seq<Option<RpcPage>>, address: string, now: int,
                                          cursor: Option<string>, total: nat, rows: seq<TxRecord>,
                                          requested: seq<Option<string>>)
    ensures Shaped(pages, CrawlFrom(pages, address, now, cursor, total, rows, requested), |requested|, requested + [cursor])
    decreases |pages|
  {
    var asked := requested + [cursor];
    if pages == [] || pages[0].None? {
      CrawlFromThrows(pages, address, now, cursor, total, rows, requested);
    } else if !(pages[0].value.data != []) {
      CrawlFromEnds(pages, address, now, cursor, total, rows, requested);
    } else {
      var p := pages[0].value;
      var total' := total + |p.data|;
      var rows' := rows + RecordsOf(p.data, address, now);
      CrawlFromStep(pages, address, now, cursor, total, rows, requested);
      if p.hasNextPage {
        CrawlFromShape(pages[1..], address, now, p.nextCursor, total', rows', asked);
        ShapedStep(pages, CrawlFrom(pages[1..], address, now, p.nextCursor, total', rows', asked), |requested|, asked);
      }
    }
  }

  /** The rows a fetched page hands to the store: its mapped data
      (none for a thrown query). */
  function PageRows(p: Option<RpcPage>, address: string, now: int): seq<TxRecord>
  {
    if p.Some? then RecordsOf(p.value.data, address, now) else []
  }

  /** The rows of the pages `ps`, one page after the other. */
  function Batches(ps: seq<Option<RpcPage>>, address: string, now: int): seq<TxRecord>
    decreases |ps|
  {
    if ps == [] then [] else PageRows(ps[0], address, now) + Batches(ps[1..], address, now)
  }

  /** The number of data the pages `ps` return, summed page by page. */
  function PageSizes(ps: seq<Option<RpcPage>>): nat
    decreases |ps|
  {
    if ps == [] then 0
    else (if ps[0].Some? then |ps[0].value.data| else 0) + PageSizes(ps[1..])
  }

  /** The rows of a run of pages are as many as the data they return. */
  lemma {:induction false} BatchesLength(ps: seq<Option<RpcPage>>, address: string, now: int)
    ensures |Batches(ps, address, now)| == PageSizes(ps)
    decreases |ps|
  {
    if ps != [] {
      BatchesLength(ps[1..], address, now);
    }
  }

  lemma BatchesCons(ps: seq<Option<RpcPage>>, q: nat, address: string, now: int)
    requires 1 <= q <= |ps|
    ensures Batches(ps[..q], address, now) == PageRows(ps[0], address, now) + Batches(ps[1..][..q - 1], address, now)
  {
    assert ps[..q][1..] == ps[1..][..q - 1];
  }

  /** A page's rows are the wallet's, one per node. */
  lemma BatchOwned(rows: seq<TxRecord>, nodes: seq<RpcNode>, address: string, now: int)
    requires forall r :: r in rows ==> r.userAddress == address
    ensures var all := rows + RecordsOf(nodes, address, now);
      |all| == |rows| + |nodes| && forall r :: r in all ==> r.userAddress == address
  {
    var batch := RecordsOf(nodes, address, now);
    forall r | r in rows + batch ensures r.userAddress == address {
      if r !in rows {
        var i :| 0 <= i < |batch| && batch[i] == r;
      }
    }
  }

  /** The crawl hands the store only the wallet's rows, and `totalIndexed`
      counts them. */
  lemma {:induction false} CrawlFromRows(pages: seq<Option<RpcPage>>, address: string, now: int,
                                         cursor: Option<string>, total: nat, rows: seq<TxRecord>,
                                         requested: seq<Option<string>>)
    requires total == |rows| && forall r :: r in rows ==> r.userAddress == address
    ensures var c := CrawlFrom(pages, address, now, cursor, total, rows, requested);
      c.total == |c.rows| && forall r :: r in c.rows ==> r.userAddress == address
    decreases |pages|
  {
    if pages != [] && pages[0].Some? && pages[0].value.data != [] {
      var p := pages[0].value;
      var batch := RecordsOf(p.data, address, now);
      BatchOwned(rows, p.data, address, now);
      CrawlFromStep(pages, address, now, cursor, total, rows, requested);
      CrawlFromRows(pages[1..], address, now, p.nextCursor, total + |p.data|, rows + batch, requested + [cursor]);
    }
  }

  /** The rows of the first `k` pages (of all of them when there are
      fewer). */
  function FirstPagesRows(pages: seq<Option<RpcPage>>, k: nat, address: string, now: int): seq<TxRecord>
  {
    Batches(pages[..Min(k, |pages|)], address, now)
  }

  lemma FirstPagesRowsCons(pages: seq<Option<RpcPage>>, k: nat, address: string, now: int)
    requires pages != [] && k >= 1
    ensures FirstPagesRows(pages, k, address, now)
         == PageRows(pages[0], address, now) + FirstPagesRows(pages[1..], k - 1, address, now)
  {
    BatchesCons(pages, Min(k, |pages|), address, now);
  }

  /** The crawl `c`, begun after the cursors `requested` with `rows` already
      handed on, made between one and |pages| + 1 more queries and handed on
      the rows of the pages those queries fetched. */
  ghost predicate BatchesHandedOn(pages: seq<Option<RpcPage>>, c: Crawl, rows: seq<TxRecord>,
                                  requested: seq<Option<string>>, address: string, now: int)
  {
    && |requested| < |c.requested| <= |requested| + |pages| + 1
    && c.rows == rows + FirstPagesRows(pages, |c.requested| - |requested|, address, now)
  }

  /** The rows handed on are those of the pages the crawl fetched, one page
      per query made, in order. */
  lemma {:induction false} CrawlFromBatches(pages: seq<Option<RpcPage>>, address: string, now: int,
                                            cursor: Option<string>, total: nat, rows: seq<TxRecord>,
                                            requested: seq<Option<string>>)
    ensures BatchesHandedOn(pages, CrawlFrom(pages, address, now, cursor, total, rows, requested), rows, requested, address, now)
    decreases |pages|
  {
    if pages != [] && pages[0].Some? && pages[0].value.data != [] && pages[0].value.hasNextPage {
      var p := pages[0].value;
      CrawlFromBatches(pages[1..], address, now, p.nextCursor, total + |p.data|,
                       rows + RecordsOf(p.data, address, now), requested + [cursor]);
      BatchesStep(pages, address, now, cursor, total, rows, requested);
    } else {
      BatchesLast(pages, address, now, cursor, total, rows, requested);
    }
  }

  /** A continuing page: its rows come first, then those of the rest. */
  lemma BatchesStep(pages: seq<Option<RpcPage>>, address: string, now: int,
                    cursor: Option<string>, total: nat, rows: seq<TxRecord>,
                    requested: seq<Option<string>>)
    requires pages != [] && pages[0].Some? && pages[0].value.data != [] && pages[0].value.hasNextPage
    requires var p := pages[0].value;
      BatchesHandedOn(pages[1..],
        CrawlFrom(pages[1..], address, now, p.nextCursor, total + |p.data|, rows + RecordsOf(p.data, address, now), requested + [cursor]),
        rows + RecordsOf(p.data, address, now), requested + [cursor], address, now)
    ensures BatchesHandedOn(pages, CrawlFrom(pages, address, now, cursor, total, rows, requested), rows, requested, address, now)
  {
    var p := pages[0].value;
    var batch := RecordsOf(p.data, address, now);
    CrawlFromStep(pages, address, now, cursor, total, rows, requested);
    var rest := CrawlFrom(pages[1..], address, now, p.nextCursor, total + |p.data|, rows + batch, requested + [cursor]);
    var k := |rest.requested| - |requested|;
    var later := FirstPagesRows(pages[1..], k - 1, address, now);
    FirstPagesRowsCons(pages, k, address, now);
    ConcatAssoc(rows, batch, later);
  }

  /** The last query: a thrown one hands on nothing, an ending page its
      own rows. */
  lemma BatchesLast(pages: seq<Option<RpcPage>>, address: string, now: int,
                    cursor: Option<string>, total: nat, rows: seq<TxRecord>,
                    requested: seq<Option<string>>)
    requires !(pages != [] && pages[0].Some? && pages[0].value.data != [] && pages[0].value.hasNextPage)
    ensures BatchesHandedOn(pages, CrawlFrom(pages, address, now, cursor, total, rows, requested), rows, requested, address, now)
  {
    if pages == [] {
      CrawlFromThrows(pages, address, now, cursor, total, rows, requested);
    } else if pages[0].None? {
      CrawlFromThrows(pages, address, now, cursor, total, rows, requested);
      FirstPagesRowsCons(pages, 1, address, now);
    } else if pages[0].value.data == [] {
      CrawlFromEnds(pages, address, now, cursor, total, rows, requested);
      FirstPagesRowsCons(pages, 1, address, now);
      assert RecordsOf([], address, now) == [];
    } else {
      CrawlFromStep(pages, address, now, cursor, total, rows, requested);
      FirstPagesRowsCons(pages, 1, address, now);
    }
  }

  /** The crawl from the start stores the rows of the pages fetched, and
      `totalIndexed` is the sum of their sizes. */
  lemma CrawlAllBatches(pages: seq<Option<RpcPage>>, address: string, now: int)
    ensures var c := CrawlAll(pages, address, now);
      && 1 <= |c.requested|
      && c.rows == Batches(pages[..Min(|c.requested|, |pages|)], address, now)
      && |c.rows| == PageSizes(pages[..Min(|c.requested|, |pages|)])
  {
    CrawlFromBatches(pages, address, now, None, 0, [], []);
    var c := CrawlAll(pages, address, now);
    BatchesLength(pages[..Min(|c.requested|, |pages|)], address, now);
  }

  /** The cursor chain and the stop conditions of the crawl from the start. */
  lemma CrawlAllCursors(pages: seq<Option<RpcPage>>, address: string, now: int)
    ensures var c := CrawlAll(pages, address, now);
      var last := |c.requested| - 1;
      && 1 <= |c.requested| <= |pages| + 1
      && c.requested[0] == None
      && (forall k :: 0 <= k < last ==> Continues(pages[k]) && c.requested[k + 1] == pages[k].value.nextCursor)
      && (!c.completed <==> last >= |pages| || pages[last].None?)
      && (c.completed ==> !Continues(pages[last]))
  {
    CrawlFromShape(pages, address, now, None, 0, [], []);
    var c := CrawlAll(pages, address, now);
    assert c.requested[..1] == [None];
  }

  /** The crawl starts with the null cursor, passes each page's
      `nextCursor` to the next query, and ends only on a thrown query, an
      empty page or a page without a next one: there is no row cap. The rows
      handed to the store are those of the pages fetched, all the wallet's,
      and `totalIndexed` is the sum of their sizes. */
  lemma CrawlShape(pages: seq<Option<RpcPage>>, address: string, now: int)
    ensures var c := CrawlAll(pages, address, now);
      var last := |c.requested| - 1;
      && 1 <= |c.requested| <= |pages| + 1
      && c.requested[0] == None
      && (forall k :: 0 <= k < last ==> Continues(pages[k]) && c.requested[k + 1] == pages[k].value.nextCursor)
      && (!c.completed <==> last >= |pages| || pages[last].None?)
      && (c.completed ==> !Continues(pages[last]))
      && c.total == |c.rows|
      && (forall r :: r in c.rows ==> r.userAddress == address)
      && c.rows == Batches(pages[..Min(|c.requested|, |pages|)], address, now)
      && c.total == PageSizes(pages[..Min(|c.requested|, |pages|)])
  {
    CrawlAllCursors(pages, address, now);
    CrawlFromRows(pages, address, now, None, 0, [], []);
    CrawlAllBatches(pages, address, now);
  }

  /** No cap: as long as the pages have rows and a next page, every one of
      them is fetched (however many rows that makes). */
  lemma NoCap(pages: seq<Option<RpcPage>>, address: string, now: int)
    requires forall k :: 0 <= k < |pages| ==> Continues(pages[k])
    ensures |CrawlAll(pages, address, now).requested| == |pages| + 1
    ensures !CrawlAll(pages, address, now).completed
  {
    CrawlShape(pages, address, now);
  }

  // ------------------------------------------------------------ the loop

  /** Maps one page's transactions to rows and stores them, skipping digests
      already present; `base` is the table before the crawl and `rows` the
      rows stored since. */
  method StorePage(db: Db, nodes: seq<RpcNode>, address: string, now: int,
                   ghost base: map<string, TxRecord>, ghost baseOrder: seq<string>, ghost rows: seq<TxRecord>)
    returns (stored: nat)
    requires db.Valid()
    requires db.txs == InsertAll(base, rows) && db.order == baseOrder + NewKeys(base, rows)
    modifies db
    ensures db.Valid()
    ensures stored == |nodes|
    ensures var rows' := rows + RecordsOf(nodes, address, now);
      db.txs == InsertAll(base, rows') && db.order == baseOrder + NewKeys(base, rows')
    ensures db.users == old(db.users) && db.stats == old(db.stats)
  {
    var dbTransactions := MapNodes(nodes, address, now);
    db.CreateMany(dbTransactions);
    BatchAfter(base, baseOrder, rows, dbTransactions, db.txs, db.order);
    stored := |dbTransactions|;
  }

  /** The `while (hasNextPage)` loop of the JSON-RPC `indexUser`: queries
      page after page, passing each page's `nextCursor` on unchanged. */
  method RunPages(db: Db, address: string, pages: seq<Option<RpcPage>>, now: int)
    returns (requested: seq<Option<string>>, completed: bool)
    requires db.Valid()
    modifies db
    ensures db.Valid()
    ensures var c := CrawlAll(pages, address, now);
      && requested == c.requested && completed == c.completed
      && db.txs == InsertAll(old(db.txs), c.rows)
      && db.order == old(db.order) + NewKeys(old(db.txs), c.rows)
      && db.users == old(db.users) && db.stats == old(db.stats)
  {
    var hasNextPage := true;
    var cursor: Option<string> := None;
    var totalIndexed: nat := 0;
    ghost var rows: seq<TxRecord> := [];
    ghost var target := CrawlAll(pages, address, now);
    requested := [];
    var k := 0;
    while hasNextPage
      invariant k <= |pages|
      invariant db.Valid()
      invariant db.txs == InsertAll(old(db.txs), rows) && db.order == old(db.order) + NewKeys(old(db.txs), rows)
      invariant db.users == old(db.users) && db.stats == old(db.stats)
      invariant hasNextPage ==> CrawlFrom(pages[k..], address, now, cursor, totalIndexed, rows, requested) == target
      invariant !hasNextPage ==> Crawl(rows, requested, totalIndexed, true) == target
      decreases |pages| - k, hasNextPage
    {
      ghost var rest := pages[k..];
      ghost var asked := requested;
      requested := requested + [cursor];
      if k == |pages| || pages[k].None? {
        // the query threw
        CrawlFromThrows(rest, address, now, cursor, totalIndexed, rows, asked);
        return requested, false;
      }
      var response := pages[k].value;
      k := k + 1;
      assert rest[0] == Some(response) && rest[1..] == pages[k..];
      if response.data == [] {
        CrawlFromEnds(rest, address, now, cursor, totalIndexed, rows, asked);
        break;
      }
      CrawlFromStep(rest, address, now, cursor, totalIndexed, rows, asked);
      var stored := StorePage(db, response.data, address, now, old(db.txs), old(db.order), rows);
      rows := rows + RecordsOf(response.data, address, now);
      totalIndexed := totalIndexed + stored;
      hasNextPage := response.hasNextPage;
      cursor := response.nextCursor;
    }
    completed := true;
  }

  /** The statistics step for a wallet whose user row exists, followed on
      success by the second `isIndexed` update, which keeps the time the
      statistics step set. */
  method CacheAndConfirm(db: Db, address: string, now: int, monthOf: int -> Month, ln: real -> real)
    returns (r: Result<Snapshot, CacheError>)
    requires db.Valid() && address in db.users
    modifies db
    ensures db.Valid() && db.txs == old(db.txs) && db.order == old(db.order)
    ensures var expected := StatsFor(old(db.txs), old(db.order), address, monthOf, ln);
      && (expected.Failure? ==>
            r == Failure(AggregationFailed(expected.error))
            && db.stats == old(db.stats) && db.users == old(db.users))
      && (expected.Success? ==>
            r == Success(expected.value)
            && db.stats == old(db.stats)[address := expected.value]
            && db.users == old(db.users)[address := UserRow(true, Some(now))])
  {
    r := CalculateAndCacheStats(db, address, now, monthOf, ln);
    if r.Success? {
      var _ := db.MarkIndexed(address, None);
    }
  }

  /** `indexUser(inputAddress)` of the JSON-RPC variant: after the
      statistics step succeeds the user row is updated once more with
      `isIndexed: true` (keeping the `lastIndexedAt` the statistics step
      set); a thrown query or a failed statistics step leaves the wallet
      unindexed. */
  method IndexUser(db: Db, inputAddress: string, pages: seq<Option<RpcPage>>, now: int,
                   monthOf: int -> Month, ln: real -> real)
    returns (requested: seq<Option<string>>, result: Option<Result<Snapshot, CacheError>>)
    requires db.Valid()
    modifies db
    ensures db.Valid()
    ensures var address := Normalize(inputAddress);
      var c := CrawlAll(pages, address, now);
      var previous := if address in old(db.users) then old(db.users)[address].lastIndexedAt else None;
      && requested == c.requested
      && db.txs == InsertAll(old(db.txs), c.rows)
      && db.order == old(db.order) + NewKeys(old(db.txs), c.rows)
      && (result.Some? <==> c.completed)
      && address in db.users
      && (result.None? ==> db.users == old(db.users)[address := UserRow(false, previous)] && db.stats == old(db.stats))
      && (result.Some? ==> result.value != Failure(UserMissing))
      && (db.users[address].isIndexed <==> result.Some? && result.value.Success?)
      && (result.Some? && result.value.Failure? ==>
            db.users == old(db.users)[address := UserRow(false, previous)] && db.stats == old(db.stats))
      && (result.Some? && result.value.Success? ==>
            && StatsFor(db.txs, db.order, address, monthOf, ln) == Success(result.value.value)
            && db.stats == old(db.stats)[address := result.value.value]
            && db.users == old(db.users)[address := UserRow(true, Some(now))])
  {
    var address := Normalize(inputAddress);
    db.MarkUnindexed(address);
    ghost var marked := db.users;
    var completed;
    requested, completed := RunPages(db, address, pages, now);
    if !completed {
      return requested, None;
    }
    var stats := CacheAndConfirm(db, address, now, monthOf, ln);
    OverwriteUser(old(db.users), address, marked[address], UserRow(true, Some(now)));
    result := Some(stats);
  }
}
