/** The GraphQL indexer (`indexUser` in the GraphQL variant): pages of the
    wallet's transactions are fetched by cursor, mapped to rows, inserted
    with skip-duplicates semantics, and the statistics are computed when the
    crawl ends without an error. */
module GraphqlIndexer {
  import opened Wrappers
  import opened Seqs
  import opened Strings
  import opened Address
  import opened Records
  import opened Interactors
  import opened Stats
  import opened Store
  import opened StatsCache

  /** Page size requested by the query (`transactions(first: 50)`). */
  const PageSize: nat := 50
  /** The crawl stops once this many rows were indexed. */
  const Cap: nat := 200

  /** A raw balance change: `amount`, `coinType?.repr`, `owner?.address`. */
  datatype GqlChange = GqlChange(amount: int, coinRepr: Option<string>, ownerAddress: Option<string>)

  /** A raw transaction node: `digest`, `sender?.address`,
      `effects?.checkpoint?.timestamp` (as milliseconds, `None` when absent
      or empty) and `effects?.balanceChanges?.nodes` (empty when absent). */
  datatype GqlNode = GqlNode(digest: string, sender: Option<string>, timestamp: Option<int>, changes: seq<GqlChange>)

  /** One query result: whether `data.address` was present, the nodes (empty
      when absent), `pageInfo.hasNextPage` (false when absent) and
      `pageInfo.endCursor`. */
  datatype GqlPage = GqlPage(addressFound: bool, nodes: seq<GqlNode>, hasNextPage: bool, endCursor: Option<string>)

  // ------------------------------------------------------------ row mapping

  /** What the interactor rule reads from the raw changes. */
  function OwnersOf(cs: seq<GqlChange>): seq<OwnerAmount>
  {
    seq(|cs|, i requires 0 <= i < |cs| => OwnerAmount(cs[i].ownerAddress, cs[i].amount))
  }

  /** The stored form of a change: `coinType?.repr || "Unknown"`,
      `owner?.address || ""`. */
  function CleanChange(c: GqlChange): BalanceChange
  {
    BalanceChange(c.amount, TypeString(OrElse(c.coinRepr, "Unknown")), OrElse(c.ownerAddress, ""))
  }

  /** The row stored for a node. */
  function RecordOf(node: GqlNode, address: string, now: int): TxRecord
  {
    TxRecord(
      node.digest,
      if node.timestamp.Some? then node.timestamp.value else now,
      OrElse(node.sender, ""),
      address,
      InteractorsOf(node.sender, address, OwnersOf(node.changes)),
      Some(seq(|node.changes|, i requires 0 <= i < |node.changes| => CleanChange(node.changes[i]))))
  }

  function RecordsOf(nodes: seq<GqlNode>, address: string, now: int): seq<TxRecord>
  {
    seq(|nodes|, i requires 0 <= i < |nodes| => RecordOf(nodes[i], address, now))
  }

  /** The fallbacks of the mapping: every row belongs to the wallet and has
      an array of changes, one per raw change in order. A present timestamp,
      sender, coin type or owner is kept; a missing timestamp becomes `now`,
      a missing (or empty) sender or owner becomes "", a missing coin type
      becomes "Unknown". The interactors never repeat. */
  lemma RecordFallbacks(node: GqlNode, address: string, now: int)
    ensures var r := RecordOf(node, address, now);
      && r.digest == node.digest && r.userAddress == address
      && (node.timestamp.Some? ==> r.timestamp == node.timestamp.value)
      && (node.timestamp.None? ==> r.timestamp == now)
      && (Truthy(node.sender) ==> r.sender == node.sender.value)
      && (!Truthy(node.sender) ==> r.sender == "")
      && r.balanceChanges.Some? && |r.balanceChanges.value| == |node.changes|
      && (forall i :: 0 <= i < |node.changes| ==>
            var c := r.balanceChanges.value[i];
            var raw := node.changes[i];
            && c.amount == raw.amount
            && c.coinType.TypeString?
            && (Truthy(raw.coinRepr) ==> c.coinType.s == raw.coinRepr.value)
            && (!Truthy(raw.coinRepr) ==> c.coinType.s == "Unknown")
            && (Truthy(raw.ownerAddress) ==> c.owner == raw.ownerAddress.value)
            && (!Truthy(raw.ownerAddress) ==> c.owner == ""))
      && NoDup(r.interactedWith)
  {
    var owners := OwnersOf(node.changes);
    var normUser := Normalize(address);
    if Truthy(node.sender) && Normalize(node.sender.value) == normUser {
      DedupMembers(Recipients(owners, normUser));
    }
  }

  /** `txs.map(...)`, computing each node's interactors with the in-place
      set of `ExtractInteractors`. */
  lemma RecordsOfAppend(nodes: seq<GqlNode>, node: GqlNode, address: string, now: int)
    ensures RecordsOf(nodes + [node], address, now) == RecordsOf(nodes, address, now) + [RecordOf(node, address, now)]
  {
  }

  method MapNodes(nodes: seq<GqlNode>, address: string, now: int) returns (rows: seq<TxRecord>)
    ensures rows == RecordsOf(nodes, address, now)
  {
    rows := [];
    var i := 0;
    while i < |nodes|
      invariant i <= |nodes|
      invariant rows == RecordsOf(nodes[..i], address, now)
    {
      var node := nodes[i];
      var timestamp := now;
      if node.timestamp.Some? {
        timestamp := node.timestamp.value;
      }
      var clean := seq(|node.changes|, j requires 0 <= j < |node.changes| => CleanChange(node.changes[j]));
      var interactors := ExtractInteractors(node.sender, address, OwnersOf(node.changes));
      var row := TxRecord(node.digest, timestamp, OrElse(node.sender, ""), address, interactors, Some(clean));
      assert row == RecordOf(node, address, now);
      RecordsOfAppend(nodes[..i], node, address, now);
      rows := rows + [row];
      assert nodes[..i + 1] == nodes[..i] + [node];
      i := i + 1;
    }
    assert nodes[..i] == nodes;
  }

  // --------------------------------------------------------- the crawl, as a value

  /** The outcome of the page loop: the rows handed to the store in order,
      the cursor of every query made, the final `totalIndexed`, and whether
      the loop ended normally (otherwise a query threw). */
  datatype Crawl = Crawl(rows: seq<TxRecord>, requested: seq<Option<string>>, total: nat, completed: bool)

  /** `pageInfo?.endCursor || null`. */
  function NextCursor(p: GqlPage): Option<string>
  {
    if Truthy(p.endCursor) then p.endCursor else None
  }

  /** A page after which the loop asks for another (unless the cap is hit). */
  predicate Continues(p: Option<GqlPage>) {
    p.Some? && p.value.addressFound && p.value.nodes != [] && p.value.hasNextPage
  }

  /** The loop from the query with `cursor`, with `pages` the query results
      still to come (`None`: the query throws; no result left: it throws
      too). */
  function CrawlFrom(pages: seq<Option<GqlPage>>, address: string, now: int, cursor: Option<string>,
                     total: nat, rows: seq<TxRecord>, requested: seq<Option<string>>): Crawl
    decreases |pages|
  {
    var asked := requested + [cursor];
    if pages == [] || pages[0].None? then Crawl(rows, asked, total, false)
    else
      var p := pages[0].value;
      if !p.addressFound || p.nodes == [] then Crawl(rows, asked, total, true)
      else
        var batch := RecordsOf(p.nodes, address, now);
        var total' := total + |p.nodes|;
        if !p.hasNextPage || total' >= Cap then Crawl(rows + batch, asked, total', true)
        else CrawlFrom(pages[1..], address, now, NextCursor(p), total', rows + batch, asked)
  }

  function CrawlAll(pages: seq<Option<GqlPage>>, address: string, now: int): Crawl
  {
    CrawlFrom(pages, address, now, None, 0, [], [])
  }

  // One step of the crawl, case by case.

  lemma CrawlFromThrows(pages: seq<Option<GqlPage>>, address: string, now: int, cursor: Option<string>,
                        total: nat, rows: seq<TxRecord>, requested: seq<Option<string>>)
    requires pages == [] || pages[0].None?
    ensures CrawlFrom(pages, address, now, cursor, total, rows, requested) == Crawl(rows, requested + [cursor], total, false)
  {
  }

  lemma CrawlFromEnds(pages: seq<Option<GqlPage>>, address: string, now: int, cursor: Option<string>,
                      total: nat, rows: seq<TxRecord>, requested: seq<Option<string>>)
    requires pages != [] && pages[0].Some? && (!pages[0].value.addressFound || pages[0].value.nodes == [])
    ensures CrawlFrom(pages, address, now, cursor, total, rows, requested) == Crawl(rows, requested + [cursor], total, true)
  {
  }

  lemma CrawlFromStep(pages: seq<Option<GqlPage>>, address: string, now: int, cursor: Option<string>,
                      total: nat, rows: seq<TxRecord>, requested: seq<Option<string>>)
    requires pages != [] && pages[0].Some? && pages[0].value.addressFound && pages[0].value.nodes != []
    ensures var p := pages[0].value;
      var total' := total + |p.nodes|;
      var rows' := rows + RecordsOf(p.nodes, address, now);
      CrawlFrom(pages, address, now, cursor, total, rows, requested)
        == if !p.hasNextPage || total' >= Cap then Crawl(rows', requested + [cursor], total', true)
           else CrawlFrom(pages[1..], address, now, NextCursor(p), total', rows', requested + [cursor])
  {
  }

  /** Where the crawl `c` stands, given the `n` cursors asked before the
      query with the last cursor of `prefix`: it asked `prefix`, then each
      continuing page's next cursor, and it stopped on a thrown query or on
      a page after which the loop does not go on. */
  ghost predicate Shaped(pages: seq<Option<GqlPage>>, c: Crawl, n: nat, prefix: seq<Option<string>>)
  {
    var last := |c.requested| - n - 1;
    && n < |c.requested| <= n + |pages| + 1
    && c.requested[..n + 1] == prefix
    && (forall k :: 0 <= k < last ==>
          k < |pages| && Continues(pages[k]) && c.requested[n + k + 1] == NextCursor(pages[k].value))
    && (!c.completed <==> last >= |pages| || pages[last].None?)
    && (c.completed ==> !Continues(pages[last]) || c.total >= Cap)
  }

  /** A continuing first page puts its next cursor after the prefix. */
  lemma ShapedStep(pages: seq<Option<GqlPage>>, c: Crawl, n: nat, prefix: seq<Option<string>>)
    requires pages != [] && Continues(pages[0]) && |prefix| == n + 1
    requires Shaped(pages[1..], c, n + 1, prefix + [NextCursor(pages[0].value)])
    ensures Shaped(pages, c, n, prefix)
  {
    assert c.requested[..n + 1] == c.requested[..n + 2][..n + 1];
    assert c.requested[n + 1] == (prefix + [NextCursor(pages[0].value)])[n + 1];
    forall k | 0 <= k < |c.requested| - n - 1
      ensures k < |pages| && Continues(pages[k]) && c.requested[n + k + 1] == NextCursor(pages[k].value)
    {
      if k > 0 {
        assert k - 1 < |c.requested| - (n + 1) - 1;
        assert pages[k] == pages[1..][k - 1];
      }
    }
    var last := |c.requested| - n - 1;
    if last < |pages| {
      assert pages[last] == pages[1..][last - 1];
    }
  }

  lemma {:induction false} CrawlFromShape(pages: seq<Option<GqlPage>>, address: string, now: int,
                                          cursor: Option<string>, total: nat, rows: seq<TxRecord>,
                                          requested: seq<Option<string>>)
    ensures Shaped(pages, CrawlFrom(pages, address, now, cursor, total, rows, requested), |requested|, requested + [cursor])
    decreases |pages|
  {
    var asked := requested + [cursor];
    if pages == [] || pages[0].None? {
      CrawlFromThrows(pages, address, now, cursor, total, rows, requested);
    } else if !(pages[0].value.addressFound && pages[0].value.nodes != []) {
      CrawlFromEnds(pages, address, now, cursor, total, rows, requested);
    } else {
      var p := pages[0].value;
      var total' := total + |p.nodes|;
      var rows' := rows + RecordsOf(p.nodes, address, now);
      CrawlFromStep(pages, address, now, cursor, total, rows, requested);
      if p.hasNextPage && total' < Cap {
        CrawlFromShape(pages[1..], address, now, NextCursor(p), total', rows', asked);
        ShapedStep(pages, CrawlFrom(pages[1..], address, now, NextCursor(p), total', rows', asked), |requested|, asked);
      }
    }
  }

  /** The rows a fetched page hands to the store: its mapped nodes
      (none for a thrown query or a missing address). */
  function PageRows(p: Option<GqlPage>, address: string, now: int): seq<TxRecord>
  {
    if p.Some? && p.value.addressFound then RecordsOf(p.value.nodes, address, now) else []
  }

  /** The rows of the pages `ps`, one page after the other. */
  function Batches(ps: seq<Option<GqlPage>>, address: string, now: int): seq<TxRecord>
    decreases |ps|
  {
    if ps == [] then [] else PageRows(ps[0], address, now) + Batches(ps[1..], address, now)
  }

  /** The number of nodes the pages `ps` return, summed page by page. */
  function PageSizes(ps: seq<Option<GqlPage>>): nat
    decreases |ps|
  {
    if ps == [] then 0
    else (if ps[0].Some? && ps[0].value.addressFound then |ps[0].value.nodes| else 0) + PageSizes(ps[1..])
  }

  /** The rows of a run of pages are as many as the nodes they return. */
  lemma {:induction false} BatchesLength(ps: seq<Option<GqlPage>>, address: string, now: int)
    ensures |Batches(ps, address, now)| == PageSizes(ps)
    decreases |ps|
  {
    if ps != [] {
      BatchesLength(ps[1..], address, now);
    }
  }

  lemma BatchesCons(ps: seq<Option<GqlPage>>, q: nat, address: string, now: int)
    requires 1 <= q <= |ps|
    ensures Batches(ps[..q], address, now) == PageRows(ps[0], address, now) + Batches(ps[1..][..q - 1], address, now)
  {
    assert ps[..q][1..] == ps[1..][..q - 1];
  }

  /** A page's rows are the wallet's, one per node. */
  lemma BatchOwned(rows: seq<TxRecord>, nodes: seq<GqlNode>, address: string, now: int)
    requires forall r :: r in rows ==> r.userAddress == address
    ensures var all := rows + RecordsOf(nodes, address, now);
      |all| == |rows| + |nodes| && forall r :: r in all ==> r.userAddress == address
  {
    var batch := RecordsOf(nodes, address, now);
    forall r | r in rows + batch ensures r.userAddress == address {
      if r !in rows {
        var i :| 0 <= i < |batch| && batch[i] == r;
      }
    }
  }

  /** The crawl hands the store only the wallet's rows, and `totalIndexed`
      counts them. */
  lemma {:induction false} CrawlFromRows(pages: seq<Option<GqlPage>>, address: string, now: int,
                                         cursor: Option<string>, total: nat, rows: seq<TxRecord>,
                                         requested: seq<Option<string>>)
    requires total == |rows| && forall r :: r in rows ==> r.userAddress == address
    ensures var c := CrawlFrom(pages, address, now, cursor, total, rows, requested);
      c.total == |c.rows| && forall r :: r in c.rows ==> r.userAddress == address
    decreases |pages|
  {
    if pages != [] && pages[0].Some? && pages[0].value.addressFound && pages[0].value.nodes != [] {
      var p := pages[0].value;
      var batch := RecordsOf(p.nodes, address, now);
      BatchOwned(rows, p.nodes, address, now);
      CrawlFromStep(pages, address, now, cursor, total, rows, requested);
      CrawlFromRows(pages[1..], address, now, NextCursor(p), total + |p.nodes|, rows + batch, requested + [cursor]);
    }
  }

  /** The rows of the first `k` pages (of all of them when there are
      fewer). */
  function FirstPagesRows(pages: seq<Option<GqlPage>>, k: nat, address: string, now: int): seq<TxRecord>
  {
    Batches(pages[..Min(k, |pages|)], address, now)
  }

  lemma FirstPagesRowsCons(pages: seq<Option<GqlPage>>, k: nat, address: string, now: int)
    requires pages != [] && k >= 1
    ensures FirstPagesRows(pages, k, address, now)
         == PageRows(pages[0], address, now) + FirstPagesRows(pages[1..], k - 1, address, now)
  {
    BatchesCons(pages, Min(k, |pages|), address, now);
  }

  /** The crawl `c`, begun after the cursors `requested` with `rows` already
      handed on, made between one and |pages| + 1 more queries and handed on
      the rows of the pages those queries fetched. */
  ghost predicate BatchesHandedOn(pages: seq<Option<GqlPage>>, c: Crawl, rows: seq<TxRecord>,
                                  requested: seq<Option<string>>, address: string, now: int)
  {
    && |requested| < |c.requested| <= |requested| + |pages| + 1
    && c.rows == rows + FirstPagesRows(pages, |c.requested| - |requested|, address, now)
  }

  /** The rows handed on are those of the pages the crawl fetched, one page
      per query made, in order. */
  lemma {:induction false} CrawlFromBatches(pages: seq<Option<GqlPage>>, address: string, now: int,
                                            cursor: Option<string>, total: nat, rows: seq<TxRecord>,
                                            requested: seq<Option<string>>)
    ensures BatchesHandedOn(pages, CrawlFrom(pages, address, now, cursor, total, rows, requested), rows, requested, address, now)
    decreases |pages|
  {
    if pages != [] && pages[0].Some? && pages[0].value.addressFound && pages[0].value.nodes != []
      && pages[0].value.hasNextPage && total + |pages[0].value.nodes| < Cap {
      var p := pages[0].value;
      CrawlFromBatches(pages[1..], address, now, NextCursor(p), total + |p.nodes|,
                       rows + RecordsOf(p.nodes, address, now), requested + [cursor]);
      BatchesStep(pages, address, now, cursor, total, rows, requested);
    } else {
      BatchesLast(pages, address, now, cursor, total, rows, requested);
    }
  }

  /** A continuing page: its rows come first, then those of the rest. */
  lemma BatchesStep(pages: seq<Option<GqlPage>>, address: string, now: int,
                    cursor: Option<string>, total: nat, rows: seq<TxRecord>,
                    requested: seq<Option<string>>)
    requires pages != [] && pages[0].Some? && pages[0].value.addressFound && pages[0].value.nodes != []
      && pages[0].value.hasNextPage && total + |pages[0].value.nodes| < Cap
    requires var p := pages[0].value;
      BatchesHandedOn(pages[1..],
        CrawlFrom(pages[1..], address, now, NextCursor(p), total + |p.nodes|, rows + RecordsOf(p.nodes, address, now), requested + [cursor]),
        rows + RecordsOf(p.nodes, address, now), requested + [cursor], address, now)
    ensures BatchesHandedOn(pages, CrawlFrom(pages, address, now, cursor, total, rows, requested), rows, requested, address, now)
  {
    var p := pages[0].value;
    var batch := RecordsOf(p.nodes, address, now);
    CrawlFromStep(pages, address, now, cursor, total, rows, requested);
    var rest := CrawlFrom(pages[1..], address, now, NextCursor(p), total + |p.nodes|, rows + batch, requested + [cursor]);
    var k := |rest.requested| - |requested|;
    var later := FirstPagesRows(pages[1..], k - 1, address, now);
    FirstPagesRowsCons(pages, k, address, now);
    ConcatAssoc(rows, batch, later);
  }

  /** The last query: a thrown one hands on nothing, an ending page its
      own rows. */
  lemma BatchesLast(pages: seq<Option<GqlPage>>, address: string, now: int,
                    cursor: Option<string>, total: nat, rows: seq<TxRecord>,
                    requested: seq<Option<string>>)
    requires !(pages != [] && pages[0].Some? && pages[0].value.addressFound && pages[0].value.nodes != []
      && pages[0].value.hasNextPage && total + |pages[0].value.nodes| < Cap)
    ensures BatchesHandedOn(pages, CrawlFrom(pages, address, now, cursor, total, rows, requested), rows, requested, address, now)
  {
    if pages == [] {
      CrawlFromThrows(pages, address, now, cursor, total, rows, requested);
    } else if pages[0].None? {
      CrawlFromThrows(pages, address, now, cursor, total, rows, requested);
      FirstPagesRowsCons(pages, 1, address, now);
    } else if !pages[0].value.addressFound || pages[0].value.nodes == [] {
      CrawlFromEnds(pages, address, now, cursor, total, rows, requested);
      FirstPagesRowsCons(pages, 1, address, now);
      assert RecordsOf([], address, now) == [];
    } else {
      CrawlFromStep(pages, address, now, cursor, total, rows, requested);
      FirstPagesRowsCons(pages, 1, address, now);
    }
  }

  /** The crawl from the start stores the rows of the pages fetched, and
      `totalIndexed` is the sum of their sizes. */
  lemma CrawlAllBatches(pages: seq<Option<GqlPage>>, address: string, now: int)
    ensures var c := CrawlAll(pages, address, now);
      && 1 <= |c.requested|
      && c.rows == Batches(pages[..Min(|c.requested|, |pages|)], address, now)
      && |c.rows| == PageSizes(pages[..Min(|c.requested|, |pages|)])
  {
    CrawlFromBatches(pages, address, now, None, 0, [], []);
    var c := CrawlAll(pages, address, now);
    BatchesLength(pages[..Min(|c.requested|, |pages|)], address, now);
  }

  /** The cursor chain and the stop conditions of the crawl from the start. */
  lemma CrawlAllCursors(pages: seq<Option<GqlPage>>, address: string, now: int)
    ensures var c := CrawlAll(pages, address, now);
      var last := |c.requested| - 1;
      && 1 <= |c.requested| <= |pages| + 1
      && c.requested[0] == None
      && (forall k :: 0 <= k < last ==>
            Continues(pages[k]) && c.requested[k + 1] == NextCursor(pages[k].value))
      && (!c.completed <==> last >= |pages| || pages[last].None?)
      && (c.completed ==> !Continues(pages[last]) || c.total >= Cap)
  {
    CrawlFromShape(pages, address, now, None, 0, [], []);
    var c := CrawlAll(pages, address, now);
    assert c.requested[..1] == [None];
  }

  /** The crawl starts with the null cursor; each later query uses the
      `endCursor` of the page before, which had nodes and a next page; the
      loop ends on a thrown query (`completed` false), or after a page with
      no address, no nodes or no next page, or once 200 rows are indexed;
      `totalIndexed` counts the rows handed to the store, which are those of
      the pages fetched, all of them the wallet's. */
  lemma CrawlShape(pages: seq<Option<GqlPage>>, address: string, now: int)
    ensures var c := CrawlAll(pages, address, now);
      var last := |c.requested| - 1;
      && 1 <= |c.requested| <= |pages| + 1
      && c.requested[0] == None
      && (forall k :: 0 <= k < last ==>
            Continues(pages[k]) && c.requested[k + 1] == NextCursor(pages[k].value))
      && (!c.completed <==> last >= |pages| || pages[last].None?)
      && (c.completed ==> !Continues(pages[last]) || c.total >= Cap)
      && c.total == |c.rows|
      && (forall r :: r in c.rows ==> r.userAddress == address)
      && c.rows == Batches(pages[..Min(|c.requested|, |pages|)], address, now)
      && c.total == PageSizes(pages[..Min(|c.requested|, |pages|)])
  {
    CrawlAllCursors(pages, address, now);
    CrawlFromRows(pages, address, now, None, 0, [], []);
    CrawlAllBatches(pages, address, now);
  }

  lemma {:induction false} CrawlFromCap(pages: seq<Option<GqlPage>>, address: string, now: int,
                                        cursor: Option<string>, total: nat, rows: seq<TxRecord>,
                                        requested: seq<Option<string>>)
    requires forall k :: 0 <= k < |pages| && pages[k].Some? && pages[k].value.addressFound ==>
               |pages[k].value.nodes| >= PageSize
    requires total >= PageSize * |requested| && total < Cap
    ensures |CrawlFrom(pages, address, now, cursor, total, rows, requested).requested| <= Cap / PageSize
    decreases |pages|
  {
    if pages != [] && pages[0].Some? {
      var p := pages[0].value;
      if p.addressFound && p.nodes != [] && p.hasNextPage && total + |p.nodes| < Cap {
        assert forall k :: 0 <= k < |pages| - 1 ==> pages[1..][k] == pages[k + 1];
        CrawlFromCap(pages[1..], address, now, NextCursor(p), total + |p.nodes|,
                     rows + RecordsOf(p.nodes, address, now), requested + [cursor]);
      }
    }
  }

  /** With full pages of 50 nodes, at most four queries are made, whatever
      the script holds. */
  lemma CapBoundsQueries(pages: seq<Option<GqlPage>>, address: string, now: int)
    requires forall k :: 0 <= k < |pages| && pages[k].Some? && pages[k].value.addressFound ==>
               |pages[k].value.nodes| >= PageSize
    ensures |CrawlAll(pages, address, now).requested| <= 4
  {
    CrawlFromCap(pages, address, now, None, 0, [], []);
  }

  // ------------------------------------------------------------ the loop

  /** Maps one page's nodes to rows and stores them, skipping digests
      already present; `base` is the table before the crawl and `rows` the
      rows stored since. */
  method StorePage(db: Db, nodes: seq<GqlNode>, address: string, now: int,
                   ghost base: map<string, TxRecord>, ghost baseOrder: seq<string>, ghost rows: seq<TxRecord>)
    returns (stored: nat)
    requires db.Valid()
    requires db.txs == InsertAll(base, rows) && db.order == baseOrder + NewKeys(base, rows)
    modifies db
    ensures db.Valid()
    ensures stored == |nodes|
    ensures var rows' := rows + RecordsOf(nodes, address, now);
      db.txs == InsertAll(base, rows') && db.order == baseOrder + NewKeys(base, rows')
    ensures db.users == old(db.users) && db.stats == old(db.stats)
  {
    var dbTransactions := MapNodes(nodes, address, now);
    db.CreateMany(dbTransactions);
    BatchAfter(base, baseOrder, rows, dbTransactions, db.txs, db.order);
    stored := |dbTransactions|;
  }

  /** The `while (hasNextPage)` loop of `indexUser`: queries page after
      page and hands each page's rows to the store. */
  method RunPages(db: Db, address: string, pages: seq<Option<GqlPage>>, now: int)
    returns (requested: seq<Option<string>>, completed: bool)
    requires db.Valid()
    modifies db
    ensures db.Valid()
    ensures var c := CrawlAll(pages, address, now);
      && requested == c.requested && completed == c.completed
      && db.txs == InsertAll(old(db.txs), c.rows)
      && db.order == old(db.order) + NewKeys(old(db.txs), c.rows)
      && db.users == old(db.users) && db.stats == old(db.stats)
  {
    var hasNextPage := true;
    var cursor: Option<string> := None;
    var totalIndexed: nat := 0;
    ghost var rows: seq<TxRecord> := [];
    ghost var target := CrawlAll(pages, address, now);
    requested := [];
    var k := 0;
    while hasNextPage
      invariant k <= |pages|
      invariant db.Valid()
      invariant db.txs == InsertAll(old(db.txs), rows) && db.order == old(db.order) + NewKeys(old(db.txs), rows)
      invariant db.users == old(db.users) && db.stats == old(db.stats)
      invariant hasNextPage ==> CrawlFrom(pages[k..], address, now, cursor, totalIndexed, rows, requested) == target
      invariant !hasNextPage ==> Crawl(rows, requested, totalIndexed, true) == target
      decreases |pages| - k, hasNextPage
    {
      ghost var rest := pages[k..];
      ghost var asked := requested;
      requested := requested + [cursor];
      if k == |pages| || pages[k].None? {
        // the query threw
        CrawlFromThrows(rest, address, now, cursor, totalIndexed, rows, asked);
        return requested, false;
      }
      var page := pages[k].value;
      k := k + 1;
      assert rest[0] == Some(page) && rest[1..] == pages[k..];
      if !page.addressFound {
        CrawlFromEnds(rest, address, now, cursor, totalIndexed, rows, asked);
        break;
      }
      if page.nodes == [] {
        CrawlFromEnds(rest, address, now, cursor, totalIndexed, rows, asked);
        break;
      }
      CrawlFromStep(rest, address, now, cursor, totalIndexed, rows, asked);
      ghost var before := CrawlFrom(rest, address, now, cursor, totalIndexed, rows, asked);
      var stored := StorePage(db, page.nodes, address, now, old(db.txs), old(db.order), rows);
      rows := rows + RecordsOf(page.nodes, address, now);
      totalIndexed := totalIndexed + stored;
      hasNextPage := page.hasNextPage;
      cursor := NextCursor(page);
      if totalIndexed >= Cap {
        break;
      }
      assert before == if hasNextPage then CrawlFrom(pages[k..], address, now, cursor, totalIndexed, rows, requested)
                       else Crawl(rows, requested, totalIndexed, true);
    }
    completed := true;
  }

  /** `indexUser(inputAddress)`: marks the wallet unindexed, runs the page
      loop, and computes the statistics only if no query threw; any error is
      caught. Returns the cursors queried and the statistics step's result
      (`None` when it did not run). */
  method IndexUser(db: Db, inputAddress: string, pages: seq<Option<GqlPage>>, now: int,
                   monthOf: int -> Month, ln: real -> real)
    returns (requested: seq<Option<string>>, result: Option<Result<Snapshot, CacheError>>)
    requires db.Valid()
    modifies db
    ensures db.Valid()
    ensures var address := Normalize(inputAddress);
      var c := CrawlAll(pages, address, now);
      var previous := if address in old(db.users) then old(db.users)[address].lastIndexedAt else None;
      && requested == c.requested
      && db.txs == InsertAll(old(db.txs), c.rows)
      && db.order == old(db.order) + NewKeys(old(db.txs), c.rows)
      && (result.Some? <==> c.completed)
      && address in db.users
      && (result.None? ==> db.users == old(db.users)[address := UserRow(false, previous)] && db.stats == old(db.stats))
      && (result.Some? ==> result.value != Failure(UserMissing))
      && (db.users[address].isIndexed <==> result.Some? && result.value.Success?)
      && (result.Some? && result.value.Failure? ==>
            db.users == old(db.users)[address := UserRow(false, previous)] && db.stats == old(db.stats))
      && (result.Some? && result.value.Success? ==>
            && StatsFor(db.txs, db.order, address, monthOf, ln) == Success(result.value.value)
            && db.stats == old(db.stats)[address := result.value.value]
            && db.users == old(db.users)[address := UserRow(true, Some(now))])
  {
    var address := Normalize(inputAddress);
    db.MarkUnindexed(address);
    ghost var marked := db.users;
    var completed;
    requested, completed := RunPages(db, address, pages, now);
    if !completed {
      // the error is caught and logged; no statistics
      return requested, None;
    }
    var stats := CalculateAndCacheStats(db, address, now, monthOf, ln);
    OverwriteUser(old(db.users), address, marked[address], UserRow(true, Some(now)));
    result := Some(stats);
  }
}
