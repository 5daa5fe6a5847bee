/** The aggregation behind `calculateAndCacheStats`: one pass over a wallet's
    transactions (most recent first) that builds the monthly histogram, the
    counterparty and asset tallies, the SUI flows and the biggest
    transaction, followed by the pure list pipelines (top five, ten most
    recent), the archetype and the rank. Amounts stay in integer base units
    (1 SUI = 10^9); the archetype thresholds, stated in SUI, are compared
    exactly. */
module Stats {
  import opened Wrappers
  import opened Seqs
  import opened Strings
  import opened Records

  // ---------------------------------------------------------------- months

  const MonthNames: seq<string> :=
    ["Jan", "Feb", "Mar", "Apr", "May", "Jun", "Jul", "Aug", "Sep", "Oct", "Nov", "Dec"]

  /** A month index as `Date.getMonth` returns it (0 = January). */
  type Month = m: int | 0 <= m < 12

  // --------------------------------------------------------------- symbols

  /** The coin type string the aggregation sees: the string itself, the
      legacy `repr`, or "" (which makes the change be skipped). */
  function CoinTypeText(ct: CoinTypeField): string
  {
    match ct
    case TypeString(s) => s
    case LegacyRepr(r) => OrElse(r, "")
    case NoType => ""
  }

  /** The native coin's type test. */
  predicate IsSuiType(t: string) {
    EndsWith(t, "::sui::SUI") || t == "0x2::sui::SUI"
  }

  /** The asset symbol of a coin type: "SUI" for the native coin, else the
      last "::" segment, or "Unknown" when that segment is empty. */
  function Symbol(t: string): string
  {
    if IsSuiType(t) then "SUI"
    else if LastSegment(t) == "" then "Unknown"
    else LastSegment(t)
  }

  /** A symbol is never empty: the native coin gives "SUI"; any other type
      gives its last segment, a separator-free suffix of the type that
      follows a "::" in it, or "Unknown" exactly when that segment is empty
      or is "Unknown" itself; a non-empty type without "::" is its own
      symbol. */
  lemma SymbolShape(t: string)
    ensures Symbol(t) != ""
    ensures IsSuiType(t) ==> Symbol(t) == "SUI"
    ensures !IsSuiType(t) ==>
      (Symbol(t) == "Unknown" <==> LastSegment(t) == "" || LastSegment(t) == "Unknown")
    ensures !IsSuiType(t) && Symbol(t) != "Unknown" ==>
      EndsWith(t, Symbol(t)) && !Contains(Symbol(t), "::")
    ensures !IsSuiType(t) && Symbol(t) != "Unknown" && Contains(t, "::") ==>
      var n := |t| - |Symbol(t)|;
      n >= 2 && t[n - 2] == ':' && t[n - 1] == ':'
    ensures !IsSuiType(t) && t != "" && !Contains(t, "::") ==> Symbol(t) == t
  {
    LastSegmentProps(t);
  }

  predicate NoColon(s: string) {
    forall i :: 0 <= i < |s| ==> s[i] != ':'
  }

  /** A coin type `pkg::mod::SUI` from any module other than `sui` also gets
      the symbol "SUI" (and so counts towards the SUI flows), although it fails
      the native-coin test that the recent-transaction summary uses. */
  lemma LookalikeSymbol(pkg: string, mod: string)
    requires NoColon(pkg) && NoColon(mod) && mod != "sui"
    ensures Symbol(pkg + "::" + mod + "::SUI") == "SUI"
    ensures !IsSuiType(pkg + "::" + mod + "::SUI")
  {
    var t := pkg + "::" + mod + "::SUI";
    var rest := mod + "::SUI";
    assert t == pkg + "::" + rest;
    assert rest == mod + "::" + "SUI";
    SkipSegment(pkg, rest);
    SkipSegment(mod, "SUI");
    SuiIsOneSegment();
    assert LastSegment(t) == "SUI";
    NotNativeType(pkg, mod);
  }

  lemma SuiIsOneSegment()
    ensures LastSegment("SUI") == "SUI"
  {
    var sui := "SUI";
    assert sui[0] == 'S' && sui[1] == 'U' && sui[2] == 'I';
    assert NoColon(sui);
    NoSeparatorIn(sui);
  }

  /** A leading colon-free segment and its separator do not change the last
      segment. */
  lemma SkipSegment(pre: string, rest: string)
    requires NoColon(pre)
    ensures LastSegment(pre + "::" + rest) == LastSegment(rest)
  {
    var s := pre + "::" + rest;
    assert s[|pre|..|pre| + 2] == "::";
    assert s[..|pre|] == pre;
    FirstSeparator(s, |pre|);
    assert s[|pre| + 2..] == rest;
  }

  lemma NotNativeType(pkg: string, mod: string)
    requires NoColon(pkg) && NoColon(mod) && mod != "sui"
    ensures !IsSuiType(pkg + "::" + mod + "::SUI")
  {
    NotSuiSuffix(pkg, mod);
    NotNativeLiteral(pkg, mod);
  }

  /** The type does not end in `::sui::SUI`: some character of its last ten
      differs. */
  lemma NotSuiSuffix(pkg: string, mod: string)
    requires NoColon(pkg) && NoColon(mod) && mod != "sui"
    ensures !EndsWith(pkg + "::" + mod + "::SUI", "::sui::SUI")
  {
    var t := pkg + "::" + mod + "::SUI";
    var p := "::sui::SUI";
    if |t| >= 10 {
      var tail := t[|t| - 10..];
      if |mod| >= 4 {
        assert tail[1] == mod[|mod| - 4] != p[1];
      } else if |mod| == 3 {
        assert tail[2..5] == mod;
        assert p[2..5] == "sui";
      } else if |mod| >= 1 {
        assert tail[2] == ':' != p[2];
      } else {
        assert tail[4] == ':' != p[4];
      }
    }
  }

  /** The type is not the literal `0x2::sui::SUI`: some character differs,
      or the lengths do. */
  lemma NotNativeLiteral(pkg: string, mod: string)
    requires NoColon(pkg) && NoColon(mod) && mod != "sui"
    ensures pkg + "::" + mod + "::SUI" != "0x2::sui::SUI"
  {
    var t := pkg + "::" + mod + "::SUI";
    var lit := "0x2::sui::SUI";
    if |t| == |lit| {
      if |pkg| < 3 {
        assert t[|pkg|] == ':' != lit[|pkg|];
      } else if |pkg| > 3 {
        assert t[3] == pkg[3] != lit[3];
      } else {
        assert t[5..8] == mod;
        assert lit[5..8] == "sui";
      }
    }
  }

  lemma {:induction false} NoSeparatorIn(s: string)
    requires NoColon(s)
    ensures IndexOf(s, "::") == None
  {
    if s != [] {
      NoSeparatorAt(s);
      NoSeparatorIn(s[1..]);
    }
  }

  /** The first separator of `s` is at `k` when none of the characters before
      it is a colon. */
  lemma {:induction false} FirstSeparator(s: string, k: nat)
    requires k + 2 <= |s| && s[k..k + 2] == "::"
    requires NoColon(s[..k])
    ensures IndexOf(s, "::") == Some(k)
    decreases k
  {
    if k == 0 {
      assert s[..2] == "::";
    } else {
      NoSeparatorAt(s);
      FirstSeparator(s[1..], k - 1);
    }
  }

  lemma NoSeparatorAt(s: string)
    requires |s| > 0 && s[0] != ':'
    ensures !StartsWith(s, "::")
  {
    if |s| >= 2 { assert s[..2][0] == s[0]; }
  }

  function Abs(x: int): nat { if x < 0 then -x else x }

  // ---------------------------------------------------------------- tallies

  /** A JavaScript `Map<string, number>`: the keys in insertion order and the
      value of each. */
  datatype Tally = Tally(keys: seq<string>, counts: map<string, int>) {
    ghost predicate Valid() {
      NoDup(keys) && forall k :: k in counts <==> k in keys
    }
  }

  const EmptyTally := Tally([], map[])

  /** `map.get(k) || 0`. */
  function Get(t: Tally, k: string): int {
    if k in t.counts then t.counts[k] else 0
  }

  /** `map.set(k, (map.get(k) || 0) + d)`: a new key goes to the end. */
  function Add(t: Tally, k: string, d: int): (r: Tally)
    ensures t.Valid() ==> r.Valid()
    ensures forall k' :: Get(r, k') == Get(t, k') + (if k' == k then d else 0)
    ensures r.keys == t.keys + (if k in t.counts then [] else [k])
  {
    if k in t.counts then Tally(t.keys, t.counts[k := t.counts[k] + d])
    else Tally(t.keys + [k], t.counts[k := d])
  }

  datatype Entry = Entry(key: string, value: int)

  function EntryValue(e: Entry): int { e.value }

  /** `Array.from(map.entries())`: the entries in insertion order. */
  function Entries(t: Tally): seq<Entry>
  {
    seq(|t.keys|, i requires 0 <= i < |t.keys| => Entry(t.keys[i], Get(t, t.keys[i])))
  }

  /** `.sort((a, b) => b[1] - a[1]).slice(0, 5)`. */
  function Top(es: seq<Entry>): seq<Entry>
  {
    var sorted := SortDesc(es, EntryValue);
    sorted[..Min(5, |sorted|)]
  }

  /** The top list holds min(5, n) of the entries, in non-increasing order,
      and no entry left out has a larger value than a kept one. */
  lemma TopEntries(es: seq<Entry>)
    ensures |Top(es)| == Min(5, |es|)
    ensures SortedDesc(Top(es), EntryValue)
    ensures multiset(Top(es)) <= multiset(es)
    ensures forall e, t :: e in es && e !in Top(es) && t in Top(es) ==> e.value <= t.value
  {
    var r := SortDesc(es, EntryValue);
    TopOfSorted(es, EntryValue, 5);
    SortDescProps(es, EntryValue);
    var top := Top(es);
    forall e, t | e in es && e !in top && t in top ensures e.value <= t.value {
      assert e in multiset(r);
      var j :| 0 <= j < |r| && r[j] == e;
      if j < |top| { assert false; }
      var i :| 0 <= i < |top| && top[i] == t;
    }
  }

  /** Ties keep insertion order: the entries with any one value appear in the
      sorted list in the order the tally received their keys. */
  lemma TopTiesKeepInsertionOrder(es: seq<Entry>, v: int)
    ensures WithKey(SortDesc(es, EntryValue), EntryValue, v) == WithKey(es, EntryValue, v)
  {
    SortDescProps(es, EntryValue);
  }

  // ------------------------------------------------------------ the fold

  /** Per-transaction state of the inner loop over balance changes. */
  datatype Flow = Flow(assets: Tally, txVolume: int, inflow: int, outflow: int)

  /** One balance change: skipped without a type string; otherwise its
      absolute amount goes to its symbol's total and, for "SUI", to the
      transaction volume and to inflow (positive amount) or outflow (zero or
      negative). */
  function FlowStep(f: Flow, c: BalanceChange): Flow
  {
    var t := CoinTypeText(c.coinType);
    if t == "" then f
    else
      var sym := Symbol(t);
      var a := Abs(c.amount);
      var assets := Add(f.assets, sym, a);
      if sym != "SUI" then f.(assets := assets)
      else if c.amount > 0 then Flow(assets, f.txVolume + a, f.inflow + a, f.outflow)
      else Flow(assets, f.txVolume + a, f.inflow, f.outflow + a)
  }

  function FoldFlow(f: Flow, cs: seq<BalanceChange>): Flow
  {
    if cs == [] then f else FlowStep(FoldFlow(f, cs[..|cs| - 1]), cs[|cs| - 1])
  }

  /** `tx.interactedWith.forEach(p => map.set(p, (map.get(p) || 0) + 1))`. */
  function CountAll(t: Tally, people: seq<string>): Tally
  {
    if people == [] then t else Add(CountAll(t, people[..|people| - 1]), people[|people| - 1], 1)
  }

  /** The accumulators of `calculateAndCacheStats`. */
  datatype Acc = Acc(
    activity: seq<int>,
    interactions: Tally,
    assets: Tally,
    volume: int,
    inflow: int,
    outflow: int,
    biggestAmount: int,
    biggestHash: string)

  const InitAcc := Acc(seq(12, _ => 0), EmptyTally, EmptyTally, 0, 0, 0, 0, "")

  /** One transaction: its month bucket and counterparties are counted; a row
      whose balance changes are not an array contributes nothing more;
      otherwise its SUI volume is added and replaces the biggest one only
      when strictly larger. */
  function TxStep(acc: Acc, tx: TxRecord, m: Month): Acc
    requires |acc.activity| == 12
  {
    var a := acc.(activity := acc.activity[m := acc.activity[m] + 1],
                  interactions := CountAll(acc.interactions, tx.interactedWith));
    match tx.balanceChanges
    case None => a
    case Some(cs) =>
      var f := FoldFlow(Flow(a.assets, 0, a.inflow, a.outflow), cs);
      var b := a.(assets := f.assets, inflow := f.inflow, outflow := f.outflow,
                  volume := a.volume + f.txVolume);
      if f.txVolume > b.biggestAmount then b.(biggestAmount := f.txVolume, biggestHash := tx.digest)
      else b
  }

  /** The accumulators after the transactions `txs`, in order. */
  function Fold(txs: seq<TxRecord>, monthOf: int -> Month): (acc: Acc)
    ensures |acc.activity| == 12
  {
    if txs == [] then InitAcc
    else
      var last := txs[|txs| - 1];
      TxStep(Fold(txs[..|txs| - 1], monthOf), last, monthOf(last.timestamp))
  }

  lemma FoldStep(txs: seq<TxRecord>, i: nat, monthOf: int -> Month)
    requires i < |txs|
    ensures Fold(txs[..i + 1], monthOf) == TxStep(Fold(txs[..i], monthOf), txs[i], monthOf(txs[i].timestamp))
  {
    assert txs[..i + 1][..i] == txs[..i];
  }

  // ------------------------------------------- reference sums for the fold

  /** The SUI volume of a list of balance changes. */
  function SuiVolume(cs: seq<BalanceChange>): nat
  {
    if cs == [] then 0
    else
      var c := cs[|cs| - 1];
      var t := CoinTypeText(c.coinType);
      SuiVolume(cs[..|cs| - 1]) + (if t != "" && Symbol(t) == "SUI" then Abs(c.amount) else 0)
  }

  /** A transaction's SUI volume (0 when its changes are not an array). */
  function TxSuiVolume(tx: TxRecord): nat
  {
    match tx.balanceChanges
    case None => 0
    case Some(cs) => SuiVolume(cs)
  }

  /** How often `k` occurs in the `interactedWith` lists of `txs`. */
  function Occurrences(txs: seq<TxRecord>, k: string): nat
  {
    if txs == [] then 0
    else Occurrences(txs[..|txs| - 1], k) + Count(txs[|txs| - 1].interactedWith, k)
  }

  /** How many of `txs` fall in month `m`. */
  function InMonth(txs: seq<TxRecord>, monthOf: int -> Month, m: Month): nat
  {
    if txs == [] then 0
    else InMonth(txs[..|txs| - 1], monthOf, m) + (if monthOf(txs[|txs| - 1].timestamp) == m then 1 else 0)
  }

  // ------------------------------------------------ properties of the fold

  /** Each transaction lands in exactly one of the 12 buckets: every bucket
      counts its month's transactions and the buckets add up to the
      transaction count. */
  lemma {:induction false} Histogram(txs: seq<TxRecord>, monthOf: int -> Month)
    ensures Sum(Fold(txs, monthOf).activity) == |txs|
    ensures forall m: Month :: Fold(txs, monthOf).activity[m] == InMonth(txs, monthOf, m)
  {
    if txs != [] {
      var p := txs[..|txs| - 1];
      Histogram(p, monthOf);
      var m := monthOf(txs[|txs| - 1].timestamp);
      var a := Fold(p, monthOf).activity;
      TxStepCounts(Fold(p, monthOf), txs[|txs| - 1], m);
      SumBump(a, m);
    } else {
      SumOfZeros(InitAcc.activity);
    }
  }

  lemma {:induction false} SumOfZeros(s: seq<int>)
    requires forall i :: 0 <= i < |s| ==> s[i] == 0
    ensures Sum(s) == 0
  {
    if s != [] { SumOfZeros(s[..|s| - 1]); }
  }

  /** Over one transaction's changes: the SUI volume splits into inflow and
      outflow, all of it goes to the "SUI" asset total, and the tally stays
      well formed. */
  lemma {:induction false} FlowConservation(f: Flow, cs: seq<BalanceChange>)
    ensures var g := FoldFlow(f, cs);
            && g.txVolume == f.txVolume + SuiVolume(cs)
            && g.inflow >= f.inflow && g.outflow >= f.outflow
            && g.txVolume - f.txVolume == (g.inflow - f.inflow) + (g.outflow - f.outflow)
            && Get(g.assets, "SUI") - Get(f.assets, "SUI") == g.txVolume - f.txVolume
            && (f.assets.Valid() ==> g.assets.Valid())
  {
    if cs != [] {
      FlowConservation(f, cs[..|cs| - 1]);
    }
  }

  lemma {:induction false} CountAllValid(t: Tally, people: seq<string>)
    ensures t.Valid() ==> CountAll(t, people).Valid()
    ensures forall k :: Get(CountAll(t, people), k) == Get(t, k) + Count(people, k)
  {
    if people != [] {
      CountAllValid(t, people[..|people| - 1]);
    }
  }

  /** Totals over all transactions: volume is inflow plus outflow, both
      non-negative, the "SUI" asset total equals the volume, and the volume
      is the sum of the per-transaction SUI volumes. */
  lemma {:induction false} VolumeConservation(txs: seq<TxRecord>, monthOf: int -> Month)
    ensures var acc := Fold(txs, monthOf);
            && acc.volume == acc.inflow + acc.outflow
            && acc.inflow >= 0 && acc.outflow >= 0
            && Get(acc.assets, "SUI") == acc.volume
            && acc.assets.Valid()
            && acc.volume == TotalSuiVolume(txs)
  {
    if txs != [] {
      var p := txs[..|txs| - 1];
      VolumeConservation(p, monthOf);
      var a := Fold(p, monthOf);
      FlowConservation(Flow(a.assets, 0, a.inflow, a.outflow), TxChanges(txs[|txs| - 1]));
    }
  }

  function TxChanges(tx: TxRecord): seq<BalanceChange> {
    match tx.balanceChanges
    case None => []
    case Some(cs) => cs
  }

  function TotalSuiVolume(txs: seq<TxRecord>): nat
  {
    if txs == [] then 0 else TotalSuiVolume(txs[..|txs| - 1]) + TxSuiVolume(txs[|txs| - 1])
  }

  /** A counterparty's count is its number of occurrences across all
      `interactedWith` lists, and the keys are exactly the counterparties
      that occur. */
  lemma {:induction false} InteractionCounts(txs: seq<TxRecord>, monthOf: int -> Month)
    ensures var t := Fold(txs, monthOf).interactions;
            && t.Valid()
            && forall k :: Get(t, k) == Occurrences(txs, k)
  {
    if txs != [] {
      var p := txs[..|txs| - 1];
      InteractionCounts(p, monthOf);
      CountAllValid(Fold(p, monthOf).interactions, txs[|txs| - 1].interactedWith);
    }
  }

  /** `amount` and `hash` describe the biggest transaction of `txs`: the
      amount bounds every transaction's SUI volume; it is 0 with hash ""
      when no volume is positive; otherwise it is the volume of the first
      transaction (in the given order) reaching it, whose digest is `hash`. */
  ghost predicate IsBiggest(txs: seq<TxRecord>, amount: int, hash: string) {
    && amount >= 0
    && (forall i :: 0 <= i < |txs| ==> TxSuiVolume(txs[i]) <= amount)
    && (amount == 0 ==> hash == "")
    && (amount > 0 ==>
          exists i :: 0 <= i < |txs| && TxSuiVolume(txs[i]) == amount && txs[i].digest == hash
            && forall j :: 0 <= j < i ==> TxSuiVolume(txs[j]) < amount)
  }

  /** The biggest transaction, as a reference definition on SUI volumes:
      a later transaction replaces it only when strictly larger. */
  function BiggestOf(txs: seq<TxRecord>): (int, string)
  {
    if txs == [] then (0, "")
    else
      var prev := BiggestOf(txs[..|txs| - 1]);
      var tx := txs[|txs| - 1];
      if TxSuiVolume(tx) > prev.0 then (TxSuiVolume(tx) as int, tx.digest) else prev
  }

  /** The aggregation keeps the reference biggest transaction. */
  lemma {:induction false} FoldBiggest(txs: seq<TxRecord>, monthOf: int -> Month)
    ensures Fold(txs, monthOf).biggestAmount == BiggestOf(txs).0
    ensures Fold(txs, monthOf).biggestHash == BiggestOf(txs).1
  {
    if txs != [] {
      var p := txs[..|txs| - 1];
      var tx := txs[|txs| - 1];
      FoldBiggest(p, monthOf);
      BiggestNonNegative(p);
      TxStepBiggest(Fold(p, monthOf), tx, monthOf(tx.timestamp));
    }
  }

  lemma {:induction false} BiggestNonNegative(txs: seq<TxRecord>)
    ensures BiggestOf(txs).0 >= 0
  {
    if txs != [] {
      BiggestNonNegative(txs[..|txs| - 1]);
    }
  }

  /** The reference biggest transaction bounds every volume and is the first
      to reach it. */
  lemma {:induction false} BiggestOfProps(txs: seq<TxRecord>)
    ensures IsBiggest(txs, BiggestOf(txs).0, BiggestOf(txs).1)
  {
    if txs != [] {
      var p := txs[..|txs| - 1];
      var tx := txs[|txs| - 1];
      BiggestOfProps(p);
      assert txs == p + [tx];
      BiggestExtend(p, tx, BiggestOf(p).0, BiggestOf(p).1, BiggestOf(txs).0, BiggestOf(txs).1);
    }
  }

  /** The biggest transaction as the aggregation keeps it. */
  lemma BiggestTx(txs: seq<TxRecord>, monthOf: int -> Month)
    ensures IsBiggest(txs, Fold(txs, monthOf).biggestAmount, Fold(txs, monthOf).biggestHash)
  {
    FoldBiggest(txs, monthOf);
    BiggestOfProps(txs);
  }

  /** Appending a transaction: it becomes the biggest when strictly larger. */
  lemma BiggestExtend(p: seq<TxRecord>, tx: TxRecord, a: int, aHash: string, b: int, bHash: string)
    requires IsBiggest(p, a, aHash)
    requires if TxSuiVolume(tx) > a then b == TxSuiVolume(tx) && bHash == tx.digest
             else b == a && bHash == aHash
    ensures IsBiggest(p + [tx], b, bHash)
  {
    var txs := p + [tx];
    forall i | 0 <= i < |txs| ensures TxSuiVolume(txs[i]) <= b {
      if i < |p| { assert txs[i] == p[i]; }
    }
    if b > 0 {
      if TxSuiVolume(tx) > a {
        forall j | 0 <= j < |p| ensures TxSuiVolume(txs[j]) < b {
          assert txs[j] == p[j];
        }
        assert TxSuiVolume(txs[|p|]) == b && txs[|p|].digest == bHash;
      } else {
        var i :| 0 <= i < |p| && TxSuiVolume(p[i]) == a && p[i].digest == aHash
                 && forall j :: 0 <= j < i ==> TxSuiVolume(p[j]) < a;
        forall j | 0 <= j < i ensures TxSuiVolume(txs[j]) < b {
          assert txs[j] == p[j];
        }
        assert txs[i] == p[i];
      }
    }
  }

  /** One step either installs the transaction as the biggest (strictly
      larger SUI volume) or leaves the biggest untouched. */
  lemma TxStepBiggest(acc: Acc, tx: TxRecord, m: Month)
    requires |acc.activity| == 12 && acc.biggestAmount >= 0
    ensures var b := TxStep(acc, tx, m);
            if TxSuiVolume(tx) > acc.biggestAmount
            then b.biggestAmount == TxSuiVolume(tx) && b.biggestHash == tx.digest
            else b.biggestAmount == acc.biggestAmount && b.biggestHash == acc.biggestHash
  {
    match tx.balanceChanges
    case None =>
    case Some(cs) =>
      FlowConservation(Flow(acc.assets, 0, acc.inflow, acc.outflow), cs);
  }

  /** What one transaction adds, against the per-transaction references:
      one to its month's bucket and none to the others, one per occurrence
      to each counterparty, its SUI volume to the total volume, to the
      "SUI" asset total and (split by sign) to inflow and outflow; a row
      whose changes are not an array leaves the assets and flows as they
      were. */
  lemma TxStepMeaning(acc: Acc, tx: TxRecord, m: Month)
    requires |acc.activity| == 12
    ensures var r := TxStep(acc, tx, m);
      && |r.activity| == 12
      && (forall m': Month :: r.activity[m'] == acc.activity[m'] + (if m' == m then 1 else 0))
      && (forall k :: Get(r.interactions, k) == Get(acc.interactions, k) + Count(tx.interactedWith, k))
      && r.volume == acc.volume + TxSuiVolume(tx)
      && r.inflow >= acc.inflow && r.outflow >= acc.outflow
      && (r.inflow - acc.inflow) + (r.outflow - acc.outflow) == TxSuiVolume(tx)
      && Get(r.assets, "SUI") == Get(acc.assets, "SUI") + TxSuiVolume(tx)
      && (tx.balanceChanges.None? ==> r.assets == acc.assets && r.inflow == acc.inflow && r.outflow == acc.outflow)
  {
    CountAllValid(acc.interactions, tx.interactedWith);
    FlowConservation(Flow(acc.assets, 0, acc.inflow, acc.outflow), TxChanges(tx));
  }

  /** One step raises its month's bucket by one and adds its counterparties. */
  lemma TxStepCounts(acc: Acc, tx: TxRecord, m: Month)
    requires |acc.activity| == 12
    ensures TxStep(acc, tx, m).activity == acc.activity[m := acc.activity[m] + 1]
    ensures TxStep(acc, tx, m).interactions == CountAll(acc.interactions, tx.interactedWith)
    ensures tx.balanceChanges.None? ==>
      TxStep(acc, tx, m) == acc.(activity := acc.activity[m := acc.activity[m] + 1],
                                 interactions := CountAll(acc.interactions, tx.interactedWith))
  {
  }

  // -------------------------------------------------------------- archetype

  datatype Archetype = Whale | Degen | Banker | Ghost | Normie

  /** A base-unit amount in SUI, exactly (the source divides by 1e9). */
  function ToSui(base: int): real { base as real / 1000000000.0 }

  /** `getArchetypeKey(volume, txCount, inflow, outflow)`. */
  function ArchetypeKey(volume: real, txCount: int, inflow: real, outflow: real): Archetype
  {
    if volume > 100000.0 then Whale
    else if txCount > 50 && volume < 1000.0 then Degen
    else if inflow > outflow * 1.5 then Banker
    else if txCount < 5 then Ghost
    else Normie
  }

  /** The rules apply in priority order: WHALE is exactly "volume above
      100000 SUI", whatever the count; DEGEN needs more than 50 transactions
      under 1000 SUI; BANKER needs inflow above 1.5 times outflow and wins
      over GHOST; GHOST needs fewer than 5 transactions; NORMIE is what is
      left. */
  lemma ArchetypePriority(volume: real, txCount: int, inflow: real, outflow: real)
    ensures ArchetypeKey(volume, txCount, inflow, outflow) == Whale <==> volume > 100000.0
    ensures ArchetypeKey(volume, txCount, inflow, outflow) == Degen ==> txCount > 50 && volume < 1000.0
    ensures ArchetypeKey(volume, txCount, inflow, outflow) == Banker ==> inflow > outflow * 1.5 && volume <= 100000.0
    ensures ArchetypeKey(volume, txCount, inflow, outflow) == Ghost ==> txCount < 5 && volume <= 100000.0 && inflow <= outflow * 1.5
    ensures ArchetypeKey(volume, txCount, inflow, outflow) == Normie ==> 5 <= txCount && volume <= 100000.0 && inflow <= outflow * 1.5
  {
  }

  /** 150000 SUI over 3 transactions is a WHALE, not a GHOST. */
  lemma WhaleBeforeGhost()
    ensures ArchetypeKey(150000.0, 3, 0.0, 0.0) == Whale
  {
  }

  /** The WHALE threshold in base units: above 10^14. */
  lemma WhaleInBaseUnits(volume: int)
    ensures ToSui(volume) > 100000.0 <==> volume > 100000000000000
  {
  }

  // ------------------------------------------------------------------ rank

  /** `Math.max(1, Math.floor(100 - logVolume * 5))`, where `logVolume` is
      `Math.log(totalVolume + 1)`. */
  function RankPercentile(logVolume: real): (r: int)
    ensures r >= 1
  {
    var raw := (100.0 - logVolume * 5.0).Floor;
    if raw < 1 then 1 else raw
  }

  /** A larger logarithm never gives a larger rank, so with a monotone
      logarithm more volume never ranks higher. */
  lemma RankMonotone(l1: real, l2: real)
    requires l1 <= l2
    ensures RankPercentile(l1) >= RankPercentile(l2)
  {
  }

  // --------------------------------------------------- recent transactions

  datatype Direction = Send | Receive

  /** One entry of `recentTransactions`; the constant fields (symbol "SUI",
      success) are omitted and `amount` is in base units. */
  datatype RecentTx = RecentTx(hash: string, direction: Direction, amount: nat, timestamp: int, counterparty: string)

  /** The aggregation throws when a recent row's balance changes are not an
      array (`changes.find` is not a function). */
  datatype StatsError = NotAnArray(digest: string)

  /** `changes.find(...)`: the first change with the native coin type. */
  function FirstSuiChange(cs: seq<BalanceChange>): (r: Option<nat>)
    ensures r.Some? ==> r.value < |cs| && IsSuiType(CoinTypeText(cs[r.value].coinType))
    ensures r.Some? ==> forall j :: 0 <= j < r.value ==> !IsSuiType(CoinTypeText(cs[j].coinType))
    ensures r.None? ==> forall j :: 0 <= j < |cs| ==> !IsSuiType(CoinTypeText(cs[j].coinType))
  {
    if cs == [] then None
    else if IsSuiType(CoinTypeText(cs[0].coinType)) then Some(0)
    else match FirstSuiChange(cs[1..])
      case None => None
      case Some(k) => Some(k + 1)
  }

  /** The display form of one transaction. Direction and amount come from the
      first native-coin change (negative: SEND, else RECEIVE); without one it
      is SEND with 0. The counterparty is the first interactor (or "Unknown")
      when the wallet sent it, otherwise the sender. */
  function Summarize(tx: TxRecord, wallet: string): Result<RecentTx, StatsError>
  {
    match tx.balanceChanges
    case None => Failure(NotAnArray(tx.digest))
    case Some(cs) =>
      var (direction, amount) :=
        match FirstSuiChange(cs)
        case None => (Send, 0)
        case Some(k) => (if cs[k].amount < 0 then Send else Receive, Abs(cs[k].amount));
      var counterparty :=
        if tx.sender == wallet
        then (if |tx.interactedWith| > 0 && tx.interactedWith[0] != "" then tx.interactedWith[0] else "Unknown")
        else tx.sender;
      Success(RecentTx(tx.digest, direction, amount, tx.timestamp, counterparty))
  }

  /** `txs.map(summarize)`, failing at the first row that throws. */
  function SummarizeAll(txs: seq<TxRecord>, wallet: string): Result<seq<RecentTx>, StatsError>
  {
    if txs == [] then Success([])
    else match Summarize(txs[0], wallet)
      case Failure(e) => Failure(e)
      case Success(r) =>
        match SummarizeAll(txs[1..], wallet)
        case Failure(e) => Failure(e)
        case Success(rs) => Success([r] + rs)
  }

  /** `txs.slice(0, 10).map(...)`. */
  function Recent(txs: seq<TxRecord>, wallet: string): Result<seq<RecentTx>, StatsError>
  {
    SummarizeAll(txs[..Min(10, |txs|)], wallet)
  }

  /** The summary succeeds exactly when every row has an array of changes,
      and then it has one entry per row, in the same order. */
  lemma {:induction false} SummarizeAllProps(txs: seq<TxRecord>, wallet: string)
    ensures SummarizeAll(txs, wallet).Success? <==>
      forall i :: 0 <= i < |txs| ==> txs[i].balanceChanges.Some?
    ensures SummarizeAll(txs, wallet).Success? ==>
      var rs := SummarizeAll(txs, wallet).value;
      |rs| == |txs| && forall i :: 0 <= i < |txs| ==> Summarize(txs[i], wallet) == Success(rs[i])
  {
    if txs != [] {
      SummarizeAllProps(txs[1..], wallet);
      assert forall i :: 1 <= i < |txs| ==> txs[i] == txs[1..][i - 1];
    }
  }

  /** What one summary says, in terms of the row: the hash and timestamp are
      the row's; SEND exactly when there is no native-coin change or the first
      one is negative; the amount is that change's absolute value (0 without
      one); the counterparty rule depends on whether the wallet sent it. */
  lemma SummarizeMeaning(tx: TxRecord, wallet: string)
    requires tx.balanceChanges.Some?
    ensures var cs := tx.balanceChanges.value;
            var r := Summarize(tx, wallet);
            && r.Success?
            && r.value.hash == tx.digest && r.value.timestamp == tx.timestamp
            && (r.value.direction == Send <==>
                  (forall j :: 0 <= j < |cs| ==> !IsSuiType(CoinTypeText(cs[j].coinType)))
                  || exists k :: 0 <= k < |cs| && IsSuiType(CoinTypeText(cs[k].coinType)) && cs[k].amount < 0
                       && forall j :: 0 <= j < k ==> !IsSuiType(CoinTypeText(cs[j].coinType)))
            && (tx.sender != wallet ==> r.value.counterparty == tx.sender)
            && (tx.sender == wallet && |tx.interactedWith| > 0 && tx.interactedWith[0] != "" ==>
                  r.value.counterparty == tx.interactedWith[0])
            && (tx.sender == wallet && (|tx.interactedWith| == 0 || tx.interactedWith[0] == "") ==>
                  r.value.counterparty == "Unknown")
  {
    var cs := tx.balanceChanges.value;
    match FirstSuiChange(cs)
    case None =>
    case Some(k) =>
      forall k' | 0 <= k' < |cs| && IsSuiType(CoinTypeText(cs[k'].coinType))
                  && forall j :: 0 <= j < k' ==> !IsSuiType(CoinTypeText(cs[j].coinType))
        ensures k' == k
      {
        if k' < k { } else if k < k' { }
      }
  }

  // --------------------------------------------------------------- snapshot

  /** The cached statistics of a wallet (amounts in base units). */
  datatype Snapshot = Snapshot(
    totalVolume: int,
    inflow: int,
    outflow: int,
    biggestTxHash: string,
    biggestTxAmount: int,
    topAssets: seq<Entry>,
    topInteractors: seq<Entry>,
    monthlyActivity: seq<Entry>,
    recentTransactions: seq<RecentTx>,
    rankPercentile: int,
    archetype: Archetype,
    txCount: nat)

  /** `Array.from(activityMap.entries())`: the 12 months in calendar order. */
  function Monthly(activity: seq<int>): seq<Entry>
    requires |activity| == 12
  {
    seq(12, i requires 0 <= i < 12 => Entry(MonthNames[i], activity[i]))
  }

  /** The statistics of `txs` (the wallet's rows, most recent first) as a
      value; `ln` is the natural logarithm the rank uses. */
  function StatsOf(txs: seq<TxRecord>, wallet: string, monthOf: int -> Month, ln: real -> real)
    : Result<Snapshot, StatsError>
  {
    match Recent(txs, wallet)
    case Failure(e) => Failure(e)
    case Success(recent) => Success(Assemble(Fold(txs, monthOf), recent, |txs|, ln))
  }

  /** The snapshot built from the final accumulators: top-five lists, the
      calendar-ordered months, the rank and the archetype. */
  function Assemble(acc: Acc, recent: seq<RecentTx>, txCount: nat, ln: real -> real): Snapshot
    requires |acc.activity| == 12
  {
    Snapshot(
      acc.volume, acc.inflow, acc.outflow, acc.biggestHash, acc.biggestAmount,
      Top(Entries(acc.assets)), Top(Entries(acc.interactions)), Monthly(acc.activity), recent,
      RankPercentile(ln(ToSui(acc.volume) + 1.0)),
      ArchetypeKey(ToSui(acc.volume), txCount, ToSui(acc.inflow), ToSui(acc.outflow)),
      txCount)
  }

  /** One step over a row whose changes are an array, given the flow over
      those changes. */
  lemma TxStepWithChanges(acc: Acc, tx: TxRecord, m: Month, f: Flow)
    requires |acc.activity| == 12 && tx.balanceChanges.Some?
    requires f == FoldFlow(Flow(acc.assets, 0, acc.inflow, acc.outflow), tx.balanceChanges.value)
    ensures TxStep(acc, tx, m)
         == Acc(acc.activity[m := acc.activity[m] + 1], CountAll(acc.interactions, tx.interactedWith),
                f.assets, acc.volume + f.txVolume, f.inflow, f.outflow,
                if f.txVolume > acc.biggestAmount then f.txVolume else acc.biggestAmount,
                if f.txVolume > acc.biggestAmount then tx.digest else acc.biggestHash)
  {
  }

  /** The inner loop over `tx.interactedWith`: one more for each entry. */
  method CountInteractions(t: Tally, people: seq<string>) returns (r: Tally)
    ensures r == CountAll(t, people)
  {
    r := t;
    var j := 0;
    while j < |people|
      invariant j <= |people|
      invariant r == CountAll(t, people[..j])
    {
      assert people[..j + 1][..j] == people[..j];
      r := Add(r, people[j], 1);
      j := j + 1;
    }
    assert people[..j] == people;
  }

  /** The inner loop over a row's balance changes, updating the asset totals,
      the row's SUI volume and the running inflow and outflow. */
  method ApplyChanges(start: Flow, changes: seq<BalanceChange>) returns (f: Flow)
    ensures f == FoldFlow(start, changes)
  {
    var assetMap, txVolume, inflow, outflow := start.assets, start.txVolume, start.inflow, start.outflow;
    var k := 0;
    while k < |changes|
      invariant k <= |changes|
      invariant Flow(assetMap, txVolume, inflow, outflow) == FoldFlow(start, changes[..k])
    {
      var change := changes[k];
      assert changes[..k + 1][..k] == changes[..k];
      var typeStr := CoinTypeText(change.coinType);
      if typeStr != "" {
        var symbol := Symbol(typeStr);
        var absAmount := Abs(change.amount);
        assetMap := Add(assetMap, symbol, absAmount);
        if symbol == "SUI" {
          txVolume := txVolume + absAmount;
          if change.amount > 0 {
            inflow := inflow + absAmount;
          } else {
            outflow := outflow + absAmount;
          }
        }
      }
      k := k + 1;
    }
    assert changes[..k] == changes;
    f := Flow(assetMap, txVolume, inflow, outflow);
  }

  /** One pass of the outer loop's body: the row's month bucket, its
      counterparties and, when its balance changes are an array, the inner
      loop over them and the biggest-transaction update. */
  method AddTx(acc: Acc, tx: TxRecord, m: Month) returns (r: Acc)
    requires |acc.activity| == 12
    ensures r == TxStep(acc, tx, m)
  {
    var activity := acc.activity[m := acc.activity[m] + 1];
    var interactions := CountInteractions(acc.interactions, tx.interactedWith);
    if tx.balanceChanges.None? {
      TxStepCounts(acc, tx, m);
      return acc.(activity := activity, interactions := interactions);
    }
    var f := ApplyChanges(Flow(acc.assets, 0, acc.inflow, acc.outflow), tx.balanceChanges.value);
    TxStepWithChanges(acc, tx, m, f);
    var biggestAmount, biggestHash := acc.biggestAmount, acc.biggestHash;
    if f.txVolume > biggestAmount {
      biggestAmount, biggestHash := f.txVolume, tx.digest;
    }
    r := Acc(activity, interactions, f.assets, acc.volume + f.txVolume, f.inflow, f.outflow, biggestAmount, biggestHash);
  }

  /** The aggregation in `calculateAndCacheStats`: the outer loop over the
      rows, then the most recent rows and the assembly of the snapshot. */
  method Aggregate(txs: seq<TxRecord>, wallet: string, monthOf: int -> Month, ln: real -> real)
    returns (r: Result<Snapshot, StatsError>)
    ensures r == StatsOf(txs, wallet, monthOf, ln)
  {
    var acc := InitAcc;
    var i := 0;
    while i < |txs|
      invariant i <= |txs|
      invariant Fold(txs[..i], monthOf) == acc
    {
      var tx := txs[i];
      FoldStep(txs, i, monthOf);
      acc := AddTx(acc, tx, monthOf(tx.timestamp));
      i := i + 1;
    }
    assert txs[..i] == txs;

    var recent := Recent(txs, wallet);
    if recent.Failure? {
      return Failure(recent.error);
    }
    r := Success(Assemble(acc, recent.value, |txs|, ln));
  }

  // ------------------------------------------------ snapshot properties

  /** The aggregation fails only when one of the ten most recent rows has
      balance changes that are not an array. */
  lemma StatsFailure(txs: seq<TxRecord>, wallet: string, monthOf: int -> Month, ln: real -> real)
    ensures StatsOf(txs, wallet, monthOf, ln).Failure? <==>
      exists i :: 0 <= i < Min(10, |txs|) && txs[i].balanceChanges.None?
  {
    var head := txs[..Min(10, |txs|)];
    SummarizeAllProps(head, wallet);
    assert StatsOf(txs, wallet, monthOf, ln).Failure? <==> SummarizeAll(head, wallet).Failure?;
    if SummarizeAll(head, wallet).Failure? {
      var i :| 0 <= i < |head| && head[i].balanceChanges.None?;
      assert txs[i] == head[i];
    } else {
      forall i | 0 <= i < Min(10, |txs|) ensures txs[i].balanceChanges.Some? {
        assert txs[i] == head[i];
      }
    }
  }

  /** What a computed snapshot promises: the transaction count; 12 monthly
      buckets named Jan..Dec adding up to the count; volume = inflow +
      outflow; the biggest amount bounds every transaction's SUI volume; at
      most five top assets and top counterparties, each list non-increasing;
      min(10, n) recent entries, for the first rows in order; a rank of at
      least 1. */
  lemma SnapshotFacts(txs: seq<TxRecord>, wallet: string, monthOf: int -> Month, ln: real -> real)
    requires StatsOf(txs, wallet, monthOf, ln).Success?
    ensures var s := StatsOf(txs, wallet, monthOf, ln).value;
            && s.txCount == |txs|
            && |s.monthlyActivity| == 12
            && (forall i :: 0 <= i < 12 ==> s.monthlyActivity[i].key == MonthNames[i])
            && Sum(seq(12, i requires 0 <= i < 12 => s.monthlyActivity[i].value)) == |txs|
            && s.totalVolume == s.inflow + s.outflow
            && (forall i :: 0 <= i < |txs| ==> TxSuiVolume(txs[i]) <= s.biggestTxAmount)
            && |s.topAssets| <= 5 && SortedDesc(s.topAssets, EntryValue)
            && |s.topInteractors| <= 5 && SortedDesc(s.topInteractors, EntryValue)
            && |s.recentTransactions| == Min(10, |txs|)
            && (forall i :: 0 <= i < |s.recentTransactions| ==> s.recentTransactions[i].hash == txs[i].digest)
            && s.rankPercentile >= 1
  {
    var acc := Fold(txs, monthOf);
    var s := StatsOf(txs, wallet, monthOf, ln).value;
    Histogram(txs, monthOf);
    assert seq(12, i requires 0 <= i < 12 => s.monthlyActivity[i].value) == acc.activity;
    VolumeConservation(txs, monthOf);
    BiggestTx(txs, monthOf);
    TopEntries(Entries(acc.assets));
    TopEntries(Entries(acc.interactions));
    var head := txs[..Min(10, |txs|)];
    SummarizeAllProps(head, wallet);
    forall i | 0 <= i < |s.recentTransactions| ensures s.recentTransactions[i].hash == txs[i].digest {
      assert head[i] == txs[i];
    }
  }

  /** A wallet with no transactions: count 0, volume 0, no top assets, and
      the GHOST archetype. */
  lemma EmptyWallet(wallet: string, monthOf: int -> Month, ln: real -> real)
    ensures StatsOf([], wallet, monthOf, ln).Success?
    ensures var s := StatsOf([], wallet, monthOf, ln).value;
            s.txCount == 0 && s.totalVolume == 0 && s.topAssets == [] && s.archetype == Ghost
              && s.biggestTxHash == "" && s.recentTransactions == []
  {
  }
}
