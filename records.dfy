/** The transaction rows both indexers write and the aggregation reads back. */
module Records {
  import opened Wrappers

  /** A balance change's `coinType` as stored: a type string, or the legacy
      `{ repr }` object of older rows, or anything else (absent, not a
      string). */
  datatype CoinTypeField = TypeString(s: string) | LegacyRepr(repr: Option<string>) | NoType

  /** One stored balance change; `amount` is the raw signed amount in base
      units. */
  datatype BalanceChange = BalanceChange(amount: int, coinType: CoinTypeField, owner: string)

  /** One stored transaction row, keyed by `digest`. `balanceChanges` is a
      JSON column: `None` stands for a stored value that is not an array. */
  datatype TxRecord = TxRecord(
    digest: string,
    timestamp: int,
    sender: string,
    userAddress: string,
    interactedWith: seq<string>,
    balanceChanges: Option<seq<BalanceChange>>)
}
