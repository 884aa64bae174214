/** Optional values: `None` stands for JavaScript's `undefined` and `-Infinity` results. */
module Wrappers {
  datatype Option<+T> = None | Some(value: T)
}

/**
 * The transaction record as the wallet reports it and the store keeps it.
 * Only the fields the deposit report interprets are kept; amounts are exact
 * integers counted in units of 10^-8 (one satoshi), so sums never drift.
 */
module Transactions {

  /** Number of amount units in one coin: the report shows eight decimals. */
  const UnitsPerCoin: int := 100_000_000

  datatype Record = Record(
    address: string,
    category: string,
    amount: int,          // in units of 10^-8
    confirmations: int,
    txid: string,
    vout: int
  )

  /** The natural key of a stored record: one transaction output. */
  type Key = (string, int)

  /** The upsert query built for each record during ingestion: `{txid, vout}`. */
  function GenerateQuery(r: Record): Key
  {
    (r.txid, r.vout)
  }
}
