# Deposit report pipeline — a Dafny model

This project models the deposit-report core of a small Node.js tool. The tool
loads wallet transaction records into a MongoDB collection. It then asks the
database for the valid deposits grouped by receiving address, and reports how
much each known customer deposited, how much arrived for addresses outside the
customer directory, and the smallest and largest per-address totals.

The model has five modules:

- `Transactions` (`transactions.dfy`): the transaction record and its natural
  key `(txid, vout)`, which is the upsert query built in `inputDB`. Amounts are
  exact integers in units of 10^-8, and the report prints eight decimals.
  Ingestion writes through `model.collection`, the driver's collection, which
  skips the schema's casting. The stored amounts are therefore the JSON
  numbers as binary doubles, not the `Decimal128` the schema declares
  (TransactionModel.js:10).
- `Ingestion` (`ingestion.dfy`): `batchUpsert`. The collection is a class with a
  `docs: map<Key, Record>` field, and the ordered bulk operation is a class
  holding its queued upserts. `BatchUpsert` drops the collection, queues one
  upsert per input record in input order, and executes the batch. Lemmas state
  what the store then holds: exactly the input keys, each with the last record
  carrying that key. Another lemma shows that the batch is idempotent.
- `Aggregation` (`aggregation.dfy`): the meaning of the `$match`/`$group`
  pipeline, as functions over the stored documents. They are proved against
  independent per-address count and sum definitions.
- `Deposits` (`deposits.dfy`): `processDeposits` and the selection loop of
  `showDeposits`. The reduce that totals the unreferenced aggregates and the
  loop that computes `min` are methods with loops. The filter and `Math.max` are
  functions. The directory (`CUSTOMER_ADDRESS`) is a `map<string, string>`
  parameter.
- `Pipeline` (`pipeline.dfy`): `inputDB` without its connection handling. It
  runs ingest, then aggregate, then process. It is proved to account for every
  valid stored deposit exactly once.

The directory lookup follows JavaScript truthiness: a key counts as listed when
it is present with a non-empty name. The `min` sentinel is
`Number.MAX_SAFE_INTEGER` coins, which is 9007199254740991 · 10^8 amount units,
because the source compares coin values against that number.

Two behaviours of the code shape the model:

- The code leaves `min` at the sentinel when no sum is non-negative.
- The code catches and logs errors in `inputDB` and returns nothing.

The model corrects the code in one place, the membership test at app.js:136.
It tests membership by `_id`, as the filter at app.js:147 does, and records
the code as written under "Findings". The other differences are listed under
"Left out".

## Model

| member | source | states |
|---|---|---|
| `Ingestion.ApplyUpsertsKeys` | app.js:68-72 | after an ordered batch of upserts, the store holds its earlier keys plus exactly the keys the batch queried |
| `Ingestion.ApplyUpsertsLastWins` | app.js:69-72 | an upsert that no later upsert in the batch overwrites decides the stored document under its key |
| `Ingestion.ApplyUpsertsUntouched` | app.js:71 | a key the batch never queries keeps its earlier document, or stays absent |
| `Ingestion.LastUpsertFor` | app.js:69-72 | every key the batch writes has a last upsert, and no later upsert uses that key |
| `Ingestion.ApplyUpsertsIdempotent` | app.js:68-76 | applying the same ordered upsert batch twice leaves the same store as applying it once |
| `Ingestion.IngestedContents` | app.js:65-78 | after drop and batch, the keys are exactly the queried keys of the input; each key holds the last input record with that key; nothing from before survives |
| `Ingestion.TransactionCollection.Drop` | app.js:67 | the collection is empty afterwards |
| `Ingestion.TransactionCollection.Upsert` | app.js:71 | the document under the query is replaced or inserted; every other key is unchanged |
| `Ingestion.TransactionCollection.Documents` | app.js:84 | the aggregation reads each stored document exactly once, in an order the store chooses: every stored document is read, and nothing else is |
| `Ingestion.OrderedBulkOp.FindUpsertUpdateOne` | app.js:71 | the upsert is appended to the queued batch, after the earlier ones |
| `Ingestion.OrderedBulkOp.Execute` | app.js:73 | the queued upserts are applied to the collection in queue order |
| `Ingestion.BatchUpsert` | app.js:65-78 | the collection ends up as the drop followed by the batch. The result depends on the input alone, so a second run on the same input leaves the same store |
| `Aggregation.ValidDeposits` | app.js:86-91 | a record is kept iff it has at least 6 confirmations and category `receive` or `generate`; every valid record is kept exactly as many times as it occurs in the input, and no invalid one is kept |
| `Aggregation.ValidityBoundary` | app.js:86-91 | confirmations 5 is excluded; 6 with `send` is excluded; 6 with `receive` is included |
| `Aggregation.AllValid` | app.js:86-91 | when every record is a valid deposit, `$match` returns the input unchanged, in order |
| `Aggregation.CountForPresent` | app.js:96-98 | an address that occurs among the grouped records has a count of at least 1 |
| `Aggregation.AddToGroupCorrect` | app.js:93-102 | adding one more document to a correct grouping gives a correct grouping of the longer input |
| `Aggregation.GroupCorrect` | app.js:93-102 | grouping yields distinct `_id`s, one per address present, each with that address's record count and exact amount total |
| `Aggregation.GroupTotals` | app.js:96-101 | the grouped counts add up to the number of records; the grouped sums add up to their total amount |
| `Aggregation.AggregateValidDeposits` | app.js:83-104 | one aggregate per distinct address among the valid documents, with no duplicate `_id`. Each count is at least 1 and equals the number of valid documents for that address; each sum is their exact total. Counts add up to the number of valid documents |
| `Aggregation.ExactSumExample` | app.js:99-101 | three deposits of 0.00000001 to one address aggregate to count 3 and sum exactly 0.00000003 |
| `Deposits.ReferencedMembers` | app.js:146-148 | the filter keeps exactly the aggregates whose `_id` is listed in the directory, each as many times as it occurs in the input, and no other |
| `Deposits.ReferencedAppend` | app.js:146-148 | the filter keeps the input order: filtering a concatenation is the concatenation of the filtered parts |
| `Deposits.ReferencedAllListed` | app.js:146-148 | when every `_id` is listed, the filter returns its input unchanged, in order |
| `Deposits.UnlistedMembers` | app.js:135-144 | the reduce takes exactly the aggregates whose lookup key is not listed, each as many times as it occurs in the input, and no other |
| `Deposits.UnlistedAppend` | app.js:135-144 | the reduce visits the aggregates in input order: selecting from a concatenation is the concatenation of the selections |
| `Deposits.PartitionTotals` | app.js:135-148 | by `_id`, the referenced and unreferenced aggregates together account for every count and every amount |
| `Deposits.ObjectKeyLookupIsUniform` | app.js:136 | when the lookup uses the object's property key, every aggregate gets the same answer: all are totalled, or none is |
| `Deposits.ObjectKeyLookupMisclassifies` | app.js:135-148 | directory `{A}` with aggregates A(2, 1.5) and B(1, 0.5): the lookup as written gives unreferenced (3, 2.0); the lookup by `_id` gives (1, 0.5), and only A is referenced |
| `Deposits.FoldNoReference` | app.js:135-144 | starting from `{0, 0}`, the count and sum are the totals of exactly the aggregates that fail the membership test; an empty list gives `{0, 0}` |
| `Deposits.MathMax` | app.js:150-151 | none iff there are no sums; otherwise the result is one of the sums and at least every sum |
| `Deposits.SmallestNonNegative` | app.js:152-157 | `min` lies between 0 and the sentinel, is either the sentinel or one of the sums, and is at most every non-negative sum |
| `Deposits.SentinelWithoutSmallDeposit` | app.js:152-157 | when no sum is both non-negative and below the sentinel, `min` stays at the sentinel |
| `Deposits.MinMaxExample` | app.js:150-157 | for sums `[5, -2, 10]`, `min` is 5 and `max` is 10 |
| `Deposits.ProcessDeposits` | app.js:134-167 | the unreferenced totals are taken by `_id`; `referenced` is the filter's result; the two parts add up to all counts and sums; `max` is none iff there are no aggregates and otherwise bounds every sum; `min` is the smallest non-negative sum, capped by the sentinel |
| `Deposits.FindIndex` | app.js:116-118 | `find` returns the first referenced aggregate with the address as `_id`, and finds nothing iff no aggregate has that `_id` |
| `Deposits.SelectKnownCustomers` | app.js:114-122 | a line exists exactly for the directory addresses some referenced aggregate has as `_id`. It carries the directory name and the first such aggregate; other addresses are absent, not zero-filled |
| `Deposits.ReportedAddresses` | app.js:146-148 | a directory address has a referenced aggregate iff it is listed and some aggregate has it as `_id` |
| `Pipeline.ValidDepositsOfScan` | app.js:186-187 | reading the stored documents once each, in any order, finds as many valid deposits as there are valid stored documents |
| `Pipeline.AggregatesOfScanCount` | app.js:186-187 | aggregating the documents read from the store counts every valid stored document exactly once |
| `Pipeline.AggregatesOfScanEmpty` | app.js:186-187 | aggregating the documents read from the store gives no aggregate iff no stored document is valid |
| `Pipeline.ReferencedAggregates` | app.js:146-148 | every aggregate the filter keeps from the aggregation result is listed in the directory and counts at least one deposit |
| `Pipeline.InputDB` | app.js:175-194 | the store holds the ingested input keyed by `(txid, vout)`. Every referenced aggregate is listed and has count ≥ 1. Referenced plus unreferenced counts equal the number of valid stored documents. `max` is none iff no stored document is valid |

## Left out

- Connection handling: `openConnection`, `mongoose.connect` and `db.close`, with the promise and async wiring (app.js:49-56, 175-194). These are I/O and library calls.
- Error paths: `throwError` (app.js:40-42), the batch error at app.js:74 and the catch in `inputDB` (app.js:191-193). The model's batch always succeeds.
- Ingestion.BatchUpsert: `model.collection.drop()` at app.js:67 is neither awaited nor given a callback, so nothing orders it before `batch.execute` at app.js:73. When the collection does not exist, its rejection also goes unhandled. The model assumes the drop completes before the batch runs, and `IngestedContents` and `ApplyUpsertsIdempotent` rest on that order. An empty input is a second gap: the MongoDB driver (not part of this model) refuses to execute a bulk operation with no operations. The code then reaches the error path at app.js:74 and produces no report, while `BatchUpsert` and `InputDB` on `[]` leave an empty store and an empty report.
- Input and configuration: `parseJSON`, the two JSON files, their concatenation and `MONGODB_CONTAINER` (app.js:5, 22-34, 196-199). `InputDB` takes the concatenated record sequence as a parameter.
- Console output in `showDeposits` (app.js:120, 124-126). It formats through `parseFloat(...).toFixed(8)`, which is floating point and presentation only.
- The order of the report lines. `for...in` visits the directory in insertion order, but the directory here is a `map`, so the report is a map keyed by address.
- Passthrough fields of the schema (TransactionModel.js:5-22): `blockhash`, `label`, `time` and the rest. They are not interpreted, so the record drops them.
- Deposits.FoldNoReference: `acc.sum += curr.sum` adds binary doubles, which rounds. The model uses exact integer addition.
- Deposits.MathMax: `Math.max` and the `<` comparisons in the `min` loop compare binary doubles. The model compares the exact amounts, which can order two sums differently only when they round to the same double.
- Aggregation.AggregateValidDeposits: the `$sum` at app.js:100 adds the stored doubles and rounds, so a per-address sum can differ from the exact total in the last places. The model's sums are exact integers in units of 10^-8 (`AggregateValidDeposits`, `ExactSumExample`).
- The order of the `$group` output, which MongoDB leaves unspecified. The model emits groups in order of first appearance, and no property depends on that order.
- Deposits.IsListed: JavaScript property lookup also finds inherited properties such as `constructor`. The model consults only the directory's own entries.
- Records with missing or mistyped fields, which `$match` and `$group` would treat specially. The record type here has every field.
- Concurrent runs and the empty window between drop and batch. The code has no locking and runs once.

## Findings

| source | as written | input that shows it | evidently intended | confidence | as-written member | corrected member |
|---|---|---|---|---|---|---|
| app.js:136 | `CUSTOMER_ADDRESS[curr]` indexes the directory with the aggregate object, whose property key is `"[object Object]"`, so every aggregate is totalled as unreferenced | directory `{A: Alice}`, aggregates A(2, 1.5) and B(1, 0.5): unreferenced is (3, 2.0) instead of (1, 0.5) | look up `curr._id`, as the filter at app.js:147 does | high (not executed) | `Deposits.ObjectKeyLookupMisclassifies` | `Deposits.PartitionTotals` |
