/**
 * `inputDB` without its connection handling: ingest the transactions, run
 * the aggregation over the stored documents, and process the aggregates.
 */
module Pipeline {
  import opened Wrappers
  import opened Transactions
  import opened Ingestion
  import opened Aggregation
  import opened Deposits

  /** The keys of the stored documents that pass the `$match` stage. */
  function ValidKeys(docs: map<Key, Record>): set<Key>
  {
    set k | k in docs && IsValidDeposit(docs[k])
  }

  /** The keys among `order` whose stored documents pass the `$match` stage. */
  function ValidAmong(docs: map<Key, Record>, order: seq<Key>): set<Key>
  {
    set k | k in order && k in docs && IsValidDeposit(docs[k])
  }

  lemma ValidAmongCons(docs: map<Key, Record>, order: seq<Key>)
    requires order != []
    ensures ValidAmong(docs, order) ==
      (if order[0] in docs && IsValidDeposit(docs[order[0]]) then {order[0]} else {}) + ValidAmong(docs, order[1..])
  {
  }

  /**
   * Reading the documents in any order, one per key, finds as many valid
   * deposits as there are valid stored documents.
   */
  lemma {:induction false} ValidDepositsOfScan(docs: map<Key, Record>, rs: seq<Record>, order: seq<Key>)
    requires |order| == |rs|
    requires forall i :: 0 <= i < |order| ==> order[i] in docs && rs[i] == docs[order[i]]
    requires forall i, j :: 0 <= i < j < |order| ==> order[i] != order[j]
    ensures |ValidDeposits(rs)| == |ValidAmong(docs, order)|
  {
    if rs == [] {
      assert ValidAmong(docs, order) == {};
    } else {
      var rs', order' := rs[1..], order[1..];
      assert forall i :: 0 <= i < |order'| ==> order'[i] == order[i + 1] && rs'[i] == rs[i + 1];
      ValidDepositsOfScan(docs, rs', order');
      assert order[0] !in order';
      ValidAmongCons(docs, order);
      assert order[0] !in ValidAmong(docs, order');
    }
  }

  /** A scan of the store reads the valid stored documents, each once. */
  ghost predicate IsScanOf(docs: map<Key, Record>, rs: seq<Record>, order: seq<Key>)
  {
    && |order| == |rs|
    && (forall i :: 0 <= i < |order| ==> order[i] in docs && rs[i] == docs[order[i]])
    && (forall i, j :: 0 <= i < j < |order| ==> order[i] != order[j])
    && (forall k :: k in docs ==> k in order)
  }

  /** Aggregating a scan of the store counts every valid stored document once. */
  lemma AggregatesOfScanCount(docs: map<Key, Record>, rs: seq<Record>, order: seq<Key>)
    requires IsScanOf(docs, rs, order)
    ensures TotalCount(AggregateValidDeposits(rs)) == |ValidKeys(docs)|
  {
    ValidDepositsOfScan(docs, rs, order);
    assert ValidKeys(docs) == ValidAmong(docs, order);
  }

  /** Aggregating a scan of the store gives no aggregate exactly when no stored document is valid. */
  lemma AggregatesOfScanEmpty(docs: map<Key, Record>, rs: seq<Record>, order: seq<Key>)
    requires IsScanOf(docs, rs, order)
    ensures AggregateValidDeposits(rs) == [] <==> ValidKeys(docs) == {}
  {
    AggregatesOfScanCount(docs, rs, order);
    var aggs := AggregateValidDeposits(rs);
    if aggs != [] {
      assert aggs[0].id in Ids(aggs);
      var r :| r in rs && IsValidDeposit(r) && r.address == aggs[0].id;
      assert r in ValidDeposits(rs);
    }
  }

  /** Every aggregate the filter keeps is listed and counts at least one deposit. */
  lemma ReferencedAggregates(docs: seq<Record>, directory: map<string, string>)
    ensures forall g :: g in Referenced(AggregateValidDeposits(docs), directory) ==> IsListed(directory, g.id) && 1 <= g.count
  {
    var aggs := AggregateValidDeposits(docs);
    forall g | g in Referenced(aggs, directory) ensures IsListed(directory, g.id) && 1 <= g.count {
      ReferencedMembers(aggs, directory);
      var i :| 0 <= i < |aggs| && aggs[i] == g;
    }
  }

  /**
   * `inputDB`: after the run the store holds the ingested transactions, and
   * the report accounts for every valid stored deposit exactly once: what is
   * referenced plus what is not adds up to the number of valid documents.
   */
  method InputDB(collection: TransactionCollection, transactions: seq<Record>, directory: map<string, string>)
    returns (data: DepositsData)
    modifies collection
    ensures collection.docs == Ingested(transactions, GenerateQuery)
    ensures forall g :: g in data.referenced ==> IsListed(directory, g.id) && 1 <= g.count
    ensures data.noReference.count + TotalCount(data.referenced) == |ValidKeys(collection.docs)|
    ensures data.max.None? <==> ValidKeys(collection.docs) == {}
  {
    BatchUpsert(collection, GenerateQuery, transactions);
    var docs, order := collection.Documents();
    var totalDepositsPerCustomer := AggregateValidDeposits(docs);
    data := ProcessDeposits(totalDepositsPerCustomer, directory);

    ReferencedAggregates(docs, directory);
    AggregatesOfScanCount(collection.docs, docs, order);
    AggregatesOfScanEmpty(collection.docs, docs, order);
  }
}
