/**
 * Ingestion: `batchUpsert` drops the transaction collection, queues one
 * upsert per input record (keyed by the query `generateQuery` builds) in an
 * ordered bulk operation, and executes the batch in input order.
 */
module Ingestion {
  import opened Transactions

  /** One queued operation of the ordered batch: upsert `doc` under `query`. */
  datatype UpsertOp = UpsertOp(query: Key, doc: Record)

  /** The store after applying `ops` in order: each op replaces (or inserts) the document under its query. */
  function ApplyUpserts(store: map<Key, Record>, ops: seq<UpsertOp>): map<Key, Record>
  {
    if ops == [] then store
    else ApplyUpserts(store, ops[..|ops| - 1])[ops[|ops| - 1].query := ops[|ops| - 1].doc]
  }

  /** The keys a batch writes to. */
  function Queries(ops: seq<UpsertOp>): set<Key>
  {
    set op | op in ops :: op.query
  }

  /** The batch the `forEach` loop queues: one upsert per object, in input order. */
  function UpsertOps(objects: seq<Record>, generateQuery: Record -> Key): seq<UpsertOp>
  {
    seq(|objects|, i requires 0 <= i < |objects| => UpsertOp(generateQuery(objects[i]), objects[i]))
  }

  /** The collection a run of `batchUpsert` leaves: the dropped (empty) collection with the batch applied. */
  function Ingested(objects: seq<Record>, generateQuery: Record -> Key): map<Key, Record>
  {
    ApplyUpserts(map[], UpsertOps(objects, generateQuery))
  }

  /** `objects[i]` is the last object in the input whose query is `generateQuery(objects[i])`. */
  predicate IsLastWithQuery(objects: seq<Record>, generateQuery: Record -> Key, i: int)
    requires 0 <= i < |objects|
  {
    forall j :: i < j < |objects| ==> generateQuery(objects[j]) != generateQuery(objects[i])
  }

  /** After a batch the store holds its previous keys and exactly the keys the batch wrote. */
  lemma {:induction false} ApplyUpsertsKeys(store: map<Key, Record>, ops: seq<UpsertOp>)
    ensures ApplyUpserts(store, ops).Keys == store.Keys + Queries(ops)
  {
    if ops != [] {
      var init, last := ops[..|ops| - 1], ops[|ops| - 1];
      ApplyUpsertsKeys(store, init);
      assert ops == init + [last];
      assert Queries(ops) == Queries(init) + {last.query};
    }
  }

  /** An upsert that no later upsert overwrites decides the stored document. */
  lemma {:induction false} ApplyUpsertsLastWins(store: map<Key, Record>, ops: seq<UpsertOp>, i: nat)
    requires i < |ops|
    requires forall j :: i < j < |ops| ==> ops[j].query != ops[i].query
    ensures ops[i].query in ApplyUpserts(store, ops)
    ensures ApplyUpserts(store, ops)[ops[i].query] == ops[i].doc
  {
    if i < |ops| - 1 {
      var init := ops[..|ops| - 1];
      assert init[i] == ops[i];
      ApplyUpsertsLastWins(store, init, i);
    }
  }

  /** A key the batch never writes keeps whatever the store held under it. */
  lemma {:induction false} ApplyUpsertsUntouched(store: map<Key, Record>, ops: seq<UpsertOp>, k: Key)
    requires k !in Queries(ops)
    ensures k in ApplyUpserts(store, ops) <==> k in store
    ensures k in store ==> ApplyUpserts(store, ops)[k] == store[k]
  {
    if ops != [] {
      var init := ops[..|ops| - 1];
      assert Queries(init) <= Queries(ops);
      ApplyUpsertsUntouched(store, init, k);
    }
  }

  /** Every written key has a last upsert in the batch. */
  lemma {:induction false} LastUpsertFor(ops: seq<UpsertOp>, k: Key) returns (i: nat)
    requires k in Queries(ops)
    ensures i < |ops| && ops[i].query == k
    ensures forall j :: i < j < |ops| ==> ops[j].query != k
  {
    var last := ops[|ops| - 1];
    if last.query == k {
      i := |ops| - 1;
    } else {
      var init := ops[..|ops| - 1];
      assert ops == init + [last];
      assert k in Queries(init);
      i := LastUpsertFor(init, k);
    }
  }

  /** Applying the same ordered batch twice gives the store applying it once gives. */
  lemma {:induction false} ApplyUpsertsIdempotent(store: map<Key, Record>, ops: seq<UpsertOp>)
    ensures ApplyUpserts(ApplyUpserts(store, ops), ops) == ApplyUpserts(store, ops)
  {
    var once := ApplyUpserts(store, ops);
    var twice := ApplyUpserts(once, ops);
    ApplyUpsertsKeys(store, ops);
    ApplyUpsertsKeys(once, ops);
    forall k | k in twice
      ensures twice[k] == once[k]
    {
      if k in Queries(ops) {
        var i := LastUpsertFor(ops, k);
        ApplyUpsertsLastWins(store, ops, i);
        ApplyUpsertsLastWins(once, ops, i);
      } else {
        ApplyUpsertsUntouched(once, ops, k);
      }
    }
  }

  /**
   * A run of `batchUpsert` leaves exactly the queried keys of the input, each
   * holding the last input object with that key; nothing older survives the drop.
   */
  lemma {:induction false} IngestedContents(objects: seq<Record>, generateQuery: Record -> Key)
    ensures Ingested(objects, generateQuery).Keys == set r | r in objects :: generateQuery(r)
    ensures forall i | 0 <= i < |objects| && IsLastWithQuery(objects, generateQuery, i) ::
      Ingested(objects, generateQuery)[generateQuery(objects[i])] == objects[i]
  {
    var ops := UpsertOps(objects, generateQuery);
    ApplyUpsertsKeys(map[], ops);
    assert Queries(ops) == set r | r in objects :: generateQuery(r) by {
      forall k | k in Queries(ops) ensures k in set r | r in objects :: generateQuery(r) {
        var op :| op in ops && op.query == k;
        var i :| 0 <= i < |ops| && ops[i] == op;
        assert objects[i] in objects;
      }
      forall k | k in set r | r in objects :: generateQuery(r) ensures k in Queries(ops) {
        var r :| r in objects && generateQuery(r) == k;
        var i :| 0 <= i < |objects| && objects[i] == r;
        assert ops[i] in ops;
      }
    }
    forall i | 0 <= i < |objects| && IsLastWithQuery(objects, generateQuery, i)
      ensures Ingested(objects, generateQuery)[generateQuery(objects[i])] == objects[i]
    {
      ApplyUpsertsLastWins(map[], ops, i);
    }
  }

  /** The collection of transaction documents. */
  class TransactionCollection {
    var docs: map<Key, Record>

    constructor ()
      ensures docs == map[]
    {
      docs := map[];
    }

    /** `collection.drop()`: every document goes. */
    method Drop()
      modifies this
      ensures docs == map[]
    {
      docs := map[];
    }

    /**
     * Read every stored document, as the aggregation pipeline does, in an
     * order the store chooses; `order` gives the key each one is stored under.
     */
    method Documents() returns (rs: seq<Record>, ghost order: seq<Key>)
      ensures |order| == |rs|
      ensures forall i :: 0 <= i < |order| ==> order[i] in docs && rs[i] == docs[order[i]]
      ensures forall i, j :: 0 <= i < j < |order| ==> order[i] != order[j]
      ensures forall k :: k in docs ==> k in order
      ensures forall k :: k in docs ==> docs[k] in rs
      ensures forall r :: r in rs ==> r in docs.Values
    {
      rs, order := [], [];
      var pending := docs.Keys;
      while pending != {}
        invariant pending <= docs.Keys
        invariant |order| == |rs|
        invariant forall i :: 0 <= i < |order| ==> order[i] in docs && order[i] !in pending && rs[i] == docs[order[i]]
        invariant forall i, j :: 0 <= i < j < |order| ==> order[i] != order[j]
        invariant forall k :: k in docs ==> k in pending || k in order
        decreases |pending|
      {
        var k :| k in pending;
        rs, order := rs + [docs[k]], order + [k];
        pending := pending - {k};
      }
      forall k | k in docs ensures docs[k] in rs {
        ghost var i :| 0 <= i < |order| && order[i] == k;
      }
    }

    /** One upsert: replace the document under `op.query`, or insert it. */
    method Upsert(op: UpsertOp)
      modifies this
      ensures docs == old(docs)[op.query := op.doc]
    {
      docs := docs[op.query := op.doc];
    }
  }

  /** `initializeOrderedBulkOp()`: operations are queued, then executed in order. */
  class OrderedBulkOp {
    var ops: seq<UpsertOp>

    constructor ()
      ensures ops == []
    {
      ops := [];
    }

    /** `batch.find(query).upsert().updateOne(doc)`: queue one upsert. */
    method FindUpsertUpdateOne(query: Key, doc: Record)
      modifies this
      ensures ops == old(ops) + [UpsertOp(query, doc)]
    {
      ops := ops + [UpsertOp(query, doc)];
    }

    /** `batch.execute()`: apply the queued upserts to the collection, first to last. */
    method Execute(collection: TransactionCollection)
      modifies collection
      ensures collection.docs == ApplyUpserts(old(collection.docs), ops)
    {
      for i := 0 to |ops|
        invariant collection.docs == ApplyUpserts(old(collection.docs), ops[..i])
      {
        assert ops[..i + 1][..i] == ops[..i];
        collection.Upsert(ops[i]);
      }
      assert ops[..|ops|] == ops;
    }
  }

  /**
   * `batchUpsert`: drop the collection, queue one upsert per object under the
   * query `generateQuery` builds, execute. The result depends on `objects`
   * alone, so running it twice on the same input leaves what one run leaves.
   */
  method BatchUpsert(collection: TransactionCollection, generateQuery: Record -> Key, objects: seq<Record>)
    modifies collection
    ensures collection.docs == Ingested(objects, generateQuery)
  {
    collection.Drop();
    var batch := new OrderedBulkOp();
    for i := 0 to |objects|
      invariant batch.ops == UpsertOps(objects[..i], generateQuery)
      invariant collection.docs == map[]
    {
      batch.FindUpsertUpdateOne(generateQuery(objects[i]), objects[i]);
    }
    assert objects[..|objects|] == objects;
    batch.Execute(collection);
  }
}
