/**
 * `aggregateValidDeposits`: the `$match` stage keeps the valid deposits, the
 * `$group` stage folds them into one `{_id, count, sum}` per address.
 */
module Aggregation {
  import opened Transactions

  /** One `$group` output document: `_id` is the address. */
  datatype Aggregate = Aggregate(id: string, count: int, sum: int)

  /** The `$match` stage: at least six confirmations, and category `receive` or `generate`. */
  predicate IsValidDeposit(r: Record)
  {
    r.confirmations >= 6 && (r.category == "receive" || r.category == "generate")
  }

  /** The records that pass the `$match` stage, in their original order. */
  function ValidDeposits(records: seq<Record>): (valid: seq<Record>)
    ensures |valid| <= |records|
    ensures forall r :: r in valid <==> r in records && IsValidDeposit(r)
    ensures forall r :: multiset(valid)[r] == if IsValidDeposit(r) then multiset(records)[r] else 0
  {
    if records == [] then []
    else
      var rest := ValidDeposits(records[1..]);
      assert records == [records[0]] + records[1..];
      assert multiset(records) == multiset{records[0]} + multiset(records[1..]);
      if IsValidDeposit(records[0]) then [records[0]] + rest else rest
  }

  // Reference definitions the `$group` stage is checked against.

  /** How many of `rs` have address `a`. */
  function CountFor(rs: seq<Record>, a: string): nat
  {
    if rs == [] then 0
    else CountFor(rs[..|rs| - 1], a) + (if rs[|rs| - 1].address == a then 1 else 0)
  }

  /** The exact total amount of the records of `rs` with address `a`. */
  function SumFor(rs: seq<Record>, a: string): int
  {
    if rs == [] then 0
    else SumFor(rs[..|rs| - 1], a) + (if rs[|rs| - 1].address == a then rs[|rs| - 1].amount else 0)
  }

  /** The exact total amount of `rs`. */
  function AmountTotal(rs: seq<Record>): int
  {
    if rs == [] then 0 else AmountTotal(rs[..|rs| - 1]) + rs[|rs| - 1].amount
  }

  function Addresses(rs: seq<Record>): set<string>
  {
    set r | r in rs :: r.address
  }

  function Ids(gs: seq<Aggregate>): set<string>
  {
    set g | g in gs :: g.id
  }

  predicate DistinctIds(gs: seq<Aggregate>)
  {
    forall i, j :: 0 <= i < j < |gs| ==> gs[i].id != gs[j].id
  }

  /** Sum of the `count` fields. */
  function TotalCount(gs: seq<Aggregate>): int
  {
    if gs == [] then 0 else gs[0].count + TotalCount(gs[1..])
  }

  /** Sum of the `sum` fields. */
  function TotalSum(gs: seq<Aggregate>): int
  {
    if gs == [] then 0 else gs[0].sum + TotalSum(gs[1..])
  }

  /** `gs` is the `$group` output for `rs`: one aggregate per address, with its count and exact sum. */
  predicate GroupsOf(gs: seq<Aggregate>, rs: seq<Record>)
  {
    && DistinctIds(gs)
    && Ids(gs) == Addresses(rs)
    && forall i :: 0 <= i < |gs| ==> gs[i].count == CountFor(rs, gs[i].id) && gs[i].sum == SumFor(rs, gs[i].id)
  }

  /** `count: {$sum: 1}` and `sum: {$sum: "$amount"}` applied to one more document of the group. */
  function Accumulate(g: Aggregate, r: Record): Aggregate
  {
    Aggregate(g.id, g.count + 1, g.sum + r.amount)
  }

  /** Add one record to its group, opening a new group after the others when its address is new. */
  function AddToGroup(gs: seq<Aggregate>, r: Record): seq<Aggregate>
  {
    if gs == [] then [Aggregate(r.address, 1, r.amount)]
    else if gs[0].id == r.address then [Accumulate(gs[0], r)] + gs[1..]
    else [gs[0]] + AddToGroup(gs[1..], r)
  }

  /** The `$group` stage over `rs`, groups in order of first appearance. */
  function Group(rs: seq<Record>): seq<Aggregate>
  {
    if rs == [] then [] else AddToGroup(Group(rs[..|rs| - 1]), rs[|rs| - 1])
  }

  /** `aggregateValidDeposits` over the documents of the collection. */
  function AggregateValidDeposits(docs: seq<Record>): (aggs: seq<Aggregate>)
    ensures DistinctIds(aggs)
    ensures Ids(aggs) == set r | r in docs && IsValidDeposit(r) :: r.address
    ensures forall i :: 0 <= i < |aggs| ==>
      && 1 <= aggs[i].count
      && aggs[i].count == CountFor(ValidDeposits(docs), aggs[i].id)
      && aggs[i].sum == SumFor(ValidDeposits(docs), aggs[i].id)
    ensures TotalCount(aggs) == |ValidDeposits(docs)|
    ensures TotalSum(aggs) == AmountTotal(ValidDeposits(docs))
  {
    var valid := ValidDeposits(docs);
    GroupCorrect(valid);
    GroupTotals(valid);
    assert Addresses(valid) == set r | r in docs && IsValidDeposit(r) :: r.address;
    forall i | 0 <= i < |Group(valid)| ensures 1 <= Group(valid)[i].count {
      assert Group(valid)[i] in Group(valid);
      CountForPresent(valid, Group(valid)[i].id);
    }
    Group(valid)
  }

  /** An address that occurs among `rs` is counted at least once. */
  lemma {:induction false} CountForPresent(rs: seq<Record>, a: string)
    requires a in Addresses(rs)
    ensures CountFor(rs, a) >= 1
  {
    var init := rs[..|rs| - 1];
    if rs[|rs| - 1].address != a {
      assert rs == init + [rs[|rs| - 1]];
      assert a in Addresses(init);
      CountForPresent(init, a);
    }
  }

  /** An address that does not occur among `rs` has no count and no amount. */
  lemma {:induction false} AbsentAddress(rs: seq<Record>, a: string)
    requires a !in Addresses(rs)
    ensures CountFor(rs, a) == 0 && SumFor(rs, a) == 0
  {
    if rs != [] {
      var init := rs[..|rs| - 1];
      assert Addresses(init) <= Addresses(rs) by {
        forall x | x in Addresses(init) ensures x in Addresses(rs) {
          var r :| r in init && r.address == x;
          assert r in rs;
        }
      }
      assert rs[|rs| - 1] in rs;
      AbsentAddress(init, a);
    }
  }

  /** `AddToGroup`, element by element, on groups with distinct ids. */
  lemma {:induction false} AddToGroupAt(gs: seq<Aggregate>, r: Record)
    requires DistinctIds(gs)
    ensures |AddToGroup(gs, r)| == if r.address in Ids(gs) then |gs| else |gs| + 1
    ensures forall i :: 0 <= i < |gs| ==>
      AddToGroup(gs, r)[i] == if gs[i].id == r.address then Accumulate(gs[i], r) else gs[i]
    ensures r.address !in Ids(gs) ==> AddToGroup(gs, r)[|gs|] == Aggregate(r.address, 1, r.amount)
  {
    if gs == [] {
    } else if gs[0].id == r.address {
      assert gs[0] in gs;
      forall i | 1 <= i < |gs| ensures gs[i].id != r.address {
        assert gs[0].id != gs[i].id;
      }
    } else {
      var tail := gs[1..];
      assert DistinctIds(tail) by {
        forall i, j | 0 <= i < j < |tail| ensures tail[i].id != tail[j].id {
          assert tail[i] == gs[i + 1] && tail[j] == gs[j + 1];
        }
      }
      AddToGroupAt(tail, r);
      assert gs == [gs[0]] + tail;
      assert r.address in Ids(gs) <==> r.address in Ids(tail) by {
        assert Ids(gs) == {gs[0].id} + Ids(tail);
      }
    }
  }

  /** `AddToGroup` keeps ids distinct and adds the record's address to them. */
  lemma AddToGroupShape(gs: seq<Aggregate>, r: Record)
    requires DistinctIds(gs)
    ensures DistinctIds(AddToGroup(gs, r))
    ensures Ids(AddToGroup(gs, r)) == Ids(gs) + {r.address}
  {
    var out := AddToGroup(gs, r);
    AddToGroupAt(gs, r);
    forall i | 0 <= i < |out| ensures out[i].id == (if i < |gs| then gs[i].id else r.address) {
    }
    forall x | x in Ids(gs) + {r.address} ensures x in Ids(out) {
      if x in Ids(gs) {
        var g :| g in gs && g.id == x;
        var i :| 0 <= i < |gs| && gs[i] == g;
        assert out[i] in out;
      } else {
        assert out[|gs|] in out;
      }
    }
    forall x | x in Ids(out) ensures x in Ids(gs) + {r.address} {
      var g :| g in out && g.id == x;
      var i :| 0 <= i < |out| && out[i] == g;
      if i < |gs| {
        assert gs[i] in gs;
      }
    }
    forall i, j | 0 <= i < j < |out| ensures out[i].id != out[j].id {
      if j < |gs| {
      } else {
        assert gs[i] in gs;
      }
    }
  }

  /** Adding one record to the `$group` output of `rs` gives the output for `rs + [r]`. */
  lemma {:induction false} AddToGroupCorrect(gs: seq<Aggregate>, rs: seq<Record>, r: Record)
    requires GroupsOf(gs, rs)
    ensures GroupsOf(AddToGroup(gs, r), rs + [r])
  {
    var out, rs' := AddToGroup(gs, r), rs + [r];
    AddToGroupAt(gs, r);
    AddToGroupShape(gs, r);
    assert rs'[..|rs'| - 1] == rs;
    assert Addresses(rs') == Addresses(rs) + {r.address};
    forall i | 0 <= i < |out|
      ensures out[i].count == CountFor(rs', out[i].id) && out[i].sum == SumFor(rs', out[i].id)
    {
      if i < |gs| {
        assert gs[i].id == out[i].id;
      } else {
        AbsentAddress(rs, r.address);
      }
    }
  }

  /** `Group` is the `$group` stage: one aggregate per address with its count and exact sum. */
  lemma {:induction false} GroupCorrect(rs: seq<Record>)
    ensures GroupsOf(Group(rs), rs)
  {
    if rs == [] {
    } else {
      var init := rs[..|rs| - 1];
      GroupCorrect(init);
      AddToGroupCorrect(Group(init), init, rs[|rs| - 1]);
      assert init + [rs[|rs| - 1]] == rs;
    }
  }

  /** Adding one record adds one to the total count and its amount to the total sum. */
  lemma {:induction false} AddToGroupTotals(gs: seq<Aggregate>, r: Record)
    ensures TotalCount(AddToGroup(gs, r)) == TotalCount(gs) + 1
    ensures TotalSum(AddToGroup(gs, r)) == TotalSum(gs) + r.amount
  {
    if gs != [] && gs[0].id != r.address {
      AddToGroupTotals(gs[1..], r);
      var out := AddToGroup(gs, r);
      assert out[1..] == AddToGroup(gs[1..], r);
    } else if gs != [] {
      var out := AddToGroup(gs, r);
      assert out[1..] == gs[1..];
    }
  }

  /** Grouping loses no record: the counts add up to the records, the sums to their total amount. */
  lemma {:induction false} GroupTotals(rs: seq<Record>)
    ensures TotalCount(Group(rs)) == |rs|
    ensures TotalSum(Group(rs)) == AmountTotal(rs)
  {
    if rs != [] {
      GroupTotals(rs[..|rs| - 1]);
      AddToGroupTotals(Group(rs[..|rs| - 1]), rs[|rs| - 1]);
    }
  }

  /** The `$match` boundary: five confirmations or category `send` are excluded, six and `receive` is included. */
  lemma ValidityBoundary(r: Record)
    ensures r.confirmations == 5 ==> !IsValidDeposit(r)
    ensures r.confirmations == 6 && r.category == "send" ==> !IsValidDeposit(r)
    ensures r.confirmations == 6 && r.category == "receive" ==> IsValidDeposit(r)
  {
  }

  /** `$match` keeps an input whose every record is a valid deposit unchanged. */
  lemma {:induction false} AllValid(rs: seq<Record>)
    requires forall i :: 0 <= i < |rs| ==> IsValidDeposit(rs[i])
    ensures ValidDeposits(rs) == rs
  {
    if rs != [] {
      AllValid(rs[1..]);
      assert rs == [rs[0]] + rs[1..];
    }
  }

  /** Grouping three amounts of 1 unit to address `a`. */
  lemma GroupThreeUnits(d1: Record, d2: Record, d3: Record, a: string)
    requires d1.address == a && d2.address == a && d3.address == a
    requires d1.amount == 1 && d2.amount == 1 && d3.amount == 1
    ensures Group([d1, d2, d3]) == [Aggregate(a, 3, 3)]
  {
    var docs := [d1, d2, d3];
    assert docs[..2] == [d1, d2] && docs[..2][..1] == [d1] && [d1][..0] == [];
    assert Group([d1]) == [Aggregate(a, 1, 1)];
    assert Group([d1, d2]) == [Aggregate(a, 2, 2)];
  }

  /** Three deposits of 0.00000001 to one address add up to exactly 0.00000003. */
  lemma ExactSumExample(a: string)
    ensures
      var d1 := Record(a, "receive", 1, 6, "t1", 0);
      var d2 := Record(a, "receive", 1, 6, "t2", 0);
      var d3 := Record(a, "generate", 1, 7, "t3", 1);
      AggregateValidDeposits([d1, d2, d3]) == [Aggregate(a, 3, 3)]
  {
    var d1 := Record(a, "receive", 1, 6, "t1", 0);
    var d2 := Record(a, "receive", 1, 6, "t2", 0);
    var d3 := Record(a, "generate", 1, 7, "t3", 1);
    AllValid([d1, d2, d3]);
    GroupThreeUnits(d1, d2, d3, a);
  }
}
