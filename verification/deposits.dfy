/**
 * `processDeposits` and the selection loop of `showDeposits`: split the
 * per-address aggregates by the customer directory, fold the unlisted ones
 * into one total, and compute the largest sum and the smallest non-negative sum.
 */
module Deposits {
  import opened Wrappers
  import opened Transactions
  import opened Aggregation

  /** `Number.MAX_SAFE_INTEGER`. */
  const MaxSafeInteger: int := 9007199254740991

  /** The starting value of `min`: `Number.MAX_SAFE_INTEGER` coins, in amount units. */
  const MinSentinel: int := MaxSafeInteger * UnitsPerCoin

  /** A `{count, sum}` pair. */
  datatype Totals = Totals(count: int, sum: int)

  /** The object `processDeposits` returns. */
  datatype DepositsData = DepositsData(
    max: Option<int>,
    min: int,
    noReference: Totals,
    referenced: seq<Aggregate>
  )

  /** One line of the report: the customer's name and the aggregate found for their address. */
  datatype ReportLine = ReportLine(name: string, deposit: Aggregate)

  /** `CUSTOMER_ADDRESS[key]` is truthy: the key is present with a non-empty name. */
  predicate IsListed(directory: map<string, string>, key: string)
  {
    key in directory && directory[key] != ""
  }

  /** The property key JavaScript derives from an aggregate object used as an index, `String(obj)`. */
  function ObjectPropertyKey(g: Aggregate): string
  {
    "[object Object]"
  }

  /** The address of an aggregate, `transaction._id`. */
  function IdKey(g: Aggregate): string
  {
    g.id
  }

  /** The sums of the aggregates, `map(obj => obj.sum)`. */
  function Sums(aggs: seq<Aggregate>): seq<int>
  {
    seq(|aggs|, i requires 0 <= i < |aggs| => aggs[i].sum)
  }

  /** `referencedTransations`: the aggregates whose `_id` is listed in the directory, in their order. */
  function Referenced(aggs: seq<Aggregate>, directory: map<string, string>): seq<Aggregate>
  {
    if aggs == [] then []
    else
      var last := aggs[|aggs| - 1];
      Referenced(aggs[..|aggs| - 1], directory) + (if IsListed(directory, last.id) then [last] else [])
  }

  /** The aggregates the reduce adds up: those whose lookup key is not listed, in their order. */
  function Unlisted(aggs: seq<Aggregate>, directory: map<string, string>, lookupKey: Aggregate -> string): seq<Aggregate>
  {
    if aggs == [] then []
    else
      var last := aggs[|aggs| - 1];
      Unlisted(aggs[..|aggs| - 1], directory, lookupKey) + (if IsListed(directory, lookupKey(last)) then [] else [last])
  }

  lemma UnlistedSnoc(xs: seq<Aggregate>, x: Aggregate, directory: map<string, string>, lookupKey: Aggregate -> string)
    ensures Unlisted(xs + [x], directory, lookupKey) ==
      if IsListed(directory, lookupKey(x)) then Unlisted(xs, directory, lookupKey)
      else Unlisted(xs, directory, lookupKey) + [x]
  {
  }

  lemma ReferencedSnoc(xs: seq<Aggregate>, x: Aggregate, directory: map<string, string>)
    ensures Referenced(xs + [x], directory) ==
      if IsListed(directory, x.id) then Referenced(xs, directory) + [x] else Referenced(xs, directory)
  {
  }

  /** The filter keeps exactly the aggregates whose `_id` is listed. */
  lemma {:induction false} ReferencedMembers(aggs: seq<Aggregate>, directory: map<string, string>)
    ensures forall g :: g in Referenced(aggs, directory) <==> g in aggs && IsListed(directory, g.id)
    ensures forall g :: multiset(Referenced(aggs, directory))[g] == if IsListed(directory, g.id) then multiset(aggs)[g] else 0
  {
    if aggs != [] {
      var init, last := aggs[..|aggs| - 1], aggs[|aggs| - 1];
      ReferencedMembers(init, directory);
      assert aggs == init + [last];
      assert multiset(aggs) == multiset(init) + multiset{last};
    }
  }

  /** The reduce adds up exactly the aggregates whose lookup key is not listed. */
  lemma {:induction false} UnlistedMembers(aggs: seq<Aggregate>, directory: map<string, string>, lookupKey: Aggregate -> string)
    ensures forall g :: g in Unlisted(aggs, directory, lookupKey) <==> g in aggs && !IsListed(directory, lookupKey(g))
    ensures forall g ::
      multiset(Unlisted(aggs, directory, lookupKey))[g] == if IsListed(directory, lookupKey(g)) then 0 else multiset(aggs)[g]
  {
    if aggs != [] {
      var init, last := aggs[..|aggs| - 1], aggs[|aggs| - 1];
      UnlistedMembers(init, directory, lookupKey);
      assert aggs == init + [last];
      assert multiset(aggs) == multiset(init) + multiset{last};
    }
  }

  /** The filter keeps the input's order: filtering a concatenation concatenates the filtered parts. */
  lemma {:induction false} ReferencedAppend(xs: seq<Aggregate>, ys: seq<Aggregate>, directory: map<string, string>)
    ensures Referenced(xs + ys, directory) == Referenced(xs, directory) + Referenced(ys, directory)
  {
    if ys == [] {
      assert xs + ys == xs;
    } else {
      var init, last := ys[..|ys| - 1], ys[|ys| - 1];
      var a, b := Referenced(xs, directory), Referenced(init, directory);
      assert ys == init + [last];
      assert xs + ys == (xs + init) + [last];
      ReferencedSnoc(xs + init, last, directory);
      ReferencedSnoc(init, last, directory);
      ReferencedAppend(xs, init, directory);
      if IsListed(directory, last.id) {
        calc {
          Referenced(xs + ys, directory);
          Referenced(xs + init, directory) + [last];
          (a + b) + [last];
          a + (b + [last]);
          a + Referenced(ys, directory);
        }
      }
    }
  }

  /** The reduce visits the aggregates in order: selecting from a concatenation concatenates the selections. */
  lemma {:induction false} UnlistedAppend(xs: seq<Aggregate>, ys: seq<Aggregate>, directory: map<string, string>, lookupKey: Aggregate -> string)
    ensures Unlisted(xs + ys, directory, lookupKey) == Unlisted(xs, directory, lookupKey) + Unlisted(ys, directory, lookupKey)
  {
    if ys == [] {
      assert xs + ys == xs;
    } else {
      var init, last := ys[..|ys| - 1], ys[|ys| - 1];
      var a, b := Unlisted(xs, directory, lookupKey), Unlisted(init, directory, lookupKey);
      assert ys == init + [last];
      assert xs + ys == (xs + init) + [last];
      UnlistedSnoc(xs + init, last, directory, lookupKey);
      UnlistedSnoc(init, last, directory, lookupKey);
      UnlistedAppend(xs, init, directory, lookupKey);
      if !IsListed(directory, lookupKey(last)) {
        calc {
          Unlisted(xs + ys, directory, lookupKey);
          Unlisted(xs + init, directory, lookupKey) + [last];
          (a + b) + [last];
          a + (b + [last]);
          a + Unlisted(ys, directory, lookupKey);
        }
      }
    }
  }

  /** When every `_id` is listed, the filter returns its input unchanged, in order. */
  lemma {:induction false} ReferencedAllListed(aggs: seq<Aggregate>, directory: map<string, string>)
    requires forall i :: 0 <= i < |aggs| ==> IsListed(directory, aggs[i].id)
    ensures Referenced(aggs, directory) == aggs
  {
    if aggs != [] {
      var init, last := aggs[..|aggs| - 1], aggs[|aggs| - 1];
      ReferencedAllListed(init, directory);
      assert aggs == init + [last];
    }
  }

  /** Totals of a concatenation add up. */
  lemma {:induction false} TotalsAppend(xs: seq<Aggregate>, ys: seq<Aggregate>)
    ensures TotalCount(xs + ys) == TotalCount(xs) + TotalCount(ys)
    ensures TotalSum(xs + ys) == TotalSum(xs) + TotalSum(ys)
  {
    if xs == [] {
      assert xs + ys == ys;
    } else {
      assert (xs + ys)[1..] == xs[1..] + ys;
      TotalsAppend(xs[1..], ys);
    }
  }

  /** Appending one aggregate adds its count and its sum. */
  lemma TotalsSnoc(xs: seq<Aggregate>, x: Aggregate)
    ensures TotalCount(xs + [x]) == TotalCount(xs) + x.count
    ensures TotalSum(xs + [x]) == TotalSum(xs) + x.sum
  {
    TotalsAppend(xs, [x]);
    assert [x][1..] == [];
  }

  /**
   * Every aggregate is either referenced or unlisted by its `_id`, so the two
   * parts together account for every count and every amount.
   */
  lemma {:induction false} PartitionTotals(aggs: seq<Aggregate>, directory: map<string, string>)
    ensures TotalCount(Referenced(aggs, directory)) + TotalCount(Unlisted(aggs, directory, IdKey)) == TotalCount(aggs)
    ensures TotalSum(Referenced(aggs, directory)) + TotalSum(Unlisted(aggs, directory, IdKey)) == TotalSum(aggs)
  {
    if aggs != [] {
      var init, last := aggs[..|aggs| - 1], aggs[|aggs| - 1];
      PartitionTotals(init, directory);
      var r, u := Referenced(init, directory), Unlisted(init, directory, IdKey);
      assert aggs == init + [last];
      assert IdKey(last) == last.id;
      ReferencedSnoc(init, last, directory);
      UnlistedSnoc(init, last, directory, IdKey);
      if IsListed(directory, last.id) {
        TotalsSnoc(r, last);
      } else {
        TotalsSnoc(u, last);
      }
      TotalsSnoc(init, last);
    }
  }

  /**
   * With the lookup key of line 136 as written, the test is the same for every
   * aggregate: either all of them are added up or none is.
   */
  lemma {:induction false} ObjectKeyLookupIsUniform(aggs: seq<Aggregate>, directory: map<string, string>)
    ensures Unlisted(aggs, directory, ObjectPropertyKey) ==
      if IsListed(directory, "[object Object]") then [] else aggs
  {
    if aggs != [] {
      var init := aggs[..|aggs| - 1];
      ObjectKeyLookupIsUniform(init, directory);
      assert aggs == init + [aggs[|aggs| - 1]];
    }
  }

  /**
   * Directory `{A: Alice}`, aggregates A (2 deposits, 1.5) and B (1 deposit, 0.5):
   * the lookup as written totals 3 deposits and 2.0 without reference; by `_id`
   * it totals 1 deposit and 0.5, and A alone is referenced.
   */
  lemma ObjectKeyLookupMisclassifies()
    ensures
      var directory := map["A" := "Alice"];
      var a := Aggregate("A", 2, 150_000_000);
      var b := Aggregate("B", 1, 50_000_000);
      var unlistedAsWritten := Unlisted([a, b], directory, ObjectPropertyKey);
      var unlistedById := Unlisted([a, b], directory, IdKey);
      && Totals(TotalCount(unlistedAsWritten), TotalSum(unlistedAsWritten)) == Totals(3, 200_000_000)
      && Totals(TotalCount(unlistedById), TotalSum(unlistedById)) == Totals(1, 50_000_000)
      && Referenced([a, b], directory) == [a]
  {
    var directory := map["A" := "Alice"];
    var a := Aggregate("A", 2, 150_000_000);
    var b := Aggregate("B", 1, 50_000_000);
    ObjectKeyLookupIsUniform([a, b], directory);
    assert [a, b][..1] == [a] && [a][..0] == [];
    assert Unlisted([a], directory, IdKey) == [];
    assert Unlisted([a, b], directory, IdKey) == [b];
    assert Referenced([a], directory) == [a];
    TotalsSnoc([a], b);
    TotalsSnoc([], a);
    TotalsSnoc([], b);
    assert [a] + [b] == [a, b];
  }

  /**
   * The `reduce` of lines 135-144: starting from `{0, 0}`, add the count and
   * sum of every aggregate whose lookup key is not listed, skip the others.
   * Line 136 as written passes `ObjectPropertyKey`; this model passes `IdKey`.
   */
  method FoldNoReference(aggs: seq<Aggregate>, directory: map<string, string>, lookupKey: Aggregate -> string)
    returns (acc: Totals)
    ensures acc.count == TotalCount(Unlisted(aggs, directory, lookupKey))
    ensures acc.sum == TotalSum(Unlisted(aggs, directory, lookupKey))
    ensures aggs == [] ==> acc == Totals(0, 0)
  {
    acc := Totals(0, 0);
    for i := 0 to |aggs|
      invariant acc.count == TotalCount(Unlisted(aggs[..i], directory, lookupKey))
      invariant acc.sum == TotalSum(Unlisted(aggs[..i], directory, lookupKey))
    {
      var curr := aggs[i];
      assert aggs[..i + 1] == aggs[..i] + [curr];
      UnlistedSnoc(aggs[..i], curr, directory, lookupKey);
      TotalsSnoc(Unlisted(aggs[..i], directory, lookupKey), curr);
      if !IsListed(directory, lookupKey(curr)) {
        acc := Totals(acc.count + curr.count, acc.sum + curr.sum);
      }
    }
    assert aggs[..|aggs|] == aggs;
  }

  /** `Math.max(...sums)`, with `None` for the `-Infinity` of an empty list. */
  function MathMax(sums: seq<int>): (m: Option<int>)
    ensures m.None? <==> sums == []
    ensures m.Some? ==> m.value in sums
    ensures m.Some? ==> forall i :: 0 <= i < |sums| ==> sums[i] <= m.value
  {
    if sums == [] then None
    else
      match MathMax(sums[1..])
      case None => Some(sums[0])
      case Some(rest) => Some(if sums[0] < rest then rest else sums[0])
  }

  /** `m` is what the `min` loop leaves: the least non-negative sum, capped by the sentinel. */
  predicate IsSmallestNonNegative(sums: seq<int>, m: int)
  {
    && 0 <= m <= MinSentinel
    && (m == MinSentinel || m in sums)
    && forall i :: 0 <= i < |sums| && 0 <= sums[i] ==> m <= sums[i]
  }

  /** The `for` loop of lines 152-157. */
  method SmallestNonNegative(sums: seq<int>) returns (min: int)
    ensures IsSmallestNonNegative(sums, min)
  {
    min := MinSentinel;
    for i := 0 to |sums|
      invariant 0 <= min <= MinSentinel
      invariant min == MinSentinel || min in sums
      invariant forall j :: 0 <= j < i && 0 <= sums[j] ==> min <= sums[j]
    {
      if sums[i] < min && sums[i] >= 0 {
        min := sums[i];
      }
    }
  }

  /** When no sum is both non-negative and below the sentinel, `min` stays at the sentinel. */
  lemma SentinelWithoutSmallDeposit(sums: seq<int>, m: int)
    requires IsSmallestNonNegative(sums, m)
    requires forall i :: 0 <= i < |sums| ==> sums[i] < 0 || MinSentinel <= sums[i]
    ensures m == MinSentinel
  {
  }

  /** `processDeposits`, with the membership test of the reduce made by `_id` as the filter does. */
  method ProcessDeposits(totalPerCustomer: seq<Aggregate>, directory: map<string, string>)
    returns (data: DepositsData)
    ensures data.noReference.count == TotalCount(Unlisted(totalPerCustomer, directory, IdKey))
    ensures data.noReference.sum == TotalSum(Unlisted(totalPerCustomer, directory, IdKey))
    ensures data.referenced == Referenced(totalPerCustomer, directory)
    ensures data.noReference.count + TotalCount(data.referenced) == TotalCount(totalPerCustomer)
    ensures data.noReference.sum + TotalSum(data.referenced) == TotalSum(totalPerCustomer)
    ensures data.max.None? <==> totalPerCustomer == []
    ensures data.max.Some? ==> data.max.value in Sums(totalPerCustomer)
    ensures forall g :: g in totalPerCustomer && data.max.Some? ==> g.sum <= data.max.value
    ensures IsSmallestNonNegative(Sums(totalPerCustomer), data.min)
  {
    var noReference := FoldNoReference(totalPerCustomer, directory, IdKey);
    var referenced := Referenced(totalPerCustomer, directory);
    PartitionTotals(totalPerCustomer, directory);
    var sums := Sums(totalPerCustomer);
    var max := MathMax(sums);
    forall g | g in totalPerCustomer && max.Some? ensures g.sum <= max.value {
      var i :| 0 <= i < |totalPerCustomer| && totalPerCustomer[i] == g;
      assert sums[i] == g.sum;
    }
    var min := SmallestNonNegative(sums);
    data := DepositsData(max, min, noReference, referenced);
  }

  /** `Array.prototype.find` by `_id`: the index of the first aggregate with that id. */
  function FindIndex(gs: seq<Aggregate>, id: string): (k: Option<nat>)
    ensures k.None? <==> id !in Ids(gs)
    ensures k.Some? ==> k.value < |gs| && gs[k.value].id == id
    ensures k.Some? ==> forall j :: 0 <= j < k.value ==> gs[j].id != id
  {
    if gs == [] then None
    else if gs[0].id == id then
      assert gs[0] in gs;
      Some(0)
    else
      assert Ids(gs) == {gs[0].id} + Ids(gs[1..]) by {
        assert gs == [gs[0]] + gs[1..];
      }
      match FindIndex(gs[1..], id)
      case None => None
      case Some(k) => Some(k + 1)
  }

  /**
   * The loop of `showDeposits` over the directory: a line for each listed
   * address some referenced aggregate has as `_id`, with the first such
   * aggregate; addresses without one get no line.
   */
  method SelectKnownCustomers(referenced: seq<Aggregate>, directory: map<string, string>)
    returns (report: map<string, ReportLine>)
    ensures forall a :: a in report <==> a in directory && a in Ids(referenced)
    ensures forall a | a in report ::
      && FindIndex(referenced, a).Some?
      && report[a] == ReportLine(directory[a], referenced[FindIndex(referenced, a).value])
  {
    report := map[];
    var pending := directory.Keys;
    while pending != {}
      invariant pending <= directory.Keys
      invariant forall a :: a in report <==> a in directory && a !in pending && a in Ids(referenced)
      invariant forall a | a in report ::
        && FindIndex(referenced, a).Some?
        && report[a] == ReportLine(directory[a], referenced[FindIndex(referenced, a).value])
      decreases |pending|
    {
      var address :| address in pending;
      var name := directory[address];
      var found := FindIndex(referenced, address);
      if found.Some? {
        report := report[address := ReportLine(name, referenced[found.value])];
      }
      pending := pending - {address};
    }
  }

  /**
   * A directory address gets a report line exactly when it is listed and
   * some aggregate has it as `_id`; it is then that aggregate.
   */
  lemma ReportedAddresses(aggs: seq<Aggregate>, directory: map<string, string>, a: string)
    ensures a in Ids(Referenced(aggs, directory)) <==> IsListed(directory, a) && a in Ids(aggs)
  {
    var refs := Referenced(aggs, directory);
    ReferencedMembers(aggs, directory);
    if a in Ids(refs) {
      var g :| g in refs && g.id == a;
      assert g in aggs;
    }
    if IsListed(directory, a) && a in Ids(aggs) {
      var g :| g in aggs && g.id == a;
      assert g in refs;
    }
  }

  /** The boundary statistics of `[5, -2, 10]`: largest 10, smallest non-negative 5. */
  lemma MinMaxExample(min: int)
    requires IsSmallestNonNegative([5, -2, 10], min)
    ensures min == 5
    ensures MathMax([5, -2, 10]) == Some(10)
  {
    assert [5, -2, 10][0] == 5;
  }
}
