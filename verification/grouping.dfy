/**
 * The dictionary accumulators of `utils/data_processor.py` (`date_stats`,
 * `region_stats`, `product_stats`, `customer_stats`). A Python dict keeps its
 * keys in insertion order, so each accumulator is an association list of
 * groups in the order their keys were first seen.
 */
module Grouping {
  import opened Text
  import opened Collections
  import opened Records

  /** The total of the amounts of `ts`. */
  function TotalAmount(ts: seq<Transaction>): real {
    if ts == [] then 0.0 else TotalAmount(ts[..|ts| - 1]) + Amount(ts[|ts| - 1])
  }

  /** The total of the amounts of the transactions whose key along `d` is not empty. */
  function KeyedTotal(ts: seq<Transaction>, d: Dim): real {
    if ts == [] then 0.0
    else KeyedTotal(ts[..|ts| - 1], d) + (if KeyOf(ts[|ts| - 1], d) != "" then Amount(ts[|ts| - 1]) else 0.0)
  }

  /** The distinct non-empty keys along `d`, in the order they first occur in `ts`: never more keys than transactions. */
  function Keys(ts: seq<Transaction>, d: Dim): (r: seq<string>)
    ensures |r| <= |ts|
  {
    if ts == [] then []
    else
      var p := Keys(ts[..|ts| - 1], d);
      var k := KeyOf(ts[|ts| - 1], d);
      if k == "" || k in p then p else p + [k]
  }

  /** The transactions of `ts` whose key along `d` is `k`, in order. */
  function Select(ts: seq<Transaction>, d: Dim, k: string): seq<Transaction> {
    if ts == [] then []
    else Select(ts[..|ts| - 1], d, k) + (if KeyOf(ts[|ts| - 1], d) == k then [ts[|ts| - 1]] else [])
  }

  /** The summed amount of the group `k`. */
  function SumAmount(ts: seq<Transaction>, d: Dim, k: string): real {
    if ts == [] then 0.0
    else SumAmount(ts[..|ts| - 1], d, k) + (if KeyOf(ts[|ts| - 1], d) == k then Amount(ts[|ts| - 1]) else 0.0)
  }

  /** The number of transactions in the group `k`. */
  function CountOf(ts: seq<Transaction>, d: Dim, k: string): nat {
    if ts == [] then 0
    else CountOf(ts[..|ts| - 1], d, k) + (if KeyOf(ts[|ts| - 1], d) == k then 1 else 0)
  }

  /** The summed quantity of the group `k`. */
  function SumQuantity(ts: seq<Transaction>, d: Dim, k: string): int {
    if ts == [] then 0
    else SumQuantity(ts[..|ts| - 1], d, k) + (if KeyOf(ts[|ts| - 1], d) == k then ts[|ts| - 1].quantity else 0)
  }

  /** The stripped customer ID of `t`, as a set that is empty when the ID is blank. */
  function CustomerOf(t: Transaction): set<string> {
    var c := Strip(t.customerId);
    if c == "" then {} else {c}
  }

  /** The distinct non-empty customer IDs of the group `k`. */
  function CustomersOf(ts: seq<Transaction>, d: Dim, k: string): set<string> {
    if ts == [] then {}
    else CustomersOf(ts[..|ts| - 1], d, k) + (if KeyOf(ts[|ts| - 1], d) == k then CustomerOf(ts[|ts| - 1]) else {})
  }

  /**
   * One accumulator entry: the key and the running totals the source keeps
   * (`total_revenue`/`total_sales`/`total_spent`, `transaction_count`,
   * `total_quantity`, `unique_customers`).
   */
  datatype Group = Group(key: string, amount: real, count: nat, quantity: int, customers: set<string>)

  function GroupAmount(g: Group): real {
    g.amount
  }

  /** The entry a key gets when it is first seen: all totals zero. */
  function EmptyGroup(k: string): Group {
    Group(k, 0.0, 0, 0, {})
  }

  /** The in-place update of one entry by one transaction. */
  function AddTo(g: Group, t: Transaction): Group {
    Group(g.key, g.amount + Amount(t), g.count + 1, g.quantity + t.quantity, g.customers + CustomerOf(t))
  }

  /** The group of key `k`, computed from the whole input. */
  function GroupOf(ts: seq<Transaction>, d: Dim, k: string): Group {
    Group(k, SumAmount(ts, d, k), CountOf(ts, d, k), SumQuantity(ts, d, k), CustomersOf(ts, d, k))
  }

  /** The accumulator after the whole input: one group per key, in first-seen order, none of them empty. */
  function Rollup(ts: seq<Transaction>, d: Dim): (gs: seq<Group>)
    ensures |gs| == |Keys(ts, d)|
    ensures forall i :: 0 <= i < |gs| ==> gs[i].key == Keys(ts, d)[i] && gs[i].count >= 1
  {
    KeysAllCounted(ts, d);
    var ks := Keys(ts, d);
    seq(|ks|, i requires 0 <= i < |ks| => GroupOf(ts, d, ks[i]))
  }

  /** `stats.keys()`. */
  function GroupKeys(gs: seq<Group>): seq<string> {
    seq(|gs|, i requires 0 <= i < |gs| => gs[i].key)
  }

  /** `key in stats`: the index of the entry for `k`, or `|gs|` when there is none. */
  function FindGroup(gs: seq<Group>, k: string): (j: nat)
    ensures j <= |gs|
    ensures j < |gs| ==> gs[j].key == k
    ensures forall i :: 0 <= i < j ==> gs[i].key != k
  {
    if gs == [] then 0
    else if gs[0].key == k then 0
    else 1 + FindGroup(gs[1..], k)
  }

  // ---------------------------------------------------------------------------
  // Facts about the key order and the groups.

  lemma {:induction false} KeysDistinct(ts: seq<Transaction>, d: Dim)
    ensures Distinct(Keys(ts, d))
    ensures "" !in Keys(ts, d)
  {
    if ts != [] {
      KeysDistinct(ts[..|ts| - 1], d);
    }
  }

  /** A key is listed exactly when some transaction carries it and it is not empty. */
  lemma {:induction false} KeysExactly(ts: seq<Transaction>, d: Dim, k: string)
    ensures k in Keys(ts, d) <==> k != "" && exists i :: 0 <= i < |ts| && KeyOf(ts[i], d) == k
  {
    if ts != [] {
      var init := ts[..|ts| - 1];
      KeysExactly(init, d, k);
      KeysDistinct(init, d);
      if exists i :: 0 <= i < |ts| && KeyOf(ts[i], d) == k {
        var i :| 0 <= i < |ts| && KeyOf(ts[i], d) == k;
        if i < |ts| - 1 {
          assert init[i] == ts[i];
        }
      }
      if exists i :: 0 <= i < |init| && KeyOf(init[i], d) == k {
        var i :| 0 <= i < |init| && KeyOf(init[i], d) == k;
        assert ts[i] == init[i];
      }
    }
  }

  /** A key nobody carries has an empty group. */
  lemma {:induction false} AbsentKeyEmpty(ts: seq<Transaction>, d: Dim, k: string)
    requires k != "" && k !in Keys(ts, d)
    ensures GroupOf(ts, d, k) == EmptyGroup(k)
    ensures Select(ts, d, k) == []
  {
    if ts != [] {
      var init := ts[..|ts| - 1];
      var p := Keys(init, d);
      assert k !in p;
      AbsentKeyEmpty(init, d, k);
    }
  }

  /** Adding one transaction updates exactly the group of its key. */
  lemma GroupSnoc(s: seq<Transaction>, t: Transaction, d: Dim, k: string)
    ensures GroupOf(s + [t], d, k) == if KeyOf(t, d) == k then AddTo(GroupOf(s, d, k), t) else GroupOf(s, d, k)
  {
    var st := s + [t];
    assert st[..|st| - 1] == s;
    assert st[|st| - 1] == t;
    if KeyOf(t, d) == k {
      assert SumAmount(st, d, k) == SumAmount(s, d, k) + Amount(t);
      assert CountOf(st, d, k) == CountOf(s, d, k) + 1;
      assert SumQuantity(st, d, k) == SumQuantity(s, d, k) + t.quantity;
      assert CustomersOf(st, d, k) == CustomersOf(s, d, k) + CustomerOf(t);
    } else {
      assert SumAmount(st, d, k) == SumAmount(s, d, k);
      assert CountOf(st, d, k) == CountOf(s, d, k);
      assert SumQuantity(st, d, k) == SumQuantity(s, d, k);
      assert CustomersOf(st, d, k) == CustomersOf(s, d, k);
    }
  }

  lemma SelectSnoc(s: seq<Transaction>, t: Transaction, d: Dim, k: string)
    ensures Select(s + [t], d, k) == Select(s, d, k) + (if KeyOf(t, d) == k then [t] else [])
  {
    assert (s + [t])[..|s|] == s;
  }

  lemma TotalsSnoc(s: seq<Transaction>, t: Transaction, d: Dim)
    ensures KeyedTotal(s + [t], d) == KeyedTotal(s, d) + (if KeyOf(t, d) != "" then Amount(t) else 0.0)
    ensures TotalAmount(s + [t]) == TotalAmount(s) + Amount(t)
  {
    assert (s + [t])[..|s|] == s;
  }

  lemma KeysSnoc(s: seq<Transaction>, t: Transaction, d: Dim)
    ensures Keys(s + [t], d) == if KeyOf(t, d) == "" || KeyOf(t, d) in Keys(s, d) then Keys(s, d) else Keys(s, d) + [KeyOf(t, d)]
  {
    assert (s + [t])[..|s|] == s;
  }

  /** Every listed key has at least one transaction. */
  lemma {:induction false} KeysCounted(ts: seq<Transaction>, d: Dim, k: string)
    requires k in Keys(ts, d)
    ensures CountOf(ts, d, k) >= 1
  {
    var init := ts[..|ts| - 1];
    assert ts == init + [ts[|ts| - 1]];
    GroupSnoc(init, ts[|ts| - 1], d, k);
    if k in Keys(init, d) {
      KeysCounted(init, d, k);
    }
  }

  /** `KeysCounted` for every listed key at once. */
  lemma KeysAllCounted(ts: seq<Transaction>, d: Dim)
    ensures forall i :: 0 <= i < |Keys(ts, d)| ==> CountOf(ts, d, Keys(ts, d)[i]) >= 1
  {
    forall i | 0 <= i < |Keys(ts, d)|
      ensures CountOf(ts, d, Keys(ts, d)[i]) >= 1
    {
      KeysCounted(ts, d, Keys(ts, d)[i]);
    }
  }

  /** A day cannot have more distinct customers than transactions. */
  lemma {:induction false} CustomersAtMostCount(ts: seq<Transaction>, d: Dim, k: string)
    ensures |CustomersOf(ts, d, k)| <= CountOf(ts, d, k)
  {
    if ts != [] {
      var init := ts[..|ts| - 1];
      CustomersAtMostCount(init, d, k);
      var c := CustomersOf(init, d, k);
      var t := ts[|ts| - 1];
      if KeyOf(t, d) == k {
        assert |c + CustomerOf(t)| <= |c| + |CustomerOf(t)| <= |c| + 1;
      }
    }
  }

  /** A group's totals are the totals of the transactions carrying its key. */
  lemma {:induction false} GroupIsSelection(ts: seq<Transaction>, d: Dim, k: string)
    ensures SumAmount(ts, d, k) == TotalAmount(Select(ts, d, k))
    ensures CountOf(ts, d, k) == |Select(ts, d, k)|
  {
    if ts != [] {
      var init := ts[..|ts| - 1];
      var t := ts[|ts| - 1];
      assert ts == init + [t];
      GroupIsSelection(init, d, k);
      GroupSnoc(init, t, d, k);
      SelectSnoc(init, t, d, k);
      if KeyOf(t, d) == k {
        TotalsSnoc(Select(init, d, k), t, d);
        assert SumAmount(ts, d, k) == GroupOf(init + [t], d, k).amount == SumAmount(init, d, k) + Amount(t);
        assert Select(ts, d, k) == Select(init, d, k) + [t];
      } else {
        assert SumAmount(ts, d, k) == GroupOf(init + [t], d, k).amount == SumAmount(init, d, k);
        assert Select(ts, d, k) == Select(init, d, k);
      }
    }
  }

  /** The selection of key `k` holds transactions of the input that carry `k`, and all of them. */
  lemma {:induction false} SelectExactly(ts: seq<Transaction>, d: Dim, k: string)
    ensures forall t :: t in Select(ts, d, k) <==> t in ts && KeyOf(t, d) == k
  {
    if ts != [] {
      var init := ts[..|ts| - 1];
      var t := ts[|ts| - 1];
      assert ts == init + [t];
      SelectExactly(init, d, k);
      SelectSnoc(init, t, d, k);
    }
  }

  /**
   * The accumulator step: the update the loop body makes (create the entry
   * if the key is new, then add the transaction to it) turns the rollup of
   * `s` into the rollup of `s + [t]`.
   */
  lemma RollupStep(s: seq<Transaction>, t: Transaction, d: Dim)
    ensures Rollup(s + [t], d) == AddTransaction(Rollup(s, d), t, d)
  {
    var gs := Rollup(s, d);
    var k := KeyOf(t, d);
    var j := FindGroup(gs, k);
    if k == "" {
      RollupSkip(s, t, d);
    } else if j == |gs| {
      forall i | 0 <= i < |gs|
        ensures Keys(s, d)[i] != k
      {
        assert gs[i].key == Keys(s, d)[i];
      }
      RollupNewKey(s, t, d);
      assert (gs + [EmptyGroup(k)])[j := AddTo(EmptyGroup(k), t)] == gs + [AddTo(EmptyGroup(k), t)];
    } else {
      assert Keys(s, d)[j] == k;
      RollupKnownKey(s, t, d, j);
    }
  }

  /** A transaction with a new key appends that key's group, holding just the transaction. */
  lemma RollupNewKey(s: seq<Transaction>, t: Transaction, d: Dim)
    requires KeyOf(t, d) != "" && KeyOf(t, d) !in Keys(s, d)
    ensures Rollup(s + [t], d) == Rollup(s, d) + [AddTo(EmptyGroup(KeyOf(t, d)), t)]
  {
    var k := KeyOf(t, d);
    var ks := Keys(s, d);
    KeysSnoc(s, t, d);
    KeysDistinct(s, d);
    AbsentKeyEmpty(s, d, k);
    var r := Rollup(s, d) + [AddTo(EmptyGroup(k), t)];
    forall i | 0 <= i < |ks| + 1
      ensures Rollup(s + [t], d)[i] == r[i]
    {
      if i < |ks| {
        GroupSnoc(s, t, d, ks[i]);
      } else {
        GroupSnoc(s, t, d, k);
      }
    }
  }

  /** A transaction with a key already listed at `j` adds itself to the group at `j`. */
  lemma RollupKnownKey(s: seq<Transaction>, t: Transaction, d: Dim, j: nat)
    requires j < |Keys(s, d)| && Keys(s, d)[j] == KeyOf(t, d)
    ensures Rollup(s + [t], d) == Rollup(s, d)[j := AddTo(Rollup(s, d)[j], t)]
  {
    var ks := Keys(s, d);
    KeysSnoc(s, t, d);
    KeysDistinct(s, d);
    var r := Rollup(s, d)[j := AddTo(Rollup(s, d)[j], t)];
    forall i | 0 <= i < |ks|
      ensures Rollup(s + [t], d)[i] == r[i]
    {
      GroupSnoc(s, t, d, ks[i]);
    }
  }

  /** The rollup with the empty key skipped: the transactions that carry no key leave it alone. */
  lemma RollupSkip(s: seq<Transaction>, t: Transaction, d: Dim)
    requires KeyOf(t, d) == ""
    ensures Rollup(s + [t], d) == Rollup(s, d)
  {
    var ks := Keys(s, d);
    KeysSnoc(s, t, d);
    KeysDistinct(s, d);
    forall i | 0 <= i < |ks|
      ensures Rollup(s + [t], d)[i] == Rollup(s, d)[i]
    {
      GroupSnoc(s, t, d, ks[i]);
    }
  }

  /**
   * The loop of every aggregator: for each transaction, skip it when its
   * key is empty, create the entry with zero totals when the key is new,
   * then add the transaction's amount, count, quantity and customer to the
   * entry. `keyedTotal` is the running total of the transactions not skipped
   * (`total_all_sales` in `region_wise_sales`).
   */
  method Accumulate(ts: seq<Transaction>, d: Dim) returns (groups: seq<Group>, keyedTotal: real)
    ensures groups == Rollup(ts, d)
    ensures keyedTotal == KeyedTotal(ts, d)
  {
    groups := [];
    keyedTotal := 0.0;
    for i := 0 to |ts|
      invariant groups == Rollup(ts[..i], d)
      invariant keyedTotal == KeyedTotal(ts[..i], d)
    {
      var t := ts[i];
      AccumulateStep(ts, i, d);
      ghost var next := AddTransaction(groups, t, d);
      var k := KeyOf(t, d);
      if k == "" {
        continue;
      }
      var j := FindGroup(groups, k);
      if j == |groups| {
        groups := groups + [EmptyGroup(k)];
      }
      groups := groups[j := AddTo(groups[j], t)];
      keyedTotal := keyedTotal + Amount(t);
      assert groups == next;
    }
    assert ts[..|ts|] == ts;
  }

  /** What one iteration of `Accumulate` does to the accumulator. */
  function AddTransaction(gs: seq<Group>, t: Transaction, d: Dim): seq<Group> {
    var k := KeyOf(t, d);
    var j := FindGroup(gs, k);
    var gs' := if j == |gs| then gs + [EmptyGroup(k)] else gs;
    if k == "" then gs else gs'[j := AddTo(gs'[j], t)]
  }

  /** One iteration of `Accumulate` turns the rollup of a prefix into the rollup of the next prefix. */
  lemma AccumulateStep(ts: seq<Transaction>, i: nat, d: Dim)
    requires i < |ts|
    ensures Rollup(ts[..i + 1], d) == AddTransaction(Rollup(ts[..i], d), ts[i], d)
    ensures KeyedTotal(ts[..i + 1], d) == KeyedTotal(ts[..i], d) + (if KeyOf(ts[i], d) != "" then Amount(ts[i]) else 0.0)
  {
    var t := ts[i];
    assert ts[..i + 1] == ts[..i] + [t];
    TotalsSnoc(ts[..i], t, d);
    RollupStep(ts[..i], t, d);
  }

  /** Looking a listed key up in the accumulator finds that key's group. */
  lemma FindListedKey(ts: seq<Transaction>, d: Dim, k: string)
    requires k in Keys(ts, d)
    ensures FindGroup(Rollup(ts, d), k) < |Rollup(ts, d)|
    ensures Rollup(ts, d)[FindGroup(Rollup(ts, d), k)] == GroupOf(ts, d, k)
  {
    var gs := Rollup(ts, d);
    var ks := Keys(ts, d);
    var m :| 0 <= m < |ks| && ks[m] == k;
    assert gs[m].key == k;
  }

  // ---------------------------------------------------------------------------
  // Sums over the groups.

  lemma {:induction false} SumUpdate(gs: seq<Group>, j: nat, g: Group)
    requires j < |gs|
    ensures Sum(gs[j := g], GroupAmount) == Sum(gs, GroupAmount) - gs[j].amount + g.amount
  {
    if j > 0 {
      SumUpdate(gs[1..], j - 1, g);
      assert gs[j := g][1..] == gs[1..][j - 1 := g];
    } else {
      assert gs[j := g][1..] == gs[1..];
    }
  }

  /** The group totals add up to the total of the transactions that have a key. */
  lemma {:induction false} RollupSum(ts: seq<Transaction>, d: Dim)
    ensures Sum(Rollup(ts, d), GroupAmount) == KeyedTotal(ts, d)
  {
    if ts != [] {
      var s := ts[..|ts| - 1];
      var t := ts[|ts| - 1];
      assert ts == s + [t];
      RollupSum(s, d);
      TotalsSnoc(s, t, d);
      RollupStep(s, t, d);
      SumAddTransaction(Rollup(s, d), t, d);
    }
  }

  /** One accumulator step adds the transaction's amount to the sum of the groups, unless its key is empty. */
  lemma SumAddTransaction(gs: seq<Group>, t: Transaction, d: Dim)
    ensures Sum(AddTransaction(gs, t, d), GroupAmount) == Sum(gs, GroupAmount) + (if KeyOf(t, d) != "" then Amount(t) else 0.0)
  {
    var k := KeyOf(t, d);
    var j := FindGroup(gs, k);
    if k != "" {
      if j == |gs| {
        var gs' := gs + [EmptyGroup(k)];
        SumAppend(gs, EmptyGroup(k), GroupAmount);
        SumUpdate(gs', j, AddTo(gs'[j], t));
      } else {
        SumUpdate(gs, j, AddTo(gs[j], t));
      }
    }
  }

  /** The running total of the loop is `sum(quantity * unit_price for t in ts)`. */
  lemma {:induction false} TotalIsSum(ts: seq<Transaction>)
    ensures TotalAmount(ts) == Sum(ts, Amount)
  {
    if ts != [] {
      var init := ts[..|ts| - 1];
      var t := ts[|ts| - 1];
      assert ts == init + [t];
      TotalIsSum(init);
      SumAppend(init, t, Amount);
    }
  }

  /** There are no keys exactly when every transaction's key is blank. */
  lemma NoKeys(ts: seq<Transaction>, d: Dim)
    ensures Keys(ts, d) == [] <==> forall i :: 0 <= i < |ts| ==> KeyOf(ts[i], d) == ""
  {
    if Keys(ts, d) != [] {
      KeysExactly(ts, d, Keys(ts, d)[0]);
    } else {
      forall i | 0 <= i < |ts|
        ensures KeyOf(ts[i], d) == ""
      {
        KeysExactly(ts, d, KeyOf(ts[i], d));
      }
    }
  }

  /** When every transaction has a key, the keyed total is the total revenue. */
  lemma {:induction false} KeyedTotalIsTotal(ts: seq<Transaction>, d: Dim)
    requires forall i :: 0 <= i < |ts| ==> KeyOf(ts[i], d) != ""
    ensures KeyedTotal(ts, d) == TotalAmount(ts)
  {
    if ts != [] {
      KeyedTotalIsTotal(ts[..|ts| - 1], d);
    }
  }
}
