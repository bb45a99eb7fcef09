/** The statistics fold of getStatistics in
    backend/src/controller/transactionController.js: income and expense
    totals, their difference and the number of transactions. */
module TransactionStats {
  import opened TransactionSchema

  datatype Stats = Stats(totalIncome: real, totalExpense: real, balance: real, transactionCount: nat)

  /** The sum of the amounts of the transactions of kind `k` (the source's
      `filter` by type followed by a `reduce` adding amounts from 0). */
  function Total(ts: seq<Transaction>, k: Kind): (r: real)
    ensures (forall t :: t in ts ==> t.kind != k) ==> r == 0.0
  {
    if ts == [] then 0.0
    else (if ts[0].kind == k then ts[0].amount else 0.0) + Total(ts[1..], k)
  }

  /** The number of transactions of kind `k`. */
  function CountOf(ts: seq<Transaction>, k: Kind): nat {
    if ts == [] then 0
    else (if ts[0].kind == k then 1 else 0) + CountOf(ts[1..], k)
  }

  /** Every transaction is income or expense, so the two counts add up to the whole. */
  lemma {:induction false} KindCountsCoverAll(ts: seq<Transaction>)
    ensures CountOf(ts, Income) + CountOf(ts, Expense) == |ts|
  {
    if ts != [] {
      KindCountsCoverAll(ts[1..]);
    }
  }

  /** With the schema's minimum of 0 on every amount, no total is negative. */
  lemma {:induction false} TotalNonNegative(ts: seq<Transaction>, k: Kind)
    ensures (forall t :: t in ts ==> t.amount >= 0.0) ==> Total(ts, k) >= 0.0
  {
    if ts != [] {
      assert ts[0] in ts;
      TotalNonNegative(ts[1..], k);
    }
  }

  lemma {:induction false} TotalAppend(a: seq<Transaction>, b: seq<Transaction>, k: Kind)
    ensures Total(a + b, k) == Total(a, k) + Total(b, k)
  {
    if a != [] {
      assert (a + b)[0] == a[0];
      assert (a + b)[1..] == a[1..] + b;
      TotalAppend(a[1..], b, k);
    } else {
      assert a + b == b;
    }
  }

  /** A total depends only on which transactions are summed, not on their order. */
  lemma {:induction false} TotalPermutation(a: seq<Transaction>, b: seq<Transaction>, k: Kind)
    requires multiset(a) == multiset(b)
    ensures Total(a, k) == Total(b, k)
    decreases |a|
  {
    if a != [] {
      var x := a[0];
      assert x in multiset(b);
      var i :| 0 <= i < |b| && b[i] == x;
      var rest := b[..i] + b[i + 1..];
      assert b == b[..i] + [x] + b[i + 1..];
      assert a == [x] + a[1..];
      assert multiset(b) == multiset(b[..i]) + multiset{x} + multiset(b[i + 1..]);
      assert multiset(a) == multiset{x} + multiset(a[1..]);
      assert multiset(rest) == multiset(b[..i]) + multiset(b[i + 1..]);
      forall y ensures multiset(a[1..])[y] == multiset(rest)[y] {
        assert multiset(a)[y] == multiset(b)[y];
      }
      assert multiset(a[1..]) == multiset(rest);
      TotalPermutation(a[1..], rest, k);
      TotalAppend(b[..i] + [x], b[i + 1..], k);
      TotalAppend(b[..i], [x], k);
      TotalAppend(b[..i], b[i + 1..], k);
      assert Total([x], k) == if x.kind == k then x.amount else 0.0;
    }
  }

  /** The statistics of a set of transactions: income total, expense total,
      balance and count. */
  function Summarize(ts: seq<Transaction>): (s: Stats)
    ensures s.balance == s.totalIncome - s.totalExpense
    ensures s.transactionCount == |ts| == CountOf(ts, Income) + CountOf(ts, Expense)
    ensures (forall t :: t in ts ==> t.amount >= 0.0) ==> s.totalIncome >= 0.0 && s.totalExpense >= 0.0
    ensures ts == [] ==> s == Stats(0.0, 0.0, 0.0, 0)
  {
    KindCountsCoverAll(ts);
    TotalNonNegative(ts, Income);
    TotalNonNegative(ts, Expense);
    var income := Total(ts, Income);
    var expense := Total(ts, Expense);
    Stats(income, expense, income - expense, |ts|)
  }

  /** The statistics do not depend on the order the store returns the transactions in. */
  lemma SummarizePermutation(a: seq<Transaction>, b: seq<Transaction>)
    requires multiset(a) == multiset(b)
    ensures Summarize(a) == Summarize(b)
  {
    TotalPermutation(a, b, Income);
    TotalPermutation(a, b, Expense);
    assert |a| == |multiset(a)| == |multiset(b)| == |b|;
  }

  /** Adding one transaction adds its amount to the total of its own kind only. */
  lemma SummarizeAddOne(ts: seq<Transaction>, t: Transaction)
    ensures var before, after := Summarize(ts), Summarize(ts + [t]);
      && after.transactionCount == before.transactionCount + 1
      && after.totalIncome == before.totalIncome + (if t.kind == Income then t.amount else 0.0)
      && after.totalExpense == before.totalExpense + (if t.kind == Expense then t.amount else 0.0)
  {
    TotalAppend(ts, [t], Income);
    TotalAppend(ts, [t], Expense);
  }
}
