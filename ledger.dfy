/**
 * The reductions the customer and dashboard handlers apply to rows already
 * fetched from the store: selecting live rows, a customer's rows, rows of
 * one status or type, and summing amounts (in minor currency units).
 */
module Ledger {
  import opened Domain
  import Seqs

  function LiveCustomers(rows: seq<Customer>): seq<Customer> {
    Seqs.Filter(rows, (c: Customer) => c.Live())
  }

  function LiveCheques(rows: seq<Cheque>): seq<Cheque> {
    Seqs.Filter(rows, (c: Cheque) => c.Live())
  }

  function LiveTransactions(rows: seq<CashTransaction>): seq<CashTransaction> {
    Seqs.Filter(rows, (t: CashTransaction) => t.Live())
  }

  /** The live cheques of one customer (the `cheques` relation filtered by `deletedAt: null`). */
  function ChequesOf(rows: seq<Cheque>, customerId: Id): seq<Cheque> {
    Seqs.Filter(rows, (c: Cheque) => c.customerId == customerId && c.Live())
  }

  function TransactionsOf(rows: seq<CashTransaction>, customerId: Id): seq<CashTransaction> {
    Seqs.Filter(rows, (t: CashTransaction) => t.customerId == customerId && t.Live())
  }

  /** The test `c.status === s`, as a value so that every filter by it is the same term. */
  function StatusIs(s: ChequeStatus): Cheque -> bool {
    (c: Cheque) => c.status == s
  }

  function TypeIs(t: TransactionType): CashTransaction -> bool {
    (x: CashTransaction) => x.txType == t
  }

  function WithStatus(cs: seq<Cheque>, s: ChequeStatus): seq<Cheque> {
    Seqs.Filter(cs, StatusIs(s))
  }

  function OfType(ts: seq<CashTransaction>, t: TransactionType): seq<CashTransaction> {
    Seqs.Filter(ts, TypeIs(t))
  }

  /** `reduce((sum, c) => sum + Number(c.amount), 0)` over cheques. */
  function SumAmounts(cs: seq<Cheque>): int {
    if cs == [] then 0 else cs[0].amount + SumAmounts(cs[1..])
  }

  /** The same sum over cash transactions. */
  function SumTxAmounts(ts: seq<CashTransaction>): int {
    if ts == [] then 0 else ts[0].amount + SumTxAmounts(ts[1..])
  }

  predicate NonNegativeAmounts(cs: seq<Cheque>) {
    forall i :: 0 <= i < |cs| ==> cs[i].amount >= 0
  }

  /** With non-negative amounts, the sum over a selection never exceeds the sum over all. */
  lemma {:induction false} SumOfSelectionBounded(cs: seq<Cheque>, p: Cheque -> bool)
    requires NonNegativeAmounts(cs)
    ensures 0 <= SumAmounts(Seqs.Filter(cs, p)) <= SumAmounts(cs)
  {
    if cs != [] {
      SumOfSelectionBounded(cs[1..], p);
      var head := if p(cs[0]) then [cs[0]] else [];
      assert Seqs.Filter(cs, p) == head + Seqs.Filter(cs[1..], p);
      var f := Seqs.Filter(cs, p);
      if p(cs[0]) {
        assert f[0] == cs[0] && f[1..] == Seqs.Filter(cs[1..], p);
        assert SumAmounts(f) == cs[0].amount + SumAmounts(Seqs.Filter(cs[1..], p));
      } else {
        assert f == Seqs.Filter(cs[1..], p);
      }
    }
  }

  /** One step of a filtered count and sum: the head contributes exactly when it is kept. */
  lemma FilterStep(cs: seq<Cheque>, p: Cheque -> bool)
    requires cs != []
    ensures |Seqs.Filter(cs, p)| == (if p(cs[0]) then 1 else 0) + |Seqs.Filter(cs[1..], p)|
    ensures SumAmounts(Seqs.Filter(cs, p)) == (if p(cs[0]) then cs[0].amount else 0) + SumAmounts(Seqs.Filter(cs[1..], p))
  {
    var f := Seqs.Filter(cs, p);
    if p(cs[0]) {
      assert f[0] == cs[0] && f[1..] == Seqs.Filter(cs[1..], p);
    } else {
      assert f == Seqs.Filter(cs[1..], p);
    }
  }

  lemma TxFilterStep(ts: seq<CashTransaction>, p: CashTransaction -> bool)
    requires ts != []
    ensures |Seqs.Filter(ts, p)| == (if p(ts[0]) then 1 else 0) + |Seqs.Filter(ts[1..], p)|
    ensures SumTxAmounts(Seqs.Filter(ts, p)) == (if p(ts[0]) then ts[0].amount else 0) + SumTxAmounts(Seqs.Filter(ts[1..], p))
  {
    var f := Seqs.Filter(ts, p);
    if p(ts[0]) {
      assert f[0] == ts[0] && f[1..] == Seqs.Filter(ts[1..], p);
    } else {
      assert f == Seqs.Filter(ts[1..], p);
    }
  }

  /** Filtering by a stronger test selects no more rows than filtering by a weaker one. */
  lemma {:induction false} StrongerFilterKeepsFewer(cs: seq<Cheque>, p: Cheque -> bool, q: Cheque -> bool)
    requires forall i :: 0 <= i < |cs| && p(cs[i]) ==> q(cs[i])
    ensures |Seqs.Filter(cs, p)| <= |Seqs.Filter(cs, q)|
  {
    if cs != [] {
      StrongerFilterKeepsFewer(cs[1..], p, q);
      FilterStep(cs, p);
      FilterStep(cs, q);
    }
  }

  /**
   * With non-negative amounts, filtering by a stronger test gives no larger
   * sum than filtering by a weaker one.
   */
  lemma {:induction false} StrongerFilterSumsLess(cs: seq<Cheque>, p: Cheque -> bool, q: Cheque -> bool)
    requires NonNegativeAmounts(cs)
    requires forall i :: 0 <= i < |cs| && p(cs[i]) ==> q(cs[i])
    ensures SumAmounts(Seqs.Filter(cs, p)) <= SumAmounts(Seqs.Filter(cs, q))
  {
    if cs != [] {
      StrongerFilterSumsLess(cs[1..], p, q);
      FilterStep(cs, p);
      FilterStep(cs, q);
    }
  }
}
