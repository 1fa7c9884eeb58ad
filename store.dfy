/**
 * The relational store the controllers talk to, held in memory: one table
 * per entity kind, each a sequence of rows carrying a soft-delete marker.
 * Rows are never removed; a lookup "by id among rows not deleted" is the
 * store's findFirst({ where: { id, deletedAt: null } }).
 */
module Store {
  import opened Wrappers
  import opened Domain
  import Seqs

  class Database {
    var customers: seq<Customer>
    var cheques: seq<Cheque>
    var transactions: seq<CashTransaction>

    /** Every table keys its rows by a distinct id. */
    ghost predicate Valid()
      reads this
    {
      && CustomerIdsDistinct(customers)
      && ChequeIdsDistinct(cheques)
      && TransactionIdsDistinct(transactions)
    }

    constructor ()
      ensures Valid()
      ensures customers == [] && cheques == [] && transactions == []
    {
      customers, cheques, transactions := [], [], [];
    }
  }

  predicate CustomerIdsDistinct(rows: seq<Customer>) {
    forall i, j :: 0 <= i < j < |rows| ==> rows[i].id != rows[j].id
  }

  predicate ChequeIdsDistinct(rows: seq<Cheque>) {
    forall i, j :: 0 <= i < j < |rows| ==> rows[i].id != rows[j].id
  }

  predicate TransactionIdsDistinct(rows: seq<CashTransaction>) {
    forall i, j :: 0 <= i < j < |rows| ==> rows[i].id != rows[j].id
  }

  /** No row of the table carries `id` yet (the store generates fresh ids). */
  predicate CustomerIdFree(rows: seq<Customer>, id: Id) {
    forall i :: 0 <= i < |rows| ==> rows[i].id != id
  }

  predicate ChequeIdFree(rows: seq<Cheque>, id: Id) {
    forall i :: 0 <= i < |rows| ==> rows[i].id != id
  }

  predicate TransactionIdFree(rows: seq<CashTransaction>, id: Id) {
    forall i :: 0 <= i < |rows| ==> rows[i].id != id
  }

  /** Position of the row with this id, provided it is not soft-deleted. */
  function FindLiveCustomer(rows: seq<Customer>, id: Id): Option<nat> {
    Seqs.Find(rows, (c: Customer) => c.id == id && c.Live())
  }

  function FindLiveCheque(rows: seq<Cheque>, id: Id): Option<nat> {
    Seqs.Find(rows, (c: Cheque) => c.id == id && c.Live())
  }

  function FindLiveTransaction(rows: seq<CashTransaction>, id: Id): Option<nat> {
    Seqs.Find(rows, (t: CashTransaction) => t.id == id && t.Live())
  }

  /** Once the row holding `id` is marked deleted, no lookup by `id` finds anything. */
  lemma CustomerGoneAfterDelete(rows: seq<Customer>, k: nat, now: Timestamp, caller: Id)
    requires CustomerIdsDistinct(rows) && k < |rows|
    ensures FindLiveCustomer(rows[k := rows[k].(deletedAt := Some(now), updatedById := caller)], rows[k].id).None?
  {
    var after := rows[k := rows[k].(deletedAt := Some(now), updatedById := caller)];
    forall j | 0 <= j < |after| ensures !(after[j].id == rows[k].id && after[j].Live()) {
      if j < k { assert rows[j].id != rows[k].id; }
      else if k < j { assert rows[k].id != rows[j].id; }
    }
  }

  lemma ChequeGoneAfterDelete(rows: seq<Cheque>, k: nat, now: Timestamp, caller: Id)
    requires ChequeIdsDistinct(rows) && k < |rows|
    ensures FindLiveCheque(rows[k := rows[k].(deletedAt := Some(now), updatedById := caller)], rows[k].id).None?
  {
    var after := rows[k := rows[k].(deletedAt := Some(now), updatedById := caller)];
    forall j | 0 <= j < |after| ensures !(after[j].id == rows[k].id && after[j].Live()) {
      if j < k { assert rows[j].id != rows[k].id; }
      else if k < j { assert rows[k].id != rows[j].id; }
    }
  }

  lemma TransactionGoneAfterDelete(rows: seq<CashTransaction>, k: nat, now: Timestamp, caller: Id)
    requires TransactionIdsDistinct(rows) && k < |rows|
    ensures FindLiveTransaction(rows[k := rows[k].(deletedAt := Some(now), updatedById := caller)], rows[k].id).None?
  {
    var after := rows[k := rows[k].(deletedAt := Some(now), updatedById := caller)];
    forall j | 0 <= j < |after| ensures !(after[j].id == rows[k].id && after[j].Live()) {
      if j < k { assert rows[j].id != rows[k].id; }
      else if k < j { assert rows[k].id != rows[j].id; }
    }
  }
}
