/**
 * The cash-transaction handlers of
 * backend/src/controllers/transactionController.ts: create, list with
 * filters and an inclusive date range, read, edit (the request's `method`
 * key becomes the `paymentMethod` column) and soft delete.
 */
module TransactionController {
  import opened Wrappers
  import opened Domain
  import opened Store
  import Seqs
  import Paging

  /** The JSON body of a create request; `payMethod` is the request's `method` key. */
  datatype CreateTransactionBody = CreateTransactionBody(
    customerId: Option<Id>,
    amount: Option<int>,
    txType: Option<TransactionType>,
    payMethod: Option<PaymentMethod>,
    date: Option<Timestamp>,
    reference: Option<string>,
    category: Option<string>,
    notes: Option<string>)

  /** The 400 test: each required key must be truthy, so an amount of 0 counts as missing. */
  predicate HasRequiredFields(b: CreateTransactionBody) {
    && Present(b.customerId)
    && NonZero(b.amount)
    && b.txType.Some?
    && b.payMethod.Some?
    && b.date.Some?
  }

  /** The row written by a successful create. */
  function NewTransaction(b: CreateTransactionBody, id: Id, caller: Id): (t: CashTransaction)
    requires HasRequiredFields(b)
    ensures t.id == id && t.Live() && t.customerId == b.customerId.value
    ensures t.amount == b.amount.value && t.amount != 0
    ensures t.txType == b.txType.value && t.paymentMethod == b.payMethod.value && t.date == b.date.value
    ensures t.reference.Some? <==> Present(b.reference)
    ensures t.category.Some? <==> Present(b.category)
    ensures t.notes.Some? <==> Present(b.notes)
    ensures Present(b.reference) ==> t.reference == b.reference
    ensures Present(b.category) ==> t.category == b.category
    ensures Present(b.notes) ==> t.notes == b.notes
    ensures t.createdById == caller && t.updatedById == caller
  {
    CashTransaction(id, b.customerId.value, b.amount.value, b.txType.value, b.payMethod.value,
                    b.date.value, OrNull(b.reference), OrNull(b.category), OrNull(b.notes),
                    caller, caller, None)
  }

  /** `createTransaction` (POST /api/transactions). */
  method CreateTransaction(db: Database, b: CreateTransactionBody, newId: Id, caller: Id) returns (status: Status)
    requires db.Valid() && TransactionIdFree(db.transactions, newId)
    modifies db`transactions
    ensures db.Valid()
    ensures status == BadRequest <==> !HasRequiredFields(b)
    ensures status == NotFound <==>
      HasRequiredFields(b) && FindLiveCustomer(db.customers, b.customerId.value).None?
    ensures status == BadRequest || status == NotFound || status == Created
    ensures status == Created ==> db.transactions == old(db.transactions) + [NewTransaction(b, newId, caller)]
    ensures status != Created ==> db.transactions == old(db.transactions)
  {
    if !HasRequiredFields(b) {
      return BadRequest;
    }
    if FindLiveCustomer(db.customers, b.customerId.value).None? {
      return NotFound;
    }
    db.transactions := db.transactions + [NewTransaction(b, newId, caller)];
    status := Created;
  }

  /** The query string of a list request (sorting is not modelled). */
  datatype TransactionQuery = TransactionQuery(
    customerId: Option<Id>,
    txType: Option<TransactionType>,
    payMethod: Option<PaymentMethod>,
    category: Option<string>,
    startDate: Option<Timestamp>,
    endDate: Option<Timestamp>)

  /** Prisma's `{ gte, lte }` date condition. */
  datatype DateRange = DateRange(gte: Option<Timestamp>, lte: Option<Timestamp>)

  /** The store's `where` object: always `deletedAt: null`, plus each filter that was set. */
  datatype TransactionWhere = TransactionWhere(
    customerId: Option<Id>,
    txType: Option<TransactionType>,
    paymentMethod: Option<PaymentMethod>,
    category: Option<string>,
    date: Option<DateRange>)

  predicate InRange(r: DateRange, d: Timestamp) {
    (r.gte.Some? ==> r.gte.value <= d) && (r.lte.Some? ==> d <= r.lte.value)
  }

  /** How the store evaluates a `where` object on one row. */
  predicate WhereMatches(w: TransactionWhere, t: CashTransaction) {
    && t.Live()
    && (w.customerId.Some? ==> t.customerId == w.customerId.value)
    && (w.txType.Some? ==> t.txType == w.txType.value)
    && (w.paymentMethod.Some? ==> t.paymentMethod == w.paymentMethod.value)
    && (w.category.Some? ==> t.category == w.category)
    && (w.date.Some? ==> InRange(w.date.value, t.date))
  }

  /**
   * What a list request asks for: live transactions agreeing with every
   * truthy filter, dated inside [startDate, endDate] with both ends
   * included and an omitted end unconstrained.
   */
  predicate QueryMatches(q: TransactionQuery, t: CashTransaction) {
    && t.Live()
    && (Present(q.customerId) ==> t.customerId == q.customerId.value)
    && (q.txType.Some? ==> t.txType == q.txType.value)
    && (q.payMethod.Some? ==> t.paymentMethod == q.payMethod.value)
    && (Present(q.category) ==> t.category == q.category)
    && (q.startDate.Some? ==> q.startDate.value <= t.date)
    && (q.endDate.Some? ==> t.date <= q.endDate.value)
  }

  /** Builds `where` one filter at a time, as the handler does. */
  method BuildTransactionWhere(q: TransactionQuery) returns (w: TransactionWhere)
    ensures w.date.Some? <==> q.startDate.Some? || q.endDate.Some?
    ensures w.paymentMethod == q.payMethod
    ensures forall t :: WhereMatches(w, t) <==> QueryMatches(q, t)
  {
    w := TransactionWhere(None, None, None, None, None);
    if Present(q.customerId) {
      w := w.(customerId := q.customerId);
    }
    if q.txType.Some? {
      w := w.(txType := q.txType);
    }
    if q.payMethod.Some? {
      w := w.(paymentMethod := q.payMethod);
    }
    if Present(q.category) {
      w := w.(category := q.category);
    }
    if q.startDate.Some? || q.endDate.Some? {
      var range := DateRange(None, None);
      if q.startDate.Some? {
        range := range.(gte := q.startDate);
      }
      if q.endDate.Some? {
        range := range.(lte := q.endDate);
      }
      w := w.(date := Some(range));
    }
  }

  /** The transactions a list request counts. */
  function Matching(rows: seq<CashTransaction>, q: TransactionQuery): seq<CashTransaction> {
    Seqs.Filter(rows, (t: CashTransaction) => QueryMatches(q, t))
  }

  /** `getAllTransactions`: the count of matching rows and the page arithmetic. */
  method ListTransactions(db: Database, q: TransactionQuery, page: int, limit: int)
    returns (skip: int, pagination: Paging.Pagination)
    ensures skip == Paging.Skip(page, limit)
    ensures pagination.total == |Matching(db.transactions, q)|
    ensures pagination.totalPages == Paging.TotalPages(pagination.total, limit)
    ensures pagination.page == page && pagination.limit == limit
  {
    skip := (page - 1) * limit;
    var w := BuildTransactionWhere(q);
    Seqs.FilterExtensional(db.transactions, (t: CashTransaction) => WhereMatches(w, t),
                           (t: CashTransaction) => QueryMatches(q, t));
    var rows := Seqs.Filter(db.transactions, (t: CashTransaction) => WhereMatches(w, t));
    pagination := Paging.Paginate(|rows|, page, limit);
  }

  /** A transaction dated exactly on either end of the range is listed. */
  lemma RangeIncludesBothEnds(q: TransactionQuery, t: CashTransaction)
    requires QueryMatches(q.(startDate := None, endDate := None), t)
    requires q.startDate.Some? && q.endDate.Some?
    requires t.date == q.startDate.value || t.date == q.endDate.value
    requires q.startDate.value <= q.endDate.value
    ensures QueryMatches(q, t)
  {
  }

  /** Widening the date range never drops a transaction from the list. */
  lemma WiderRangeListsMore(rows: seq<CashTransaction>, q: TransactionQuery, wider: TransactionQuery)
    requires wider.customerId == q.customerId && wider.txType == q.txType
    requires wider.payMethod == q.payMethod && wider.category == q.category
    requires wider.startDate.Some? ==> q.startDate.Some? && wider.startDate.value <= q.startDate.value
    requires wider.endDate.Some? ==> q.endDate.Some? && q.endDate.value <= wider.endDate.value
    ensures multiset(Matching(rows, q)) <= multiset(Matching(rows, wider))
  {
    var p := (t: CashTransaction) => QueryMatches(q, t);
    var pw := (t: CashTransaction) => QueryMatches(wider, t);
    forall i | 0 <= i < |rows| && p(rows[i])
      ensures pw(rows[i])
    {
      assert QueryMatches(q, rows[i]);
    }
    Seqs.FilterMonotone(rows, p, pw);
  }

  /** `getTransactionById`. */
  method GetTransactionById(db: Database, id: Id) returns (status: Status, transaction: Option<CashTransaction>)
    ensures status == NotFound <==> FindLiveTransaction(db.transactions, id).None?
    ensures status == Ok || status == NotFound
    ensures status == Ok ==> transaction.Some? && transaction.value.id == id && transaction.value.Live()
    ensures status == Ok ==> transaction == Some(db.transactions[FindLiveTransaction(db.transactions, id).value])
    ensures status == NotFound ==> transaction.None?
  {
    var found := FindLiveTransaction(db.transactions, id);
    if found.None? {
      return NotFound, None;
    }
    status, transaction := Ok, Some(db.transactions[found.value]);
  }

  /**
   * The JSON body of an edit request; a key sent is Some, and a nullable
   * column's key sent as null is Some(None). The edit dialog also sends
   * `customerId`, which the spread passes on to the store unchecked.
   */
  datatype UpdateTransactionBody = UpdateTransactionBody(
    customerId: Option<Id>,
    amount: Option<int>,
    txType: Option<TransactionType>,
    payMethod: Option<PaymentMethod>,
    date: Option<Timestamp>,
    reference: Option<Option<string>>,
    category: Option<Option<string>>,
    notes: Option<Option<string>>)

  /**
   * The `dataToUpdate` object handed to the store: the body's keys, with
   * `method` (here `payMethod`) still present until it is renamed.
   */
  datatype TransactionPatch = TransactionPatch(
    customerId: Option<Id>,
    amount: Option<int>,
    txType: Option<TransactionType>,
    payMethod: Option<PaymentMethod>,
    paymentMethod: Option<PaymentMethod>,
    date: Option<Timestamp>,
    reference: Option<Option<string>>,
    category: Option<Option<string>>,
    notes: Option<Option<string>>,
    updatedById: Id)

  /**
   * `{ ...updateData, updatedById }`, then `method` moved to
   * `paymentMethod` and the date string turned into an instant.
   */
  method BuildTransactionPatch(u: UpdateTransactionBody, caller: Id) returns (d: TransactionPatch)
    ensures d.payMethod.None?
    ensures d.paymentMethod == u.payMethod
    ensures d.updatedById == caller
    ensures d.customerId == u.customerId
    ensures d.amount == u.amount && d.txType == u.txType && d.date == u.date
    ensures d.reference == u.reference && d.category == u.category && d.notes == u.notes
  {
    d := TransactionPatch(u.customerId, u.amount, u.txType, u.payMethod, None, u.date,
                          u.reference, u.category, u.notes, caller);
    if u.payMethod.Some? {
      d := d.(paymentMethod := u.payMethod);
      d := d.(payMethod := None);
    }
    if u.date.Some? {
      d := d.(date := u.date);
    }
  }

  /** How the store writes a patch over a row: each key present replaces its column. */
  function ApplyPatch(t: CashTransaction, d: TransactionPatch): CashTransaction
    requires d.payMethod.None?
  {
    t.(
      customerId := Overlay(d.customerId, t.customerId),
      amount := Overlay(d.amount, t.amount),
      txType := Overlay(d.txType, t.txType),
      paymentMethod := Overlay(d.paymentMethod, t.paymentMethod),
      date := Overlay(d.date, t.date),
      reference := Overlay(d.reference, t.reference),
      category := Overlay(d.category, t.category),
      notes := Overlay(d.notes, t.notes),
      updatedById := d.updatedById)
  }

  /**
   * The stored transaction after an edit, stated field by field. A sent
   * `customerId` moves the transaction to that customer, whether or not a
   * live customer has that id.
   */
  function UpdatedTransaction(t: CashTransaction, u: UpdateTransactionBody, caller: Id): (r: CashTransaction)
    ensures r.id == t.id && r.deletedAt == t.deletedAt
    ensures r.createdById == t.createdById && r.updatedById == caller
    ensures r.customerId == (if u.customerId.Some? then u.customerId.value else t.customerId)
    ensures r.paymentMethod == (if u.payMethod.Some? then u.payMethod.value else t.paymentMethod)
    ensures r.amount == (if u.amount.Some? then u.amount.value else t.amount)
    ensures r.txType == (if u.txType.Some? then u.txType.value else t.txType)
    ensures r.date == (if u.date.Some? then u.date.value else t.date)
    ensures r.reference == (if u.reference.Some? then u.reference.value else t.reference)
    ensures r.category == (if u.category.Some? then u.category.value else t.category)
    ensures r.notes == (if u.notes.Some? then u.notes.value else t.notes)
    ensures u == UpdateTransactionBody(None, None, None, None, None, None, None, None) ==> r == t.(updatedById := caller)
  {
    t.(
      customerId := Overlay(u.customerId, t.customerId),
      amount := Overlay(u.amount, t.amount),
      txType := Overlay(u.txType, t.txType),
      paymentMethod := Overlay(u.payMethod, t.paymentMethod),
      date := Overlay(u.date, t.date),
      reference := Overlay(u.reference, t.reference),
      category := Overlay(u.category, t.category),
      notes := Overlay(u.notes, t.notes),
      updatedById := caller)
  }

  /** `updateTransaction` (PUT /api/transactions/:id). */
  method UpdateTransaction(db: Database, id: Id, u: UpdateTransactionBody, caller: Id) returns (status: Status)
    requires db.Valid()
    modifies db`transactions
    ensures db.Valid()
    ensures status == NotFound <==> FindLiveTransaction(old(db.transactions), id).None?
    ensures status == Ok || status == NotFound
    ensures status == NotFound ==> db.transactions == old(db.transactions)
    ensures status == Ok ==>
      var k := FindLiveTransaction(old(db.transactions), id).value;
      db.transactions == old(db.transactions)[k := UpdatedTransaction(old(db.transactions)[k], u, caller)]
  {
    var found := FindLiveTransaction(db.transactions, id);
    if found.None? {
      return NotFound;
    }
    var k := found.value;
    var d := BuildTransactionPatch(u, caller);
    db.transactions := db.transactions[k := ApplyPatch(db.transactions[k], d)];
    status := Ok;
  }

  /** `deleteTransaction` (DELETE /api/transactions/:id): a soft delete touching two columns. */
  method DeleteTransaction(db: Database, id: Id, now: Timestamp, caller: Id) returns (status: Status)
    requires db.Valid()
    modifies db`transactions
    ensures db.Valid()
    ensures status == NotFound <==> FindLiveTransaction(old(db.transactions), id).None?
    ensures status == Ok || status == NotFound
    ensures status == NotFound ==> db.transactions == old(db.transactions)
    ensures status == Ok ==>
      var k := FindLiveTransaction(old(db.transactions), id).value;
      db.transactions == old(db.transactions)[k := old(db.transactions)[k].(deletedAt := Some(now), updatedById := caller)]
    ensures FindLiveTransaction(db.transactions, id).None?
  {
    var found := FindLiveTransaction(db.transactions, id);
    if found.None? {
      return NotFound;
    }
    var k := found.value;
    TransactionGoneAfterDelete(db.transactions, k, now, caller);
    db.transactions := db.transactions[k := db.transactions[k].(deletedAt := Some(now), updatedById := caller)];
    status := Ok;
  }
}
