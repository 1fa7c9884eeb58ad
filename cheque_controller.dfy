/**
 * The cheque handlers of backend/src/controllers/chequeController.ts. Each
 * handler checks its request step by step against the store and answers
 * with a status; only the 201/200 paths write, and they write the cheques
 * table alone.
 */
module ChequeController {
  import opened Wrappers
  import opened Domain
  import opened Store
  import Seqs
  import Paging
  import Lifecycle

  /**
   * The JSON body of a create request; a key not sent is None. The two date
   * strings are held as the instant `new Date` makes of them, None when the
   * string is missing or empty.
   */
  datatype CreateChequeBody = CreateChequeBody(
    customerId: Option<Id>,
    chequeNumber: Option<string>,
    amount: Option<int>,
    bankName: Option<string>,
    branchName: Option<string>,
    ifscCode: Option<string>,
    chequeType: Option<ChequeType>,
    direction: Option<ChequeDirection>,
    drawerName: Option<string>,
    payeeName: Option<string>,
    issueDate: Option<Timestamp>,
    dueDate: Option<Timestamp>,
    notes: Option<string>)

  /** The ten fields the handler insists on, by JavaScript truthiness (an amount of 0 is missing). */
  predicate HasRequiredFields(b: CreateChequeBody) {
    && Present(b.customerId)
    && Present(b.chequeNumber)
    && NonZero(b.amount)
    && Present(b.bankName)
    && b.chequeType.Some?
    && b.direction.Some?
    && Present(b.drawerName)
    && Present(b.payeeName)
    && b.issueDate.Some?
    && b.dueDate.Some?
  }

  /** A live cheque of `customerId` other than `except` already carries `number`. */
  predicate NumberTaken(rows: seq<Cheque>, customerId: Id, number: string, except: Option<Id>) {
    exists i | 0 <= i < |rows| ::
      && rows[i].Live()
      && rows[i].customerId == customerId
      && rows[i].chequeNumber == number
      && (except.Some? ==> rows[i].id != except.value)
  }

  /** The row written by a successful create. */
  function NewCheque(b: CreateChequeBody, id: Id, caller: Id): (c: Cheque)
    requires HasRequiredFields(b)
    ensures c.id == id && c.Live() && c.status == Received
    ensures c.customerId == b.customerId.value && c.chequeNumber == b.chequeNumber.value
    ensures c.amount == b.amount.value && c.amount != 0
    ensures c.bankName == b.bankName.value && c.drawerName == b.drawerName.value && c.payeeName == b.payeeName.value
    ensures c.chequeType == b.chequeType.value && c.direction == b.direction.value
    ensures c.issueDate == b.issueDate.value && c.dueDate == b.dueDate.value
    ensures c.branchName.Some? <==> Present(b.branchName)
    ensures c.ifscCode.Some? <==> Present(b.ifscCode)
    ensures c.notes.Some? <==> Present(b.notes)
    ensures Present(b.branchName) ==> c.branchName == b.branchName
    ensures Present(b.ifscCode) ==> c.ifscCode == b.ifscCode
    ensures Present(b.notes) ==> c.notes == b.notes
    ensures c.depositDate.None? && c.clearedDate.None? && c.bouncedDate.None? && c.bounceReason.None?
    ensures c.createdById == caller && c.updatedById == caller
  {
    Cheque(
      id, b.customerId.value, b.chequeNumber.value, b.amount.value,
      b.bankName.value, OrNull(b.branchName), OrNull(b.ifscCode),
      b.chequeType.value, b.direction.value,
      b.drawerName.value, b.payeeName.value,
      b.issueDate.value, b.dueDate.value,
      OrNull(b.notes),
      Received, None, None, None, None,
      caller, caller, None)
  }

  /** `createCheque` (POST /api/cheques). */
  method CreateCheque(db: Database, b: CreateChequeBody, newId: Id, caller: Id) returns (status: Status)
    requires db.Valid() && ChequeIdFree(db.cheques, newId)
    modifies db`cheques
    ensures db.Valid()
    ensures status == BadRequest <==> !HasRequiredFields(b)
    ensures status == NotFound <==>
      HasRequiredFields(b) && FindLiveCustomer(db.customers, b.customerId.value).None?
    ensures status == Conflict <==>
      && HasRequiredFields(b)
      && FindLiveCustomer(db.customers, b.customerId.value).Some?
      && NumberTaken(old(db.cheques), b.customerId.value, b.chequeNumber.value, None)
    ensures status == BadRequest || status == NotFound || status == Conflict || status == Created
    ensures status == Created ==> db.cheques == old(db.cheques) + [NewCheque(b, newId, caller)]
    ensures status != Created ==> db.cheques == old(db.cheques)
  {
    if !HasRequiredFields(b) {
      return BadRequest;
    }
    var customer := FindLiveCustomer(db.customers, b.customerId.value);
    if customer.None? {
      return NotFound;
    }
    if NumberTaken(db.cheques, b.customerId.value, b.chequeNumber.value, None) {
      return Conflict;
    }
    db.cheques := db.cheques + [NewCheque(b, newId, caller)];
    status := Created;
  }

  /** The filters of a list request that the model keeps (the text search is not modelled). */
  datatype ChequeQuery = ChequeQuery(
    customerId: Option<Id>,
    status: Option<ChequeStatus>,
    chequeType: Option<ChequeType>,
    direction: Option<ChequeDirection>)

  /** The store's `where` object: always `deletedAt: null`, plus each filter that was set. */
  datatype ChequeWhere = ChequeWhere(
    customerId: Option<Id>,
    status: Option<ChequeStatus>,
    chequeType: Option<ChequeType>,
    direction: Option<ChequeDirection>)

  /** How the store evaluates a `where` object on one row. */
  predicate WhereMatches(w: ChequeWhere, c: Cheque) {
    && c.Live()
    && (w.customerId.Some? ==> c.customerId == w.customerId.value)
    && (w.status.Some? ==> c.status == w.status.value)
    && (w.chequeType.Some? ==> c.chequeType == w.chequeType.value)
    && (w.direction.Some? ==> c.direction == w.direction.value)
  }

  /** What a list request asks for: live cheques agreeing with every truthy filter. */
  predicate QueryMatches(q: ChequeQuery, c: Cheque) {
    && c.Live()
    && (Present(q.customerId) ==> c.customerId == q.customerId.value)
    && (q.status.Some? ==> c.status == q.status.value)
    && (q.chequeType.Some? ==> c.chequeType == q.chequeType.value)
    && (q.direction.Some? ==> c.direction == q.direction.value)
  }

  /** Builds `where` one filter at a time, as the handler does. */
  method BuildChequeWhere(q: ChequeQuery) returns (w: ChequeWhere)
    ensures forall c :: WhereMatches(w, c) <==> QueryMatches(q, c)
  {
    w := ChequeWhere(None, None, None, None);
    if Present(q.customerId) {
      w := w.(customerId := q.customerId);
    }
    if q.status.Some? {
      w := w.(status := q.status);
    }
    if q.chequeType.Some? {
      w := w.(chequeType := q.chequeType);
    }
    if q.direction.Some? {
      w := w.(direction := q.direction);
    }
  }

  /** The cheques a list request counts. */
  function Matching(rows: seq<Cheque>, q: ChequeQuery): seq<Cheque> {
    Seqs.Filter(rows, (c: Cheque) => QueryMatches(q, c))
  }

  /** `getAllCheques`: the count of matching rows and the page arithmetic. */
  method ListCheques(db: Database, q: ChequeQuery, page: int, limit: int)
    returns (skip: int, pagination: Paging.Pagination)
    ensures forall c :: c in Matching(db.cheques, q) ==> c.Live()
    ensures skip == Paging.Skip(page, limit)
    ensures pagination.total == |Matching(db.cheques, q)|
    ensures pagination.totalPages == Paging.TotalPages(pagination.total, limit)
    ensures pagination.page == page && pagination.limit == limit
  {
    skip := (page - 1) * limit;
    var w := BuildChequeWhere(q);
    Seqs.FilterExtensional(db.cheques, (c: Cheque) => WhereMatches(w, c), (c: Cheque) => QueryMatches(q, c));
    var rows := Seqs.Filter(db.cheques, (c: Cheque) => WhereMatches(w, c));
    pagination := Paging.Paginate(|rows|, page, limit);
  }

  /** `getChequeById`. */
  method GetChequeById(db: Database, id: Id) returns (status: Status, cheque: Option<Cheque>)
    ensures status == NotFound <==> FindLiveCheque(db.cheques, id).None?
    ensures status == Ok || status == NotFound
    ensures status == Ok ==> cheque.Some? && cheque.value.id == id && cheque.value.Live()
    ensures status == Ok ==> cheque.value in db.cheques
    ensures status == Ok ==> cheque == Some(db.cheques[FindLiveCheque(db.cheques, id).value])
  {
    var k := FindLiveCheque(db.cheques, id);
    if k.None? {
      return NotFound, None;
    }
    status, cheque := Ok, Some(db.cheques[k.value]);
  }

  /**
   * The JSON body of an edit request; a key sent (whatever its value) is
   * Some, and a nullable column's key sent as null is Some(None).
   */
  datatype UpdateChequeBody = UpdateChequeBody(
    chequeNumber: Option<string>,
    amount: Option<int>,
    bankName: Option<string>,
    branchName: Option<Option<string>>,
    ifscCode: Option<Option<string>>,
    chequeType: Option<ChequeType>,
    direction: Option<ChequeDirection>,
    drawerName: Option<string>,
    payeeName: Option<string>,
    issueDate: Option<Timestamp>,
    dueDate: Option<Timestamp>,
    notes: Option<Option<string>>)

  /**
   * `{ ...updateData, updatedById }` written over the stored cheque: every
   * sent key replaces its column, every other column keeps its value.
   */
  function UpdatedCheque(c: Cheque, u: UpdateChequeBody, caller: Id): (r: Cheque)
    ensures r.id == c.id && r.customerId == c.customerId && r.deletedAt == c.deletedAt
    ensures r.status == c.status && r.depositDate == c.depositDate && r.clearedDate == c.clearedDate
    ensures r.bouncedDate == c.bouncedDate && r.bounceReason == c.bounceReason
    ensures r.createdById == c.createdById && r.updatedById == caller
    ensures u.chequeNumber.None? ==> r.chequeNumber == c.chequeNumber
    ensures u.chequeNumber.Some? ==> r.chequeNumber == u.chequeNumber.value
    ensures r.amount == (if u.amount.Some? then u.amount.value else c.amount)
    ensures r.bankName == (if u.bankName.Some? then u.bankName.value else c.bankName)
    ensures r.chequeType == (if u.chequeType.Some? then u.chequeType.value else c.chequeType)
    ensures r.direction == (if u.direction.Some? then u.direction.value else c.direction)
    ensures r.drawerName == (if u.drawerName.Some? then u.drawerName.value else c.drawerName)
    ensures r.payeeName == (if u.payeeName.Some? then u.payeeName.value else c.payeeName)
    ensures r.issueDate == (if u.issueDate.Some? then u.issueDate.value else c.issueDate)
    ensures r.dueDate == (if u.dueDate.Some? then u.dueDate.value else c.dueDate)
    ensures r.branchName == (if u.branchName.Some? then u.branchName.value else c.branchName)
    ensures r.ifscCode == (if u.ifscCode.Some? then u.ifscCode.value else c.ifscCode)
    ensures r.notes == (if u.notes.Some? then u.notes.value else c.notes)
    ensures u == UpdateChequeBody(None, None, None, None, None, None, None, None, None, None, None, None)
      ==> r == c.(updatedById := caller)
  {
    Cheque(c.id, c.customerId,
      Overlay(u.chequeNumber, c.chequeNumber),
      Overlay(u.amount, c.amount),
      Overlay(u.bankName, c.bankName),
      Overlay(u.branchName, c.branchName),
      Overlay(u.ifscCode, c.ifscCode),
      Overlay(u.chequeType, c.chequeType),
      Overlay(u.direction, c.direction),
      Overlay(u.drawerName, c.drawerName),
      Overlay(u.payeeName, c.payeeName),
      Overlay(u.issueDate, c.issueDate),
      Overlay(u.dueDate, c.dueDate),
      Overlay(u.notes, c.notes),
      c.status, c.depositDate, c.clearedDate, c.bouncedDate, c.bounceReason,
      c.createdById, caller, c.deletedAt)
  }

  /** The duplicate test of `updateCheque`: only a truthy number that differs is checked. */
  predicate UpdateNumberClash(rows: seq<Cheque>, c: Cheque, u: UpdateChequeBody) {
    && Present(u.chequeNumber)
    && u.chequeNumber.value != c.chequeNumber
    && NumberTaken(rows, c.customerId, u.chequeNumber.value, Some(c.id))
  }

  /** `updateCheque` (PUT /api/cheques/:id). */
  method UpdateCheque(db: Database, id: Id, u: UpdateChequeBody, caller: Id) returns (status: Status)
    requires db.Valid()
    modifies db`cheques
    ensures db.Valid()
    ensures status == NotFound <==> FindLiveCheque(old(db.cheques), id).None?
    ensures status == NotFound ==> db.cheques == old(db.cheques)
    ensures FindLiveCheque(old(db.cheques), id).Some? ==>
      var k := FindLiveCheque(old(db.cheques), id).value;
      && (status == Conflict <==> UpdateNumberClash(old(db.cheques), old(db.cheques)[k], u))
      && (status == Conflict ==> db.cheques == old(db.cheques))
      && (status != Conflict ==> status == Ok && db.cheques == old(db.cheques)[k := UpdatedCheque(old(db.cheques)[k], u, caller)])
  {
    var found := FindLiveCheque(db.cheques, id);
    if found.None? {
      return NotFound;
    }
    var k := found.value;
    var c := db.cheques[k];
    if UpdateNumberClash(db.cheques, c, u) {
      return Conflict;
    }
    // `{ ...updateData, updatedById }`: every sent key overrides its column
    var data := UpdatedCheque(c, u, caller);
    db.cheques := db.cheques[k := data];
    status := Ok;
  }

  /** The JSON body of a status request. */
  datatype StatusBody = StatusBody(
    status: Option<ChequeStatus>,
    depositDate: Option<Timestamp>,
    clearedDate: Option<Timestamp>,
    bouncedDate: Option<Timestamp>,
    bounceReason: Option<string>)

  /**
   * The row after a status request: the requested status whatever the
   * current one, the date of that status when one was sent, the bounce
   * reason only with BOUNCED; nothing else but the updater changes.
   */
  function StatusApplied(c: Cheque, b: StatusBody, caller: Id): (r: Cheque)
    requires b.status.Some?
    ensures r.status == b.status.value && r.updatedById == caller
    ensures r.depositDate != c.depositDate ==> r.status == Deposited && b.depositDate.Some? && r.depositDate == b.depositDate
    ensures r.clearedDate != c.clearedDate ==> r.status == Cleared && b.clearedDate.Some? && r.clearedDate == b.clearedDate
    ensures r.bouncedDate != c.bouncedDate ==> r.status == Bounced && b.bouncedDate.Some? && r.bouncedDate == b.bouncedDate
    ensures r.bounceReason != c.bounceReason ==> r.status == Bounced && Present(b.bounceReason)
    ensures b.status.value == Deposited && b.depositDate.Some? ==> r.depositDate == b.depositDate
    ensures b.status.value == Cleared && b.clearedDate.Some? ==> r.clearedDate == b.clearedDate
    ensures b.status.value == Bounced && b.bouncedDate.Some? ==> r.bouncedDate == b.bouncedDate
    ensures b.status.value == Bounced && Present(b.bounceReason) ==> r.bounceReason == b.bounceReason
    ensures r == c.(status := r.status, updatedById := caller, depositDate := r.depositDate,
                    clearedDate := r.clearedDate, bouncedDate := r.bouncedDate, bounceReason := r.bounceReason)
  {
    var s := b.status.value;
    c.(
      status := s,
      updatedById := caller,
      depositDate := if s == Deposited && b.depositDate.Some? then b.depositDate else c.depositDate,
      clearedDate := if s == Cleared && b.clearedDate.Some? then b.clearedDate else c.clearedDate,
      bouncedDate := if s == Bounced && b.bouncedDate.Some? then b.bouncedDate else c.bouncedDate,
      bounceReason := if s == Bounced && Present(b.bounceReason) then b.bounceReason else c.bounceReason)
  }

  /**
   * Sending the same status request twice leaves the cheque as the first
   * request left it: the second writes the same status, dates and reason.
   */
  lemma StatusUpdateIdempotent(c: Cheque, b: StatusBody, caller: Id)
    requires b.status.Some?
    ensures StatusApplied(StatusApplied(c, b, caller), b, caller) == StatusApplied(c, b, caller)
  {
    var once := StatusApplied(c, b, caller);
    var twice := StatusApplied(once, b, caller);
    assert twice.depositDate == once.depositDate;
    assert twice.clearedDate == once.clearedDate;
    assert twice.bouncedDate == once.bouncedDate;
    assert twice.bounceReason == once.bounceReason;
  }

  /** `updateChequeStatus` (PATCH /api/cheques/:id/status). */
  method UpdateChequeStatus(db: Database, id: Id, b: StatusBody, caller: Id) returns (status: Status)
    requires db.Valid()
    modifies db`cheques
    ensures db.Valid()
    ensures status == BadRequest <==> b.status.None?
    ensures status == NotFound <==> b.status.Some? && FindLiveCheque(old(db.cheques), id).None?
    ensures status == BadRequest || status == NotFound || status == Ok
    ensures status != Ok ==> db.cheques == old(db.cheques)
    ensures status == Ok ==>
      var k := FindLiveCheque(old(db.cheques), id).value;
      db.cheques == old(db.cheques)[k := StatusApplied(old(db.cheques)[k], b, caller)]
  {
    if b.status.None? {
      return BadRequest;
    }
    var found := FindLiveCheque(db.cheques, id);
    if found.None? {
      return NotFound;
    }
    var k := found.value;
    var s := b.status.value;
    var data := db.cheques[k].(status := s, updatedById := caller);
    if s == Deposited && b.depositDate.Some? {
      data := data.(depositDate := b.depositDate);
    }
    if s == Cleared && b.clearedDate.Some? {
      data := data.(clearedDate := b.clearedDate);
    }
    if s == Bounced {
      if b.bouncedDate.Some? {
        data := data.(bouncedDate := b.bouncedDate);
      }
      if Present(b.bounceReason) {
        data := data.(bounceReason := b.bounceReason);
      }
    }
    db.cheques := db.cheques[k := data];
    status := Ok;
  }

  /** `deleteCheque` (DELETE /api/cheques/:id): a soft delete. */
  method DeleteCheque(db: Database, id: Id, now: Timestamp, caller: Id) returns (status: Status)
    requires db.Valid()
    modifies db`cheques
    ensures db.Valid()
    ensures status == NotFound <==> FindLiveCheque(old(db.cheques), id).None?
    ensures status == Ok || status == NotFound
    ensures status == NotFound ==> db.cheques == old(db.cheques)
    ensures status == Ok ==>
      var k := FindLiveCheque(old(db.cheques), id).value;
      db.cheques == old(db.cheques)[k := old(db.cheques)[k].(deletedAt := Some(now), updatedById := caller)]
    ensures FindLiveCheque(db.cheques, id).None?
  {
    var found := FindLiveCheque(db.cheques, id);
    if found.None? {
      return NotFound;
    }
    var k := found.value;
    ChequeGoneAfterDelete(db.cheques, k, now, caller);
    db.cheques := db.cheques[k := db.cheques[k].(deletedAt := Some(now), updatedById := caller)];
    status := Ok;
  }

  /** No two live cheques of one customer carry the same number. */
  predicate NumbersUnique(rows: seq<Cheque>) {
    forall i, j ::
      0 <= i < j < |rows| && rows[i].Live() && rows[j].Live() && rows[i].customerId == rows[j].customerId
      ==> rows[i].chequeNumber != rows[j].chequeNumber
  }

  /** A create that passed the duplicate test keeps numbers unique per customer. */
  lemma CreateKeepsNumbersUnique(rows: seq<Cheque>, b: CreateChequeBody, id: Id, caller: Id)
    requires NumbersUnique(rows) && HasRequiredFields(b)
    requires !NumberTaken(rows, b.customerId.value, b.chequeNumber.value, None)
    ensures NumbersUnique(rows + [NewCheque(b, id, caller)])
  {
    var after := rows + [NewCheque(b, id, caller)];
    forall i, j | 0 <= i < j < |after| && after[i].Live() && after[j].Live() && after[i].customerId == after[j].customerId
      ensures after[i].chequeNumber != after[j].chequeNumber
    {
      if j == |rows| {
        assert after[i] == rows[i];
      }
    }
  }

  /**
   * An edit that passed the duplicate test keeps numbers unique per
   * customer, provided it does not send an empty number (see
   * EmptyNumberSlipsThrough for why that proviso is needed).
   */
  lemma UpdateKeepsNumbersUnique(rows: seq<Cheque>, k: nat, u: UpdateChequeBody, caller: Id)
    requires ChequeIdsDistinct(rows) && NumbersUnique(rows)
    requires k < |rows| && rows[k].Live()
    requires u.chequeNumber != Some("")
    requires !UpdateNumberClash(rows, rows[k], u)
    ensures NumbersUnique(rows[k := UpdatedCheque(rows[k], u, caller)])
  {
    var after := rows[k := UpdatedCheque(rows[k], u, caller)];
    forall i, j | 0 <= i < j < |after| && after[i].Live() && after[j].Live() && after[i].customerId == after[j].customerId
      ensures after[i].chequeNumber != after[j].chequeNumber
    {
      if i == k || j == k {
        var other := if i == k then j else i;
        assert rows[other].id != rows[k].id;
        if after[k].chequeNumber == rows[other].chequeNumber {
          assert Present(u.chequeNumber) && u.chequeNumber.value != rows[k].chequeNumber;
          assert NumberTaken(rows, rows[k].customerId, u.chequeNumber.value, Some(rows[k].id)) by {
            assert rows[other].Live() && rows[other].customerId == rows[k].customerId;
          }
        }
      }
    }
  }

  /**
   * An edit that sends an empty number skips the duplicate test (the number
   * is falsy) and still writes it, so two live cheques of one customer can
   * end up sharing the number "".
   */
  lemma EmptyNumberSlipsThrough()
    ensures
      var a := Cheque("a", "cust", "", 500, "Bank", None, None, AtSight, Receivable, "D", "P", 0, 0, None,
                      Received, None, None, None, None, "u", "u", None);
      var rows := [a, a.(id := "b", chequeNumber := "7")];
      var u := UpdateChequeBody(Some(""), None, None, None, None, None, None, None, None, None, None, None);
      && ChequeIdsDistinct(rows) && NumbersUnique(rows)
      && !UpdateNumberClash(rows, rows[1], u)
      && !NumbersUnique(rows[1 := UpdatedCheque(rows[1], u, "u")])
  {
    var a := Cheque("a", "cust", "", 500, "Bank", None, None, AtSight, Receivable, "D", "P", 0, 0, None,
                    Received, None, None, None, None, "u", "u", None);
    var rows := [a, a.(id := "b", chequeNumber := "7")];
    var u := UpdateChequeBody(Some(""), None, None, None, None, None, None, None, None, None, None, None);
    assert rows[0].id != rows[1].id && rows[0].chequeNumber != rows[1].chequeNumber;
    var after := rows[1 := UpdatedCheque(rows[1], u, "u")];
    assert after[0].chequeNumber == after[1].chequeNumber == "";
  }

  /**
   * The status handler consults no transition rule: a CLEARED cheque, which
   * the dialog treats as final, is moved back to RECEIVED on request.
   */
  lemma FinalChequeCanBeReopened(c: Cheque, caller: Id)
    requires c.status == Cleared
    ensures Lifecycle.IsFinal(c.status) && !Lifecycle.Step(c.status, Received)
    ensures StatusApplied(c, StatusBody(Some(Received), None, None, None, None), caller).status == Received
  {
  }
}
