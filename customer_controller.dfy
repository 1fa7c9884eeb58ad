/**
 * The customer handlers of backend/src/controllers/customerController.ts:
 * create with email/phone uniqueness among live customers, read with the
 * risk score recomputed from the customer's live cheques and written back
 * when it changed, edit, soft delete and the list count.
 */
module CustomerController {
  import opened Wrappers
  import opened Domain
  import opened Store
  import Seqs
  import Paging
  import Ledger

  /** The JSON body of a create request; a key not sent is None. */
  datatype CreateCustomerBody = CreateCustomerBody(
    name: Option<string>,
    phone: Option<string>,
    email: Option<string>,
    businessName: Option<string>,
    address: Option<string>,
    notes: Option<string>)

  predicate HasRequiredFields(b: CreateCustomerBody) {
    Present(b.name) && Present(b.phone) && Present(b.email)
  }

  /** Which of the two uniqueness messages a 409 carries. */
  datatype Clash = EmailInUse | PhoneInUse

  /** A live customer other than `except` already uses this email. */
  predicate EmailTaken(rows: seq<Customer>, email: string, except: Option<Id>) {
    exists i | 0 <= i < |rows| ::
      rows[i].Live() && rows[i].email == email && (except.Some? ==> rows[i].id != except.value)
  }

  predicate PhoneTaken(rows: seq<Customer>, phone: string, except: Option<Id>) {
    exists i | 0 <= i < |rows| ::
      rows[i].Live() && rows[i].phone == phone && (except.Some? ==> rows[i].id != except.value)
  }

  /**
   * The create handler's conflict test: the store returns the FIRST live
   * customer sharing the email or the phone, and the message is chosen by
   * looking at that row alone, email first.
   */
  function ContactClash(rows: seq<Customer>, email: string, phone: string): (r: Option<Clash>)
    ensures r.Some? <==> EmailTaken(rows, email, None) || PhoneTaken(rows, phone, None)
    ensures r == Some(EmailInUse) ==> EmailTaken(rows, email, None)
    ensures r == Some(PhoneInUse) ==> PhoneTaken(rows, phone, None)
  {
    match Seqs.Find(rows, (c: Customer) => c.Live() && (c.email == email || c.phone == phone))
    case None => None
    case Some(k) => if rows[k].email == email then Some(EmailInUse) else Some(PhoneInUse)
  }

  /**
   * Email is preferred only within the row found first: when an earlier row
   * shares the phone and a later one the email, the phone message is given.
   */
  lemma PhoneReportedDespiteEmailClash()
    ensures
      var x := Customer("x", "X", "9000000001", "x@a.in", None, None, None, 0, "u", "u", None);
      var y := Customer("y", "Y", "9000000002", "y@a.in", None, None, None, 0, "u", "u", None);
      && EmailTaken([x, y], "y@a.in", None)
      && ContactClash([x, y], "y@a.in", "9000000001") == Some(PhoneInUse)
  {
    var x := Customer("x", "X", "9000000001", "x@a.in", None, None, None, 0, "u", "u", None);
    var y := Customer("y", "Y", "9000000002", "y@a.in", None, None, None, 0, "u", "u", None);
    assert [x, y][1].email == "y@a.in";
    assert [x, y][0].email != "y@a.in";
  }

  /** The row written by a successful create. */
  function NewCustomer(b: CreateCustomerBody, id: Id, caller: Id): (c: Customer)
    requires HasRequiredFields(b)
    ensures c.id == id && c.Live() && c.riskScore == 0
    ensures c.name == b.name.value && c.phone == b.phone.value && c.email == b.email.value
    ensures c.businessName.Some? <==> Present(b.businessName)
    ensures c.address.Some? <==> Present(b.address)
    ensures c.notes.Some? <==> Present(b.notes)
    ensures Present(b.businessName) ==> c.businessName == b.businessName
    ensures Present(b.address) ==> c.address == b.address
    ensures Present(b.notes) ==> c.notes == b.notes
    ensures c.createdById == caller && c.updatedById == caller
  {
    Customer(id, b.name.value, b.phone.value, b.email.value,
             OrNull(b.businessName), OrNull(b.address), OrNull(b.notes),
             0, caller, caller, None)
  }

  /** `createCustomer` (POST /api/customers). */
  method CreateCustomer(db: Database, b: CreateCustomerBody, newId: Id, caller: Id)
    returns (status: Status, clash: Option<Clash>)
    requires db.Valid() && CustomerIdFree(db.customers, newId)
    modifies db`customers
    ensures db.Valid()
    ensures status == BadRequest <==> !HasRequiredFields(b)
    ensures status == Conflict <==>
      HasRequiredFields(b) && (EmailTaken(old(db.customers), b.email.value, None) || PhoneTaken(old(db.customers), b.phone.value, None))
    ensures status == BadRequest || status == Conflict || status == Created
    ensures clash.Some? <==> status == Conflict
    ensures status == Conflict ==> clash == ContactClash(old(db.customers), b.email.value, b.phone.value)
    ensures status == Created ==> db.customers == old(db.customers) + [NewCustomer(b, newId, caller)]
    ensures status != Created ==> db.customers == old(db.customers)
  {
    if !HasRequiredFields(b) {
      return BadRequest, None;
    }
    var existing := ContactClash(db.customers, b.email.value, b.phone.value);
    if existing.Some? {
      return Conflict, existing;
    }
    db.customers := db.customers + [NewCustomer(b, newId, caller)];
    status, clash := Created, None;
  }

  /** `getAllCustomers`: the count of live customers and the page arithmetic (search is not modelled). */
  method ListCustomers(db: Database, page: int, limit: int) returns (skip: int, pagination: Paging.Pagination)
    ensures skip == Paging.Skip(page, limit)
    ensures pagination.total == |Ledger.LiveCustomers(db.customers)|
    ensures pagination.total <= |db.customers|
    ensures pagination.totalPages == Paging.TotalPages(pagination.total, limit)
    ensures pagination.page == page && pagination.limit == limit
  {
    skip := (page - 1) * limit;
    pagination := Paging.Paginate(|Ledger.LiveCustomers(db.customers)|, page, limit);
  }

  /**
   * `Math.round(bounced / total * 100)`, or 0 without cheques, computed
   * exactly: the nearest integer to 100·bounced/total, halves rounding up.
   */
  function RiskScore(bounced: nat, total: nat): (r: nat)
    requires bounced <= total
    ensures r <= 100
    ensures total == 0 ==> r == 0
    ensures total > 0 ==> 2 * total * r <= 200 * bounced + total < 2 * total * r + 2 * total
  {
    if total == 0 then 0
    else
      var n := 200 * bounced + total;
      var q := n / (2 * total);
      assert (2 * total) * q + n % (2 * total) == n;
      assert 2 * total * q <= n < 2 * total * q + 2 * total;
      RoundedScoreAtMost100(bounced, total, q);
      q
  }

  lemma RoundedScoreAtMost100(bounced: nat, total: nat, q: int)
    requires 0 < total && bounced <= total
    requires 2 * total * q <= 200 * bounced + total
    ensures q <= 100
  {
    assert 2 * total * q <= 2 * total * 100 + total;
    assert 2 * total * (q - 100) <= total;
  }

  /** The example of a customer with four live cheques of which one bounced. */
  lemma OneBouncedOfFour()
    ensures RiskScore(1, 4) == 25
  {
  }

  /** The customer's figures computed from their live cheques. */
  datatype CustomerView = CustomerView(
    customer: Customer, riskScore: int, totalCheques: nat, bouncedCheques: nat, totalAmount: int)

  /** The risk score of customer `id` as of the given cheques table. */
  function ScoreOf(cheques: seq<Cheque>, id: Id): (r: nat)
    ensures r <= 100
    ensures r > 0 <==> 200 * |Ledger.WithStatus(Ledger.ChequesOf(cheques, id), Bounced)| >= |Ledger.ChequesOf(cheques, id)| > 0
  {
    var cs := Ledger.ChequesOf(cheques, id);
    var bounced := Ledger.WithStatus(cs, Bounced);
    var r := RiskScore(|bounced|, |cs|);
    BouncedScoresAboveZero(|bounced|, |cs|);
    r
  }

  /**
   * The score is positive exactly when at least one cheque in two hundred
   * bounced: below that, the percentage rounds down to 0.
   */
  lemma BouncedScoresAboveZero(bounced: nat, total: nat)
    requires bounced <= total
    ensures RiskScore(bounced, total) > 0 <==> 200 * bounced >= total > 0
  {
    var r := RiskScore(bounced, total);
    if total > 0 && r > 0 {
      assert 2 * total * r >= 2 * total by {
        assert 2 * total * r - 2 * total == 2 * total * (r - 1);
      }
    }
  }

  /** One bounced cheque in three hundred rounds to a score of 0. */
  lemma RareBounceScoresZero()
    ensures RiskScore(1, 300) == 0
  {
  }

  /** The write-back: the stored score is replaced only when it differs. */
  function Reconciled(rows: seq<Customer>, k: nat, score: int): (r: seq<Customer>)
    requires k < |rows|
    ensures |r| == |rows| && r[k].riskScore == score
    ensures r[k] == rows[k].(riskScore := score)
    ensures forall j :: 0 <= j < |rows| && j != k ==> r[j] == rows[j]
  {
    if rows[k].riskScore != score then rows[k := rows[k].(riskScore := score)] else rows
  }

  /**
   * Reading twice with unchanged cheques writes at most once: after the
   * first write-back the stored score equals the recomputed one.
   */
  lemma ReadIsIdempotent(rows: seq<Customer>, cheques: seq<Cheque>, k: nat)
    requires k < |rows|
    ensures
      var once := Reconciled(rows, k, ScoreOf(cheques, rows[k].id));
      && once[k].riskScore == ScoreOf(cheques, once[k].id)
      && Reconciled(once, k, ScoreOf(cheques, once[k].id)) == once
  {
  }

  /** `getCustomerById`. `wrote` tells whether the stored score was updated. */
  method GetCustomerById(db: Database, id: Id) returns (status: Status, view: Option<CustomerView>, wrote: bool)
    requires db.Valid()
    modifies db`customers
    ensures db.Valid()
    ensures status == NotFound <==> FindLiveCustomer(old(db.customers), id).None?
    ensures status == Ok || status == NotFound
    ensures status == NotFound ==> db.customers == old(db.customers) && view.None? && !wrote
    ensures status == Ok ==>
      var k := FindLiveCustomer(old(db.customers), id).value;
      var cs := Ledger.ChequesOf(db.cheques, id);
      var score := ScoreOf(db.cheques, id);
      && wrote == (old(db.customers)[k].riskScore != score)
      && db.customers == Reconciled(old(db.customers), k, score)
      && view == Some(CustomerView(old(db.customers)[k], score, |cs|,
                                   |Ledger.WithStatus(cs, Bounced)|, Ledger.SumAmounts(cs)))
  {
    var found := FindLiveCustomer(db.customers, id);
    if found.None? {
      return NotFound, None, false;
    }
    var k := found.value;
    var customer := db.customers[k];
    var cheques := Ledger.ChequesOf(db.cheques, id);
    var totalCheques := |cheques|;
    var bouncedCheques := |Ledger.WithStatus(cheques, Bounced)|;
    var totalAmount := Ledger.SumAmounts(cheques);
    var riskScore := RiskScore(bouncedCheques, totalCheques);
    wrote := false;
    if riskScore != customer.riskScore {
      db.customers := db.customers[k := customer.(riskScore := riskScore)];
      wrote := true;
    }
    status := Ok;
    view := Some(CustomerView(customer, riskScore, totalCheques, bouncedCheques, totalAmount));
  }

  /**
   * The JSON body of an edit request; a key sent (whatever its value) is
   * Some, and a nullable column's key sent as null is Some(None).
   */
  datatype UpdateCustomerBody = UpdateCustomerBody(
    name: Option<string>,
    phone: Option<string>,
    email: Option<string>,
    businessName: Option<Option<string>>,
    address: Option<Option<string>>,
    notes: Option<Option<string>>)

  /** `{ ...updateData, updatedById }` written over the stored customer. */
  function UpdatedCustomer(c: Customer, u: UpdateCustomerBody, caller: Id): (r: Customer)
    ensures r.id == c.id && r.riskScore == c.riskScore && r.deletedAt == c.deletedAt
    ensures r.createdById == c.createdById && r.updatedById == caller
    ensures u.email.None? ==> r.email == c.email
    ensures u.email.Some? ==> r.email == u.email.value
    ensures u.phone.None? ==> r.phone == c.phone
    ensures u.phone.Some? ==> r.phone == u.phone.value
    ensures r.name == (if u.name.Some? then u.name.value else c.name)
    ensures r.businessName == (if u.businessName.Some? then u.businessName.value else c.businessName)
    ensures r.address == (if u.address.Some? then u.address.value else c.address)
    ensures r.notes == (if u.notes.Some? then u.notes.value else c.notes)
    ensures u == UpdateCustomerBody(None, None, None, None, None, None) ==> r == c.(updatedById := caller)
  {
    c.(
      name := Overlay(u.name, c.name),
      phone := Overlay(u.phone, c.phone),
      email := Overlay(u.email, c.email),
      businessName := Overlay(u.businessName, c.businessName),
      address := Overlay(u.address, c.address),
      notes := Overlay(u.notes, c.notes),
      updatedById := caller)
  }

  /** The email test of `updateCustomer`: only a truthy email that differs is checked. */
  predicate EmailClash(rows: seq<Customer>, c: Customer, u: UpdateCustomerBody) {
    Present(u.email) && u.email.value != c.email && EmailTaken(rows, u.email.value, Some(c.id))
  }

  predicate PhoneClash(rows: seq<Customer>, c: Customer, u: UpdateCustomerBody) {
    Present(u.phone) && u.phone.value != c.phone && PhoneTaken(rows, u.phone.value, Some(c.id))
  }

  /** `updateCustomer` (PUT /api/customers/:id). */
  method UpdateCustomer(db: Database, id: Id, u: UpdateCustomerBody, caller: Id)
    returns (status: Status, clash: Option<Clash>)
    requires db.Valid()
    modifies db`customers
    ensures db.Valid()
    ensures status == NotFound <==> FindLiveCustomer(old(db.customers), id).None?
    ensures status == NotFound ==> db.customers == old(db.customers) && clash.None?
    ensures FindLiveCustomer(old(db.customers), id).Some? ==>
      var k := FindLiveCustomer(old(db.customers), id).value;
      var c := old(db.customers)[k];
      && (status == Conflict <==> EmailClash(old(db.customers), c, u) || PhoneClash(old(db.customers), c, u))
      && (clash == Some(EmailInUse) <==> EmailClash(old(db.customers), c, u))
      && (clash == Some(PhoneInUse) <==> !EmailClash(old(db.customers), c, u) && PhoneClash(old(db.customers), c, u))
      && (status == Conflict ==> db.customers == old(db.customers))
      && (status != Conflict ==> status == Ok && db.customers == old(db.customers)[k := UpdatedCustomer(c, u, caller)])
  {
    var found := FindLiveCustomer(db.customers, id);
    if found.None? {
      return NotFound, None;
    }
    var k := found.value;
    var c := db.customers[k];
    if EmailClash(db.customers, c, u) {
      return Conflict, Some(EmailInUse);
    }
    if PhoneClash(db.customers, c, u) {
      return Conflict, Some(PhoneInUse);
    }
    db.customers := db.customers[k := UpdatedCustomer(c, u, caller)];
    status, clash := Ok, None;
  }

  /** `deleteCustomer` (DELETE /api/customers/:id): a soft delete; the customer's cheques stay live. */
  method DeleteCustomer(db: Database, id: Id, now: Timestamp, caller: Id) returns (status: Status)
    requires db.Valid()
    modifies db`customers
    ensures db.Valid()
    ensures status == NotFound <==> FindLiveCustomer(old(db.customers), id).None?
    ensures status == Ok || status == NotFound
    ensures status == NotFound ==> db.customers == old(db.customers)
    ensures status == Ok ==>
      var k := FindLiveCustomer(old(db.customers), id).value;
      db.customers == old(db.customers)[k := old(db.customers)[k].(deletedAt := Some(now), updatedById := caller)]
    ensures FindLiveCustomer(db.customers, id).None?
  {
    var found := FindLiveCustomer(db.customers, id);
    if found.None? {
      return NotFound;
    }
    var k := found.value;
    CustomerGoneAfterDelete(db.customers, k, now, caller);
    db.customers := db.customers[k := db.customers[k].(deletedAt := Some(now), updatedById := caller)];
    status := Ok;
  }

  /** No two live customers share an email, and none share a phone. */
  predicate ContactsUnique(rows: seq<Customer>) {
    forall i, j :: 0 <= i < j < |rows| && rows[i].Live() && rows[j].Live() ==>
      rows[i].email != rows[j].email && rows[i].phone != rows[j].phone
  }

  /** A create that passed the conflict test keeps contacts unique. */
  lemma CreateKeepsContactsUnique(rows: seq<Customer>, b: CreateCustomerBody, id: Id, caller: Id)
    requires ContactsUnique(rows) && HasRequiredFields(b)
    requires ContactClash(rows, b.email.value, b.phone.value).None?
    ensures ContactsUnique(rows + [NewCustomer(b, id, caller)])
  {
    var after := rows + [NewCustomer(b, id, caller)];
    forall i, j | 0 <= i < j < |after| && after[i].Live() && after[j].Live()
      ensures after[i].email != after[j].email && after[i].phone != after[j].phone
    {
      if j == |rows| {
        assert after[i] == rows[i];
        assert !EmailTaken(rows, b.email.value, None) && !PhoneTaken(rows, b.phone.value, None);
      }
    }
  }

  /**
   * An edit that passed both tests keeps contacts unique, provided it sends
   * no empty email or phone: an empty value is falsy, skips its test and is
   * still written.
   */
  lemma UpdateKeepsContactsUnique(rows: seq<Customer>, k: nat, u: UpdateCustomerBody, caller: Id)
    requires CustomerIdsDistinct(rows) && ContactsUnique(rows)
    requires k < |rows| && rows[k].Live()
    requires u.email != Some("") && u.phone != Some("")
    requires !EmailClash(rows, rows[k], u) && !PhoneClash(rows, rows[k], u)
    ensures ContactsUnique(rows[k := UpdatedCustomer(rows[k], u, caller)])
  {
    var after := rows[k := UpdatedCustomer(rows[k], u, caller)];
    forall i, j | 0 <= i < j < |after| && after[i].Live() && after[j].Live()
      ensures after[i].email != after[j].email && after[i].phone != after[j].phone
    {
      if i == k || j == k {
        var other := if i == k then j else i;
        assert rows[other].id != rows[k].id;
        assert rows[other].Live();
        if after[k].email == rows[other].email {
          assert EmailTaken(rows, u.email.value, Some(rows[k].id));
        }
        if after[k].phone == rows[other].phone {
          assert PhoneTaken(rows, u.phone.value, Some(rows[k].id));
        }
      }
    }
  }
}
