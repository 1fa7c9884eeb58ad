/**
 * The entities of the bookkeeping backend: the enumerations of
 * backend/src/types/cheque.ts and backend/src/types/transaction.ts, the
 * three soft-deletable tables' rows, the HTTP statuses the handlers answer
 * with, and the JavaScript truthiness tests the handlers apply to request
 * fields.
 */
module Domain {
  import opened Wrappers

  /** Row identifiers and user identifiers are opaque strings. */
  type Id = string

  /** An instant, in milliseconds since the epoch. */
  type Timestamp = int

  /** One calendar day, in milliseconds. */
  const Day: int := 86_400_000

  datatype ChequeStatus = Received | Deposited | Cleared | Bounced
  datatype ChequeType = AtSight | PostDated
  datatype ChequeDirection = Receivable | Payable
  datatype PaymentMethod = Cash | Upi | Neft | Rtgs | Imps | Card | Other
  datatype TransactionType = Credit | Debit

  /** The string value each enumeration member carries in JSON. */
  function ChequeTypeName(t: ChequeType): string {
    match t
    case AtSight => "AT_SIGHT"
    case PostDated => "POST_DATED"
  }

  function DirectionName(d: ChequeDirection): string {
    match d
    case Receivable => "RECEIVABLE"
    case Payable => "PAYABLE"
  }

  function PaymentMethodName(m: PaymentMethod): string {
    match m
    case Cash => "CASH"
    case Upi => "UPI"
    case Neft => "NEFT"
    case Rtgs => "RTGS"
    case Imps => "IMPS"
    case Card => "CARD"
    case Other => "OTHER"
  }

  function TransactionTypeName(t: TransactionType): string {
    match t
    case Credit => "CREDIT"
    case Debit => "DEBIT"
  }

  /** The statuses a handler answers with: 200, 201, 400, 404 and 409. */
  datatype Status = Ok | Created | BadRequest | NotFound | Conflict

  /** JavaScript truthiness of an optional string field: sent and not empty. */
  predicate Present(s: Option<string>) {
    s.Some? && s.value != ""
  }

  /** JavaScript truthiness of an optional number field: sent and not zero. */
  predicate NonZero(n: Option<int>) {
    n.Some? && n.value != 0
  }

  /** The `field || null` idiom: an empty or missing string is stored as null. */
  function OrNull(s: Option<string>): Option<string> {
    if Present(s) then s else None
  }

  /** The object-spread idiom: a sent key overrides the stored value. */
  function Overlay<T>(sent: Option<T>, stored: T): T {
    if sent.Some? then sent.value else stored
  }

  datatype Customer = Customer(
    id: Id,
    name: string,
    phone: string,
    email: string,
    businessName: Option<string>,
    address: Option<string>,
    notes: Option<string>,
    riskScore: int,
    createdById: Id,
    updatedById: Id,
    deletedAt: Option<Timestamp>)
  {
    /** Not soft-deleted. */
    predicate Live() { deletedAt.None? }
  }

  datatype Cheque = Cheque(
    id: Id,
    customerId: Id,
    chequeNumber: string,
    amount: int,
    bankName: string,
    branchName: Option<string>,
    ifscCode: Option<string>,
    chequeType: ChequeType,
    direction: ChequeDirection,
    drawerName: string,
    payeeName: string,
    issueDate: Timestamp,
    dueDate: Timestamp,
    notes: Option<string>,
    status: ChequeStatus,
    depositDate: Option<Timestamp>,
    clearedDate: Option<Timestamp>,
    bouncedDate: Option<Timestamp>,
    bounceReason: Option<string>,
    createdById: Id,
    updatedById: Id,
    deletedAt: Option<Timestamp>)
  {
    predicate Live() { deletedAt.None? }
  }

  datatype CashTransaction = CashTransaction(
    id: Id,
    customerId: Id,
    amount: int,
    txType: TransactionType,
    paymentMethod: PaymentMethod,
    date: Timestamp,
    reference: Option<string>,
    category: Option<string>,
    notes: Option<string>,
    createdById: Id,
    updatedById: Id,
    deletedAt: Option<Timestamp>)
  {
    predicate Live() { deletedAt.None? }
  }
}
