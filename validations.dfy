/**
 * The five form schemas of frontend/lib/validations.ts as predicates over
 * the submitted form values. Lengths are string lengths; amounts are in
 * paise (one rupee is 100); zod's e-mail check is supplied as the verdict
 * `emailOk` on the form's email.
 */
module Validations {
  import opened Wrappers
  import opened Domain
  import ChequeController
  import TransactionController
  import CustomerController

  /** `z.enum(['AT_SIGHT', 'POST_DATED'])`. */
  function ParseChequeType(s: string): (r: Option<ChequeType>)
    ensures r.Some? ==> ChequeTypeName(r.value) == s
    ensures r.None? ==> forall t :: ChequeTypeName(t) != s
  {
    if s == "AT_SIGHT" then Some(AtSight)
    else if s == "POST_DATED" then Some(PostDated)
    else None
  }

  /** `z.enum(['RECEIVABLE', 'PAYABLE'])`. */
  function ParseDirection(s: string): (r: Option<ChequeDirection>)
    ensures r.Some? ==> DirectionName(r.value) == s
    ensures r.None? ==> forall d :: DirectionName(d) != s
  {
    if s == "RECEIVABLE" then Some(Receivable)
    else if s == "PAYABLE" then Some(Payable)
    else None
  }

  /** `z.enum(['CASH', 'UPI', 'NEFT', 'RTGS', 'IMPS', 'CARD', 'OTHER'])`. */
  function ParsePaymentMethod(s: string): (r: Option<PaymentMethod>)
    ensures r.Some? ==> PaymentMethodName(r.value) == s
    ensures r.None? ==> forall m :: PaymentMethodName(m) != s
  {
    if s == "CASH" then Some(Cash)
    else if s == "UPI" then Some(Upi)
    else if s == "NEFT" then Some(Neft)
    else if s == "RTGS" then Some(Rtgs)
    else if s == "IMPS" then Some(Imps)
    else if s == "CARD" then Some(Card)
    else if s == "OTHER" then Some(Other)
    else None
  }

  /** `z.enum(['CREDIT', 'DEBIT'])`. */
  function ParseTransactionType(s: string): (r: Option<TransactionType>)
    ensures r.Some? ==> TransactionTypeName(r.value) == s
    ensures r.None? ==> forall t :: TransactionTypeName(t) != s
  {
    if s == "CREDIT" then Some(Credit)
    else if s == "DEBIT" then Some(Debit)
    else None
  }

  /** Every listed value is accepted and read back as itself. */
  lemma EnumNamesRoundTrip(t: ChequeType, d: ChequeDirection, m: PaymentMethod, x: TransactionType)
    ensures ParseChequeType(ChequeTypeName(t)) == Some(t)
    ensures ParseDirection(DirectionName(d)) == Some(d)
    ensures ParsePaymentMethod(PaymentMethodName(m)) == Some(m)
    ensures ParseTransactionType(TransactionTypeName(x)) == Some(x)
  {
  }

  datatype LoginForm = LoginForm(email: string, password: string)

  datatype RegisterForm = RegisterForm(name: string, email: string, password: string)

  datatype CustomerForm = CustomerForm(
    name: string,
    phone: string,
    email: string,
    businessName: Option<string>,
    address: Option<string>,
    notes: Option<string>)

  datatype ChequeForm = ChequeForm(
    customerId: string,
    chequeNumber: string,
    amount: int,
    bankName: string,
    branchName: Option<string>,
    ifscCode: Option<string>,
    chequeType: string,
    direction: string,
    drawerName: string,
    payeeName: string,
    issueDate: string,
    dueDate: string,
    notes: Option<string>)

  datatype TransactionForm = TransactionForm(
    customerId: string,
    amount: int,
    date: string,
    payMethod: string,
    txType: string,
    category: Option<string>,
    reference: Option<string>,
    notes: Option<string>)

  /** The shared password rule of the login and register forms. */
  const MinPasswordLength: nat := 6

  predicate LoginValid(f: LoginForm, emailOk: bool) {
    emailOk && |f.password| >= MinPasswordLength
  }

  predicate RegisterValid(f: RegisterForm, emailOk: bool) {
    |f.name| >= 2 && emailOk && |f.password| >= MinPasswordLength
  }

  predicate CustomerValid(f: CustomerForm, emailOk: bool) {
    |f.name| >= 2 && 10 <= |f.phone| <= 15 && emailOk
  }

  /** `amount: z.number().min(1)`: at least one rupee. */
  predicate ChequeValid(f: ChequeForm) {
    && |f.customerId| >= 1
    && |f.chequeNumber| >= 1
    && f.amount >= 100
    && |f.bankName| >= 2
    && ParseChequeType(f.chequeType).Some?
    && ParseDirection(f.direction).Some?
    && |f.drawerName| >= 2
    && |f.payeeName| >= 2
    && |f.issueDate| >= 1
    && |f.dueDate| >= 1
  }

  /** `amount: z.number().min(0.01)`: at least one paisa. */
  predicate TransactionValid(f: TransactionForm) {
    && |f.customerId| >= 1
    && f.amount >= 1
    && |f.date| >= 1
    && ParsePaymentMethod(f.payMethod).Some?
    && ParseTransactionType(f.txType).Some?
  }

  /** Whoever passes the register form passes the login form with the same email and password. */
  lemma RegisteredCredentialsPassLogin(f: RegisterForm, emailOk: bool)
    ensures RegisterValid(f, emailOk) ==> LoginValid(LoginForm(f.email, f.password), emailOk)
    ensures LoginValid(LoginForm(f.email, f.password), emailOk) && |f.name| >= 2 ==> RegisterValid(f, emailOk)
    ensures |f.password| < MinPasswordLength ==>
      !RegisterValid(f, emailOk) && !LoginValid(LoginForm(f.email, f.password), emailOk)
  {
  }

  /** Phone numbers of 10 to 15 characters, both ends included, are the only ones accepted. */
  lemma PhoneLengthWindow(f: CustomerForm)
    requires |f.name| >= 2
    ensures CustomerValid(f, true) <==> 10 <= |f.phone| <= 15
    ensures !CustomerValid(f.(phone := "987654321"), true)
    ensures CustomerValid(f.(phone := "9876543210"), true)
    ensures CustomerValid(f.(phone := "+91987654321012"), true)
    ensures !CustomerValid(f.(phone := "+919876543210123"), true)
  {
  }

  /**
   * A cheque of fifty paise is rejected although it is greater than zero,
   * which is what the schema's message asks for.
   */
  lemma HalfRupeeChequeRejected(f: ChequeForm)
    requires f.amount == 50
    ensures f.amount > 0 && !ChequeValid(f)
  {
  }

  /** The optional keys never decide validity. */
  lemma OptionalFieldsIrrelevant(c: CustomerForm, q: ChequeForm, t: TransactionForm,
                                 a: Option<string>, b: Option<string>, d: Option<string>, emailOk: bool)
    ensures CustomerValid(c.(businessName := a, address := b, notes := d), emailOk) == CustomerValid(c, emailOk)
    ensures ChequeValid(q.(branchName := a, ifscCode := b, notes := d)) == ChequeValid(q)
    ensures TransactionValid(t.(category := a, reference := b, notes := d)) == TransactionValid(t)
  {
  }

  /**
   * The create body a cheque form becomes, each key sent under its own
   * name; `issue` and `due` are the instants the server makes of the two
   * date strings.
   */
  function ChequeBodyOf(f: ChequeForm, issue: Timestamp, due: Timestamp): ChequeController.CreateChequeBody {
    ChequeController.CreateChequeBody(
      Some(f.customerId), Some(f.chequeNumber), Some(f.amount), Some(f.bankName),
      f.branchName, f.ifscCode, ParseChequeType(f.chequeType), ParseDirection(f.direction),
      Some(f.drawerName), Some(f.payeeName), Some(issue), Some(due), f.notes)
  }

  /** A cheque form the schema accepts is never answered 400 by the create handler. */
  lemma ValidChequeFormPassesServer(f: ChequeForm, issue: Timestamp, due: Timestamp)
    ensures ChequeValid(f) ==> ChequeController.HasRequiredFields(ChequeBodyOf(f, issue, due))
  {
    if ChequeValid(f) {
      assert f.customerId != "" && f.chequeNumber != "" && f.bankName != "";
      assert f.drawerName != "" && f.payeeName != "";
    }
  }

  function TransactionBodyOf(f: TransactionForm, date: Timestamp): TransactionController.CreateTransactionBody {
    TransactionController.CreateTransactionBody(
      Some(f.customerId), Some(f.amount), ParseTransactionType(f.txType), ParsePaymentMethod(f.payMethod),
      Some(date), f.reference, f.category, f.notes)
  }

  /** A transaction form the schema accepts is never answered 400 by the create handler. */
  lemma ValidTransactionFormPassesServer(f: TransactionForm, date: Timestamp)
    ensures TransactionValid(f) ==> TransactionController.HasRequiredFields(TransactionBodyOf(f, date))
  {
    if TransactionValid(f) {
      assert f.customerId != "";
    }
  }

  function CustomerBodyOf(f: CustomerForm): CustomerController.CreateCustomerBody {
    CustomerController.CreateCustomerBody(
      Some(f.name), Some(f.phone), Some(f.email), f.businessName, f.address, f.notes)
  }

  /**
   * A customer form the schema accepts is never answered 400 by the create
   * handler, given that the e-mail check rejects the empty string.
   */
  lemma ValidCustomerFormPassesServer(f: CustomerForm, emailOk: bool)
    requires emailOk ==> f.email != ""
    ensures CustomerValid(f, emailOk) ==> CustomerController.HasRequiredFields(CustomerBodyOf(f))
  {
    if CustomerValid(f, emailOk) {
      assert f.name != "" && f.phone != "";
    }
  }
}
