/**
 * The two report handlers of backend/src/controllers/dashboardController.ts.
 * Both fetch the live rows and reduce them with filter, count and sum;
 * "today" is the caller's local midnight, passed in as a timestamp.
 */
module Dashboard {
  import opened Wrappers
  import opened Domain
  import Seqs
  import opened Ledger

  /** Received cheques whose due date lies in [from, until). */
  function DueBetween(cs: seq<Cheque>, from: Timestamp, until: Timestamp): seq<Cheque> {
    Seqs.Filter(cs, DueIn(from, until))
  }

  function DueIn(from: Timestamp, until: Timestamp): Cheque -> bool {
    (c: Cheque) => c.status == Received && from <= c.dueDate < until
  }

  /** Still outstanding in either direction: the cheque has not cleared. */
  predicate OpenReceivable(c: Cheque) {
    c.direction == Receivable && c.status != Cleared
  }

  predicate OpenPayable(c: Cheque) {
    c.direction == Payable && c.status != Cleared
  }

  /** Awaiting an outcome: received or deposited. */
  predicate Pending(c: Cheque) {
    c.status == Received || c.status == Deposited
  }

  /** The four status counts together cover every cheque once. */
  lemma {:induction false} BreakdownCoversAll(cs: seq<Cheque>)
    ensures |WithStatus(cs, Received)| + |WithStatus(cs, Deposited)|
          + |WithStatus(cs, Cleared)| + |WithStatus(cs, Bounced)| == |cs|
  {
    if cs != [] {
      BreakdownCoversAll(cs[1..]);
      FilterStep(cs, StatusIs(Received));
      FilterStep(cs, StatusIs(Deposited));
      FilterStep(cs, StatusIs(Cleared));
      FilterStep(cs, StatusIs(Bounced));
    }
  }

  /** The pending cheques are the received ones and the deposited ones, in count and in amount. */
  lemma {:induction false} PendingIsReceivedPlusDeposited(cs: seq<Cheque>)
    ensures |Seqs.Filter(cs, Pending)| == |WithStatus(cs, Received)| + |WithStatus(cs, Deposited)|
    ensures SumAmounts(Seqs.Filter(cs, Pending))
         == SumAmounts(WithStatus(cs, Received)) + SumAmounts(WithStatus(cs, Deposited))
  {
    if cs != [] {
      PendingIsReceivedPlusDeposited(cs[1..]);
      FilterStep(cs, Pending);
      FilterStep(cs, StatusIs(Received));
      FilterStep(cs, StatusIs(Deposited));
    }
  }

  /**
   * Every cheque is counted in exactly one of receivable, payable and
   * cleared, so the three totals add up to the sum of all amounts.
   */
  lemma {:induction false} AmountsCoverAll(cs: seq<Cheque>)
    ensures SumAmounts(Seqs.Filter(cs, OpenReceivable)) + SumAmounts(Seqs.Filter(cs, OpenPayable))
          + SumAmounts(WithStatus(cs, Cleared)) == SumAmounts(cs)
  {
    if cs != [] {
      AmountsCoverAll(cs[1..]);
      FilterStep(cs, OpenReceivable);
      FilterStep(cs, OpenPayable);
      FilterStep(cs, StatusIs(Cleared));
    }
  }

  /** Credit and debit split the transactions. */
  lemma {:induction false} CashFlowCoversAll(ts: seq<CashTransaction>)
    ensures SumTxAmounts(OfType(ts, Credit)) + SumTxAmounts(OfType(ts, Debit)) == SumTxAmounts(ts)
    ensures |OfType(ts, Credit)| + |OfType(ts, Debit)| == |ts|
  {
    if ts != [] {
      CashFlowCoversAll(ts[1..]);
      TxFilterStep(ts, TypeIs(Credit));
      TxFilterStep(ts, TypeIs(Debit));
    }
  }

  /** Every cheque due today is also in the seven-day pipeline. */
  lemma TodayWithinPipeline(cs: seq<Cheque>, today: Timestamp)
    ensures multiset(DueBetween(cs, today, today + Day)) <= multiset(DueBetween(cs, today, today + 7 * Day))
    ensures |DueBetween(cs, today, today + Day)| <= |DueBetween(cs, today, today + 7 * Day)|
    ensures NonNegativeAmounts(cs) ==>
      SumAmounts(DueBetween(cs, today, today + Day)) <= SumAmounts(DueBetween(cs, today, today + 7 * Day))
  {
    var p := DueIn(today, today + Day);
    var q := DueIn(today, today + 7 * Day);
    forall i | 0 <= i < |cs| && p(cs[i])
      ensures q(cs[i])
    {
    }
    Seqs.FilterMonotone(cs, p, q);
    StrongerFilterKeepsFewer(cs, p, q);
    if NonNegativeAmounts(cs) {
      StrongerFilterSumsLess(cs, p, q);
    }
  }

  /** A cheque due at the very start of tomorrow is in the pipeline but not due today. */
  lemma MidnightBelongsToTomorrow(c: Cheque, today: Timestamp)
    requires c.status == Received && c.dueDate == today + Day
    ensures DueBetween([c], today, today + Day) == []
    ensures DueBetween([c], today, today + 7 * Day) == [c]
  {
  }

  datatype Bucket = Bucket(count: nat, amount: int)

  datatype StatusBreakdown = StatusBreakdown(received: nat, deposited: nat, cleared: nat, bounced: nat)

  datatype TotalAmounts = TotalAmounts(receivable: int, payable: int, cleared: int)

  datatype Totals = Totals(customers: nat, cheques: nat, transactions: nat)

  datatype CashFlow = CashFlow(credit: int, debit: int, net: int)

  datatype DashboardStats = DashboardStats(
    todaysDeposits: Bucket,
    dueToday: seq<Cheque>,
    pendingClearances: Bucket,
    next7DaysPipeline: Bucket,
    statusBreakdown: StatusBreakdown,
    totalAmounts: TotalAmounts,
    totals: Totals,
    cashFlow: CashFlow)

  /** A bucket's count is the length of its list and its amount the sum over the same list. */
  function BucketOf(cs: seq<Cheque>): Bucket {
    Bucket(|cs|, SumAmounts(cs))
  }

  /** The `statusBreakdown` block: one count per status, covering every cheque once. */
  function BreakdownOf(cs: seq<Cheque>): (r: StatusBreakdown)
    ensures r.received == |WithStatus(cs, Received)| && r.deposited == |WithStatus(cs, Deposited)|
    ensures r.cleared == |WithStatus(cs, Cleared)| && r.bounced == |WithStatus(cs, Bounced)|
    ensures r.received + r.deposited + r.cleared + r.bounced == |cs|
  {
    BreakdownCoversAll(cs);
    StatusBreakdown(|WithStatus(cs, Received)|, |WithStatus(cs, Deposited)|,
                    |WithStatus(cs, Cleared)|, |WithStatus(cs, Bounced)|)
  }

  /** The `totalAmounts` block: open receivables, open payables and cleared, adding up to the whole. */
  function AmountsOf(cs: seq<Cheque>): (r: TotalAmounts)
    ensures r.receivable == SumAmounts(Seqs.Filter(cs, OpenReceivable))
    ensures r.payable == SumAmounts(Seqs.Filter(cs, OpenPayable))
    ensures r.cleared == SumAmounts(WithStatus(cs, Cleared))
    ensures r.receivable + r.payable + r.cleared == SumAmounts(cs)
  {
    AmountsCoverAll(cs);
    TotalAmounts(SumAmounts(Seqs.Filter(cs, OpenReceivable)),
                 SumAmounts(Seqs.Filter(cs, OpenPayable)),
                 SumAmounts(WithStatus(cs, Cleared)))
  }

  /** The `cashFlow` block: credit and debit split the transactions, and net is their difference. */
  function CashFlowOf(ts: seq<CashTransaction>): (r: CashFlow)
    ensures r.credit == SumTxAmounts(OfType(ts, Credit)) && r.debit == SumTxAmounts(OfType(ts, Debit))
    ensures r.credit + r.debit == SumTxAmounts(ts)
    ensures r.net == r.credit - r.debit
  {
    CashFlowCoversAll(ts);
    var credit := SumTxAmounts(OfType(ts, Credit));
    var debit := SumTxAmounts(OfType(ts, Debit));
    CashFlow(credit, debit, credit - debit)
  }

  /** `getDashboardStats` over the three tables, `today` being local midnight. */
  function GetDashboardStats(customers: seq<Customer>, cheques: seq<Cheque>,
                             transactions: seq<CashTransaction>, today: Timestamp): (r: DashboardStats)
    ensures r.totals.cheques == |LiveCheques(cheques)|
    ensures r.totals.customers == |LiveCustomers(customers)|
    ensures r.totals.transactions == |LiveTransactions(transactions)|
    ensures r.dueToday == DueBetween(LiveCheques(cheques), today, today + Day)
    ensures r.todaysDeposits == BucketOf(r.dueToday)
    ensures r.next7DaysPipeline == BucketOf(DueBetween(LiveCheques(cheques), today, today + 7 * Day))
    ensures r.pendingClearances == BucketOf(WithStatus(LiveCheques(cheques), Deposited))
    ensures r.statusBreakdown == BreakdownOf(LiveCheques(cheques))
    ensures r.totalAmounts == AmountsOf(LiveCheques(cheques))
    ensures r.cashFlow == CashFlowOf(LiveTransactions(transactions))
    ensures r.statusBreakdown.received + r.statusBreakdown.deposited
          + r.statusBreakdown.cleared + r.statusBreakdown.bounced == r.totals.cheques
    ensures r.pendingClearances.count == r.statusBreakdown.deposited
    ensures r.totalAmounts.receivable + r.totalAmounts.payable + r.totalAmounts.cleared
         == SumAmounts(LiveCheques(cheques))
    ensures r.cashFlow.credit + r.cashFlow.debit == SumTxAmounts(LiveTransactions(transactions))
    ensures r.cashFlow.net == r.cashFlow.credit - r.cashFlow.debit
    ensures r.todaysDeposits.count == |r.dueToday| <= r.next7DaysPipeline.count
    ensures r.todaysDeposits.amount == SumAmounts(r.dueToday)
    ensures NonNegativeAmounts(LiveCheques(cheques)) ==> r.todaysDeposits.amount <= r.next7DaysPipeline.amount
    ensures forall i :: 0 <= i < |r.dueToday| ==>
      r.dueToday[i].Live() && r.dueToday[i].status == Received
      && today <= r.dueToday[i].dueDate < today + Day
    ensures forall i :: (0 <= i < |LiveCheques(cheques)| && LiveCheques(cheques)[i].status == Received
      && today <= LiveCheques(cheques)[i].dueDate < today + Day) ==> LiveCheques(cheques)[i] in r.dueToday
  {
    var all := LiveCheques(cheques);
    var todays := DueBetween(all, today, today + Day);
    TodayWithinPipeline(all, today);
    DashboardStats(
      BucketOf(todays),
      todays,
      BucketOf(WithStatus(all, Deposited)),
      BucketOf(DueBetween(all, today, today + 7 * Day)),
      BreakdownOf(all),
      AmountsOf(all),
      Totals(|LiveCustomers(customers)|, |all|, |LiveTransactions(transactions)|),
      CashFlowOf(LiveTransactions(transactions)))
  }

  datatype ChequeSummary = ChequeSummary(
    total: nat, bounced: nat, pending: nat, cleared: nat, totalAmount: int, pendingAmount: int)

  datatype TransactionSummary = TransactionSummary(credit: int, debit: int, net: int)

  datatype CustomerSummary = CustomerSummary(
    customerId: Id,
    customerName: string,
    businessName: Option<string>,
    phone: string,
    email: string,
    riskScore: int,
    cheques: ChequeSummary,
    transactions: TransactionSummary)

  /** One customer's entry, from that customer's live cheques and transactions. */
  function SummaryOf(c: Customer, cheques: seq<Cheque>, transactions: seq<CashTransaction>): (r: CustomerSummary)
    ensures r.customerId == c.id && r.riskScore == c.riskScore
    ensures r.customerName == c.name && r.businessName == c.businessName
    ensures r.phone == c.phone && r.email == c.email
    ensures r.cheques.total == |ChequesOf(cheques, c.id)|
    ensures r.cheques.bounced == |WithStatus(ChequesOf(cheques, c.id), Bounced)|
    ensures r.cheques.pending == |Seqs.Filter(ChequesOf(cheques, c.id), Pending)|
    ensures r.cheques.cleared == |WithStatus(ChequesOf(cheques, c.id), Cleared)|
    ensures r.cheques.pendingAmount == SumAmounts(Seqs.Filter(ChequesOf(cheques, c.id), Pending))
    ensures r.transactions.credit == SumTxAmounts(OfType(TransactionsOf(transactions, c.id), Credit))
    ensures r.transactions.debit == SumTxAmounts(OfType(TransactionsOf(transactions, c.id), Debit))
    ensures r.cheques.bounced + r.cheques.pending + r.cheques.cleared == r.cheques.total
    ensures r.cheques.totalAmount == SumAmounts(ChequesOf(cheques, c.id))
    ensures NonNegativeAmounts(ChequesOf(cheques, c.id)) ==> 0 <= r.cheques.pendingAmount <= r.cheques.totalAmount
    ensures r.transactions.credit + r.transactions.debit == SumTxAmounts(TransactionsOf(transactions, c.id))
    ensures r.transactions.net == r.transactions.credit - r.transactions.debit
  {
    var cs := ChequesOf(cheques, c.id);
    var ts := TransactionsOf(transactions, c.id);
    var pending := Seqs.Filter(cs, Pending);
    var credit := SumTxAmounts(OfType(ts, Credit));
    var debit := SumTxAmounts(OfType(ts, Debit));
    BreakdownCoversAll(cs);
    PendingIsReceivedPlusDeposited(cs);
    CashFlowCoversAll(ts);
    PendingAtMostTotal(cs);
    CustomerSummary(c.id, c.name, c.businessName, c.phone, c.email, c.riskScore,
      ChequeSummary(|cs|, |WithStatus(cs, Bounced)|, |pending|, |WithStatus(cs, Cleared)|,
                    SumAmounts(cs), SumAmounts(pending)),
      TransactionSummary(credit, debit, credit - debit))
  }

  lemma PendingAtMostTotal(cs: seq<Cheque>)
    ensures NonNegativeAmounts(cs) ==> 0 <= SumAmounts(Seqs.Filter(cs, Pending)) <= SumAmounts(cs)
  {
    if NonNegativeAmounts(cs) {
      SumOfSelectionBounded(cs, Pending);
    }
  }

  datatype CustomerWiseResponse = CustomerWiseResponse(customers: seq<CustomerSummary>, totalCustomers: nat)

  /** `getCustomerWiseSummary`: one entry per live customer, in table order. */
  function GetCustomerWiseSummary(customers: seq<Customer>, cheques: seq<Cheque>,
                                  transactions: seq<CashTransaction>): (r: CustomerWiseResponse)
    ensures |r.customers| == |LiveCustomers(customers)| == r.totalCustomers
    ensures forall i :: 0 <= i < |r.customers| ==>
      r.customers[i] == SummaryOf(LiveCustomers(customers)[i], cheques, transactions)
    ensures forall i :: 0 <= i < |r.customers| ==>
      r.customers[i].customerId == LiveCustomers(customers)[i].id && LiveCustomers(customers)[i].Live()
  {
    var live := LiveCustomers(customers);
    var entries := seq(|live|, i requires 0 <= i < |live| => SummaryOf(live[i], cheques, transactions));
    CustomerWiseResponse(entries, |entries|)
  }
}
