/** The rows of the ledger's tables. A table whose rows are numbered is a sequence (the row
    number is the id); a deleted row is None, so an id is never used again. */
module Tables {
  import opened Money
  import opened Calendar

  datatype Option<+T> = None | Some(value: T)

  datatype Error =
    | NotFound | NotDraft | NotPosted | AlreadyPosted | AlreadyReversed | HasApplications
    | NotPostable | NoOpenPeriod | MissingAccount | NothingToPost | YearNotOpen | YearNotClosed
    | PriorYearOpen | LaterYearClosed | BankMatched | NoExchangeRate | OrderLinked
    | NotOpen | NotReconciled | AlreadyMatched | UnmatchedLines | Unbalanced
    | NoLines | PartlyFulfilled | NothingToFulfil
    | ConstraintViolation  // refused by a database constraint or trigger

  datatype Result<+T> = Ok(value: T) | Err(error: Error) {
    predicate IsFailure() { Err? }
    function PropagateFailure<U>(): Result<U> requires Err? { Err(error) }
    function Extract(): T requires Ok? { value }
  }

  /* ---- chart of accounts and parties: fixed during a run ---- */

  datatype AccountType = Asset | Liability | Equity | Revenue | Expense

  datatype Account = Account(kind: AccountType, isCash: bool)

  datatype Config = Config(
    chart: map<int, Account>,
    receivable: map<nat, int>,   // customer -> A/R control account
    payable: map<nat, int>,      // supplier -> A/P control account
    base: string)                // base currency

  /** Only an asset can be cash. */
  predicate ConfigOk(cfg: Config) {
    forall a | a in cfg.chart :: cfg.chart[a].isCash ==> cfg.chart[a].kind == Asset
  }

  /* ---- general ledger ---- */

  datatype Line = Line(account: int, debit: int, credit: int, baseDebit: int, baseCredit: int)

  datatype Entry = Entry(
    date: Date, period: nat, currency: string, rate: Rate, lines: seq<Line>,
    reverses: Option<nat>, isClosing: bool)

  datatype PeriodName = MonthName(month: nat) | OtherName(text: string)

  datatype Period = Period(year: nat, name: PeriodName, start: Date, end: Date, open: bool)

  datatype YearName = YearNumber(year: nat) | OtherYear(text: string)

  datatype Year = Year(name: YearName, start: Date, end: Date, open: bool, closing: Option<nat>)

  /* ---- subledgers ---- */

  datatype Kind =
    | SalesInvoice | PurchaseBill | SalesCreditNote | PurchaseCreditNote
    | CustomerPayment | SupplierPayment

  predicate IsCharge(k: Kind) { k == SalesInvoice || k == PurchaseBill }

  predicate IsPayment(k: Kind) { k == CustomerPayment || k == SupplierPayment }

  predicate ArSide(k: Kind) { k == SalesInvoice || k == SalesCreditNote || k == CustomerPayment }

  /** One line of an invoice, bill or credit note, with its accounts resolved. */
  datatype DetailLine = DetailLine(account: Option<int>, subtotal: int, taxAccount: Option<int>, tax: int)

  /** A document of any of the six kinds; lines are empty for a payment, amount and cash
      matter only for a payment. It is posted exactly while it links a journal entry. */
  datatype Doc = Doc(
    kind: Kind, party: nat, date: Date, currency: string, lines: seq<DetailLine>,
    amount: int, cash: Option<int>, linked: bool, entry: Option<nat>)

  function SumSubtotals(lines: seq<DetailLine>): int {
    if lines == [] then 0 else lines[0].subtotal + SumSubtotals(lines[1..])
  }

  function SumTaxes(lines: seq<DetailLine>): int {
    if lines == [] then 0 else lines[0].tax + SumTaxes(lines[1..])
  }

  /** The header total: a payment's amount, or the sum over the lines. */
  function Total(d: Doc): int {
    if IsPayment(d.kind) then d.amount else SumSubtotals(d.lines) + SumTaxes(d.lines)
  }

  function Control(cfg: Config, d: Doc): Option<int> {
    var accounts := if ArSide(d.kind) then cfg.receivable else cfg.payable;
    if d.party in accounts then Some(accounts[d.party]) else None
  }

  datatype MoveKind = Issue | Receipt | OtherMove

  /** A stock movement; its cost is negative for an issue. */
  datatype Move = Move(
    kind: MoveKind, date: Date, cost: int, inventory: Option<int>, cogs: Option<int>,
    linked: bool, entry: Option<nat>)

  /** Part of a settling document (payment or credit note) applied to an invoice or bill. */
  datatype App = App(amount: int, fx: Option<nat>)

  /* ---- bank reconciliation ---- */

  datatype Statement = Statement(account: int, opening: int, closing: int, reconciled: bool)

  /** A journal line: its entry and its place in it. */
  datatype LineRef = LineRef(entry: nat, line: nat)

  datatype BankLine = BankLine(statement: nat, date: Date, amount: int, matched: Option<LineRef>)

  datatype State = State(
    journal: seq<Entry>,
    periods: seq<Period>,
    years: seq<Year>,
    docs: seq<Option<Doc>>,
    moves: seq<Option<Move>>,
    apps: map<(nat, nat), App>,          // (settling document, charge) -> application
    statements: seq<Option<Statement>>,
    bankLines: seq<Option<BankLine>>,
    rates: map<(string, Date), Rate>,
    fxAccount: Option<int>,
    writable: set<int>)                  // postable, active accounts

  predicate HasDoc(s: State, id: nat) {
    id < |s.docs| && s.docs[id].Some?
  }

  predicate IsPosted(s: State, id: nat) {
    HasDoc(s, id) && s.docs[id].value.entry.Some?
  }
}
