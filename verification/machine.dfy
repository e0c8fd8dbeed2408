/** The ledger as a state machine: every operation as one transaction, and runs of them. */
module Machine {
  import opened Money
  import opened Calendar
  import opened Tables
  import opened Periods
  import opened Ledger
  import opened Settlement
  import opened YearEnd
  import Banking

  datatype Step =
    // subledger documents
    | CreateDocument(doc: Doc) | EditDocument(id: nat, doc: Doc) | DeleteDocument(id: nat)
    | PostDocument(id: nat) | ApplyDocument(id: nat) | UnpostDocument(id: nat)
    // stock movements
    | CreateMovement(move: Move) | EditMovement(id: nat, move: Move) | DeleteMovement(id: nat)
    | PostMovement(id: nat, credit: Option<int>) | UnpostMovement(id: nat)
    // calendar
    | CloseFiscalYear(year: nat, retained: int) | ReopenFiscalYear(year: nat)
    | CreateYear(name: YearName, start: Date, end: Date)
    | CreatePeriod(period: Period) | EditPeriod(id: nat, period: Period)
    // master data that posting reads
    | SetRates(rates: map<(string, Date), Rate>) | SetFxAccount(fxAccount: Option<int>)
    | SetWritable(writable: set<int>)
    // bank statements
    | CreateStatement(account: int, opening: int, closing: int)
    | UpdateStatement(id: nat, account: int, opening: int, closing: int)
    | DeleteStatement(id: nat)
    | AddBankLine(id: nat, date: Date, amount: int) | DeleteBankLine(id: nat)
    | MatchBankLine(id: nat, ref: LineRef) | UnmatchBankLine(id: nat) | AutoMatchStatement(id: nat)
    | ReconcileStatement(id: nat) | ReopenStatement(id: nat)

  /** Years are added after all existing ones, each under a new name. */
  predicate YearInputOk(years: seq<Year>, name: YearName, start: Date, end: Date) {
    start <= end && !NameTaken(years, name) && forall i | 0 <= i < |years| :: years[i].end < start
  }

  /** A period lies inside its year, is open only in an open year, and meets the table's constraints. */
  predicate PeriodInputOk(periods: seq<Period>, years: seq<Year>, p: Period) {
    && p.year < |years| && years[p.year].start <= p.start <= p.end <= years[p.year].end
    && (p.open ==> years[p.year].open)
    && !Conflicts(periods, p)
  }

  function Try(cfg: Config, s: State, step: Step): Result<State> {
    match step
    case CreateDocument(doc) => CreateDoc(s, doc)
    case EditDocument(id, doc) => EditDoc(s, id, doc)
    case DeleteDocument(id) => DeleteDoc(s, id)
    case PostDocument(id) => PostDoc(cfg, s, id)
    case ApplyDocument(id) => AutoApply(cfg, s, id)
    case UnpostDocument(id) => UnpostDoc(cfg, s, id)
    case CreateMovement(move) => CreateMove(s, move)
    case EditMovement(id, move) => EditMove(s, id, move)
    case DeleteMovement(id) => DeleteMove(s, id)
    case PostMovement(id, credit) => PostMove(cfg, s, id, credit)
    case UnpostMovement(id) => UnpostMove(cfg, s, id)
    case CloseFiscalYear(year, retained) => CloseYear(cfg, s, year, retained)
    case ReopenFiscalYear(year) => ReopenYear(cfg, s, year)
    case CreateYear(name, start, end) =>
      if !YearInputOk(s.years, name, start, end) then Err(ConstraintViolation)
      else Ok(s.(years := s.years + [Year(name, start, end, true, None)]))
    case CreatePeriod(period) =>
      if !PeriodInputOk(s.periods, s.years, period) then Err(ConstraintViolation)
      else Ok(s.(periods := s.periods + [period]))
    case EditPeriod(id, period) =>
      if |s.periods| <= id then Err(NotFound)
      else if !PeriodInputOk(s.periods[..id] + s.periods[id + 1..], s.years, period) then Err(ConstraintViolation)
      else Ok(s.(periods := s.periods[id := period]))
    case SetRates(rates) => Ok(s.(rates := rates))
    case SetFxAccount(fxAccount) => Ok(s.(fxAccount := fxAccount))
    case SetWritable(writable) => Ok(s.(writable := writable))
    case CreateStatement(account, opening, closing) => Banking.CreateStatement(cfg, s, account, opening, closing)
    case UpdateStatement(id, account, opening, closing) =>
      Banking.UpdateStatement(cfg, s, id, account, opening, closing)
    case DeleteStatement(id) => Banking.DeleteStatement(s, id)
    case AddBankLine(id, date, amount) => Banking.AddLine(s, id, date, amount)
    case DeleteBankLine(id) => Banking.DeleteLine(s, id)
    case MatchBankLine(id, ref) => Banking.MatchLine(s, id, ref)
    case UnmatchBankLine(id) => Banking.UnmatchLine(s, id)
    case AutoMatchStatement(id) => Banking.AutoMatch(s, id)
    case ReconcileStatement(id) => Banking.Reconcile(cfg, s, id)
    case ReopenStatement(id) => Banking.ReopenStatement(cfg, s, id)
  }

  /** A transaction commits or leaves everything as it was. */
  function Next(cfg: Config, s: State, step: Step): State {
    match Try(cfg, s, step)
    case Ok(after) => after
    case Err(_) => s
  }

  const EMPTY: State := State([], [], [], [], [], map[], [], [], map[], None, {})

  /** The state after a run of steps on an empty ledger. */
  function Run(cfg: Config, steps: seq<Step>): State {
    if steps == [] then EMPTY else Next(cfg, Run(cfg, steps[..|steps| - 1]), steps[|steps| - 1])
  }

  /** One more step of a run. */
  lemma RunStep(cfg: Config, steps: seq<Step>, k: nat, s: State, t: State)
    requires k < |steps| && Run(cfg, steps[..k]) == s && Try(cfg, s, steps[k]) == Ok(t)
    ensures Run(cfg, steps[..k + 1]) == t
  {
    assert steps[..k + 1][..k] == steps[..k];
  }
}
