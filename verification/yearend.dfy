/** Closing and reopening a fiscal year. */
module YearEnd {
  import opened Money
  import opened Calendar
  import opened Tables
  import opened Entries
  import opened Periods
  import opened Balances
  import opened Ledger

  predicate IsIncome(cfg: Config, account: int) {
    account in cfg.chart && (cfg.chart[account].kind == Revenue || cfg.chart[account].kind == Expense)
  }

  function IncomeItems(cfg: Config, lines: seq<Line>): seq<Item> {
    if lines == [] then []
    else if IsIncome(cfg, lines[0].account) then
      [Item(lines[0].account, Net(lines[0], true))] + IncomeItems(cfg, lines[1..])
    else IncomeItems(cfg, lines[1..])
  }

  /** Every revenue and expense line dated on or before the date. */
  function SweepItems(cfg: Config, journal: seq<Entry>, date: Date): seq<Item> {
    if journal == [] then []
    else
      var last := journal[|journal| - 1];
      SweepItems(cfg, journal[..|journal| - 1], date) + (if last.date <= date then IncomeItems(cfg, last.lines) else [])
  }

  /** The balances a close has to zero. */
  function ToSweep(cfg: Config, journal: seq<Entry>, date: Date): seq<Item> {
    GroupBy(SweepItems(cfg, journal, date))
  }

  /** One line per swept account on its balancing side. */
  function SweepLines(balances: seq<Item>): seq<Line> {
    if balances == [] then []
    else [CreditLine(balances[0].account, balances[0].amount, balances[0].amount)] + SweepLines(balances[1..])
  }

  /** The closing entry's lines: the sweep, then the net income or loss. */
  function ClosingLines(balances: seq<Item>, retained: int): seq<Line> {
    var total := SumItems(balances);
    SweepLines(balances) + (if total == 0 then [] else [DebitLine(retained, total, total)])
  }

  /** The lowest-numbered period containing the date, open or not. */
  function CoveringPeriod(periods: seq<Period>, date: Date): (r: Option<nat>)
    ensures r.Some? ==> r.value < |periods| && InPeriod(periods[r.value], date)
    ensures r.None? <==> !Covered(periods, date)
  {
    if periods == [] then None
    else
      var n := |periods| - 1;
      match CoveringPeriod(periods[..n], date)
      case Some(i) => Some(i)
      case None => if InPeriod(periods[n], date) then Some(n) else None
  }

  /** Opens a period; the trigger refuses when its year is closed. */
  function OpenUp(periods: seq<Period>, years: seq<Year>, id: nat): Result<seq<Period>>
    requires id < |periods|
  {
    if periods[id].open then Ok(periods)
    else if periods[id].year < |years| && years[periods[id].year].open then
      Ok(periods[id := periods[id].(open := true)])
    else Err(ConstraintViolation)
  }

  /** The period the closing entry lands in: the covering one, reopened if need be, or a new one. */
  function ClosingPeriod(periods: seq<Period>, years: seq<Year>, date: Date): Result<(seq<Period>, nat)> {
    match CoveringPeriod(periods, date)
    case None => PeriodForDate(periods, years, date)
    case Some(id) =>
      var after :- OpenUp(periods, years, id);
      Ok((after, id))
  }

  function ClosePeriods(periods: seq<Period>, year: nat): seq<Period> {
    seq(|periods|, i requires 0 <= i < |periods| =>
      if periods[i].year == year then periods[i].(open := false) else periods[i])
  }

  predicate YearCovers(years: seq<Year>, date: Date) {
    exists i | 0 <= i < |years| :: InYear(years[i], date)
  }

  predicate NameTaken(years: seq<Year>, name: YearName) {
    exists i | 0 <= i < |years| :: years[i].name == name
  }

  /** The year that would follow one ending on the date. */
  function NextYear(end: Date): Year {
    var last := OneYearOn(end + 1) - 1;
    OneYearOnIsLater(end + 1);
    Year(YearNumber(MonthOf(last) / 12), end + 1, last, true, None)
  }

  predicate RollsForward(years: seq<Year>, end: Date) {
    !YearCovers(years, end + 1) && !NameTaken(years, NextYear(end).name)
  }

  function RollForward(years: seq<Year>, end: Date): seq<Year> {
    if RollsForward(years, end) then years + [NextYear(end)] else years
  }

  predicate PriorOpen(years: seq<Year>, y: nat)
    requires y < |years|
  {
    exists z | 0 <= z < |years| :: z != y && years[z].open && years[z].start < years[y].start
  }

  predicate LaterClosed(years: seq<Year>, y: nat)
    requires y < |years|
  {
    exists z | 0 <= z < |years| :: !years[z].open && years[y].start < years[z].start
  }

  /** Posts the closing entry unless there is nothing to sweep. */
  function Sweep(cfg: Config, s: State, end: Date, retained: int): Result<State> {
    var balances := ToSweep(cfg, s.journal, end);
    if balances == [] then Ok(s)
    else
      var (periods, id) :- ClosingPeriod(s.periods, s.years, end);
      var lines := ClosingLines(balances, retained);
      if !Insertable(cfg, s.writable, lines) then Err(ConstraintViolation)
      else Ok(s.(periods := periods,
                 journal := s.journal + [Entry(end, id, cfg.base, RATE_ONE, lines, None, true)]))
  }

  function CloseYear(cfg: Config, s: State, y: nat, retained: int): Result<State> {
    if |s.years| <= y then Err(NotFound)
    else if !s.years[y].open then Err(YearNotOpen)
    else if PriorOpen(s.years, y) then Err(PriorYearOpen)
    else if retained !in cfg.chart || retained !in s.writable || cfg.chart[retained].kind != Equity then
      Err(MissingAccount)
    else
      var end := s.years[y].end;
      var s1 :- Sweep(cfg, s, end, retained);
      var closing := if |s1.journal| == |s.journal| then None else Some(|s.journal|);
      var years := s.years[y := s.years[y].(open := false, closing := closing)];
      Ok(s1.(periods := ClosePeriods(s1.periods, y), years := RollForward(years, end)))
  }

  function ReopenYear(cfg: Config, s: State, y: nat): Result<State> {
    if |s.years| <= y then Err(NotFound)
    else if s.years[y].open then Err(YearNotClosed)
    else if LaterClosed(s.years, y) then Err(LaterYearClosed)
    else
      var s1 := s.(years := s.years[y := s.years[y].(open := true, closing := None)]);
      match s.years[y].closing
      case None => Ok(s1)
      case Some(i) =>
        if |s.journal| <= i || |s.periods| <= s.journal[i].period then Err(NotFound)
        else
          var periods :- OpenUp(s1.periods, s1.years, s.journal[i].period);
          ReverseEntry(cfg, s1.(periods := periods), i)
  }
}
