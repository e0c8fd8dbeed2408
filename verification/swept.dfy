/** Closed years: their revenue and expense stay at zero as long as no other year starts inside
    them. */
module Swept {
  import opened Money
  import opened Calendar
  import opened Tables
  import opened Entries
  import opened Periods
  import opened Balances
  import opened Ledger
  import opened Settlement
  import opened YearEnd
  import opened Machine
  import opened Frames
  import opened Ordering

  /* ---- what a sweep collects ---- */

  function IncomeAccounts(cfg: Config): set<int> {
    set a | a in cfg.chart && IsIncome(cfg, a)
  }

  lemma {:induction false} IncomeItemsNet(cfg: Config, lines: seq<Line>, a: int)
    ensures IsIncome(cfg, a) ==> AmountFor(IncomeItems(cfg, lines), a) == NetOf(lines, {a}, true)
    ensures SumItems(IncomeItems(cfg, lines)) == NetOf(lines, IncomeAccounts(cfg), true)
  {
    if lines != [] {
      IncomeItemsNet(cfg, lines[1..], a);
      var rest := IncomeItems(cfg, lines[1..]);
      var it := Item(lines[0].account, Net(lines[0], true));
      assert ([it] + rest)[1..] == rest;
    }
  }

  /** The items swept through a date are each account's cumulative balance. */
  lemma {:induction false} SweepItemsNet(cfg: Config, journal: seq<Entry>, date: Date, a: int)
    ensures IsIncome(cfg, a) ==> AmountFor(SweepItems(cfg, journal, date), a) == Balance(journal, Through({a}, date))
    ensures SumItems(SweepItems(cfg, journal, date)) == Balance(journal, Through(IncomeAccounts(cfg), date))
  {
    if journal != [] {
      var init, last := journal[..|journal| - 1], journal[|journal| - 1];
      SweepItemsNet(cfg, init, date, a);
      IncomeItemsNet(cfg, last.lines, a);
      ItemsConcat(SweepItems(cfg, init, date), if last.date <= date then IncomeItems(cfg, last.lines) else [], a);
    }
  }

  lemma {:induction false} SweepLinesOf(balances: seq<Item>, a: int)
    ensures NetOf(SweepLines(balances), {a}, true) == -AmountFor(balances, a)
  {
    if balances != [] {
      SweepLinesOf(balances[1..], a);
      var lines := SweepLines(balances);
      assert lines[1..] == SweepLines(balances[1..]);
    }
  }

  /** The closing entry takes each swept account's whole balance away and gives the sum to
      retained earnings. */
  lemma ClosingLinesOf(balances: seq<Item>, retained: int, a: int)
    ensures NetOf(ClosingLines(balances, retained), {a}, true)
            == -AmountFor(balances, a) + (if a == retained then SumItems(balances) else 0)
  {
    var total := SumItems(balances);
    var line := DebitLine(retained, total, total);
    SweepLinesOf(balances, a);
    NetOfConcat(SweepLines(balances), [line], {a}, true);
    assert [line][1..] == [];
    assert NetOf([line][1..], {a}, true) == 0;
    assert SweepLines(balances) + [] == SweepLines(balances);
  }

  /* ---- the calendar ---- */

  /** Every closed year's revenue and expense accounts stand at zero at its end. */
  ghost predicate IsSwept(cfg: Config, s: State) {
    forall y: nat, a: int | y < |s.years| && !s.years[y].open && IsIncome(cfg, a) ::
      Balance(s.journal, Through({a}, s.years[y].end)) == 0
  }

  lemma {:induction false} BalanceGrows(journal: seq<Entry>, after: seq<Entry>, q: Query)
    requires journal <= after && forall i | |journal| <= i < |after| :: EntryNet(after[i], q) == 0
    ensures Balance(after, q) == Balance(journal, q)
    decreases |after|
  {
    if |journal| == |after| {
      assert journal == after;
    } else {
      BalanceGrows(journal, after[..|after| - 1], q);
    }
  }

  /* ---- when posting is safe ---- */

  /** No year starts inside a closed one, past its first day. */
  ghost predicate ClosedClear(years: seq<Year>) {
    forall y, z | 0 <= y < |years| && 0 <= z < |years| && !years[y].open && years[y].start < years[z].start ::
      years[y].end < years[z].start
  }

  /** An open year's dates come after every closed year's end. */
  lemma OpenIsLater(years: seq<Year>, y: nat, date: Date)
    requires ClosedClear(years) && ClosedFirst(years)
    requires y < |years| && !years[y].open && InOpenYear(years, date)
    ensures years[y].end < date
  {
    var z :| 0 <= z < |years| && years[z].open && InYear(years[z], date);
    assert years[y].start < years[z].start;
  }

  /** One more entry leaves the closed years swept exactly when it moves no income account by the
      end of any of them. */
  lemma SweptAfterEntry(cfg: Config, s: State, e: Entry)
    requires IsSwept(cfg, s)
    ensures IsSwept(cfg, s.(journal := s.journal + [e])) <==>
              forall y: nat, a: int | y < |s.years| && !s.years[y].open && IsIncome(cfg, a) ::
                EntryNet(e, Through({a}, s.years[y].end)) == 0
  {
    var t := s.(journal := s.journal + [e]);
    forall y: nat, a: int | y < |s.years| && !s.years[y].open && IsIncome(cfg, a)
      ensures Balance(t.journal, Through({a}, t.years[y].end)) == EntryNet(e, Through({a}, s.years[y].end))
    {
      BalanceAppend(s.journal, e, Through({a}, s.years[y].end));
    }
  }

  /** An entry of one unit on an account. */
  function Unit(a: int, date: Date): Entry {
    Entry(date, 0, "", RATE_ONE, [Line(a, 1, 0, 1, 0)], None, false)
  }

  lemma UnitNet(a: int, date: Date, through: Date)
    requires date <= through
    ensures EntryNet(Unit(a, date), Through({a}, through)) == 1
  {
    NetOfOne(Line(a, 1, 0, 1, 0), a, true);
  }

  /** Every open year begins after every closed one has ended. */
  ghost predicate OpenClear(years: seq<Year>) {
    forall y, z | 0 <= y < |years| && 0 <= z < |years| && !years[y].open && years[z].open ::
      years[y].end < years[z].start
  }

  /** No entry dated in an open year can disturb a closed one if and only if every open year begins
      after every closed one has ended. */
  lemma SafeIffClear(cfg: Config, s: State, a: int)
    requires CalendarOk(s) && IsSwept(cfg, s) && IsIncome(cfg, a)
    ensures OpenClear(s.years) <==>
              forall e: Entry | InOpenYear(s.years, e.date) :: IsSwept(cfg, s.(journal := s.journal + [e]))
  {
    if OpenClear(s.years) {
      forall e: Entry | InOpenYear(s.years, e.date) ensures IsSwept(cfg, s.(journal := s.journal + [e])) {
        SweptAfterEntry(cfg, s, e);
      }
    } else {
      var y, z :| 0 <= y < |s.years| && 0 <= z < |s.years| && !s.years[y].open && s.years[z].open
                  && s.years[z].start <= s.years[y].end;
      var e := Unit(a, s.years[z].start);
      assert InYear(s.years[z], e.date);
      SweptAfterEntry(cfg, s, e);
      UnitNet(a, e.date, s.years[y].end);
    }
  }

  ghost predicate YearsOk(cfg: Config, s: State) {
    CalendarOk(s) && ClosedClear(s.years) && IsSwept(cfg, s)
  }

  lemma PostsKeepsSwept(cfg: Config, s: State, t: State)
    requires YearsOk(cfg, s) && Posts(s, t)
    ensures YearsOk(cfg, t)
  {
    PostsKeepsCalendar(s, t);
    hide JournalDated, DistinctStarts, PeriodsOk;
    forall y: nat, a: int | y < |t.years| && !t.years[y].open && IsIncome(cfg, a)
      ensures Balance(t.journal, Through({a}, t.years[y].end)) == 0
    {
      forall i | |s.journal| <= i < |t.journal| ensures EntryNet(t.journal[i], Through({a}, t.years[y].end)) == 0 {
        OpenIsLater(t.years, y, t.journal[i].date);
      }
      BalanceGrows(s.journal, t.journal, Through({a}, t.years[y].end));
    }
  }

  /* ---- rolling forward ---- */

  /** The year a close would add starts and ends clear of every existing year. */
  predicate CleanRoll(years: seq<Year>, end: Date) {
    RollsForward(years, end) ==> forall z | 0 <= z < |years| :: !(end + 1 < years[z].start <= NextYear(end).end)
  }

  /** A year that ends with a month is followed by exactly the next twelve months. */
  lemma NextYearIsTwelveMonths(month: nat)
    requires 0 < month
    ensures var next := NextYear(FirstDay(month) - 1);
            next.start == FirstDay(month) && next.end + 1 == FirstDay(month + 12) && next.open && next.closing.None?
  {
    OneYearOnMonths(month);
  }

  /** Rolling forward checks only the day after the closed year, so the years stay disjoint
      exactly when nothing starts later inside the added one. */
  lemma RollForwardDisjoint(years: seq<Year>, end: Date)
    requires YearsDisjoint(years)
    ensures YearsDisjoint(RollForward(years, end)) <==> CleanRoll(years, end)
  {
    if RollsForward(years, end) {
      var next, after := NextYear(end), RollForward(years, end);
      OneYearOnIsLater(end + 1);
      forall z | 0 <= z < |years| ensures !InYear(years[z], end + 1) && after[z] == years[z] { }
      if YearsDisjoint(after) {
        forall z | 0 <= z < |years| ensures !(end + 1 < years[z].start <= next.end) {
          assert after[z].end < after[|years|].start || after[|years|].end < after[z].start;
        }
      }
    }
  }

  /* ---- closing ---- */

  /** No other year starts inside this one. */
  predicate IsClear(years: seq<Year>, y: nat)
    requires y < |years|
  {
    forall z | 0 <= z < |years| :: !(years[y].start < years[z].start <= years[y].end)
  }

  /** Years that share no day are all clear of each other. */
  lemma DisjointIsClear(years: seq<Year>, y: nat)
    requires YearsDisjoint(years) && y < |years|
    ensures IsClear(years, y)
  {
    forall z | 0 <= z < |years| ensures !(years[y].start < years[z].start <= years[y].end) {
      assert years[z].start <= years[z].end;
    }
  }

  /** A close leaves no year starting inside a closed one if and only if none starts inside the
      year being closed; what it rolls forward to does not matter. */
  lemma CloseYearClear(cfg: Config, s: State, y: nat, retained: int)
    requires CalendarOk(s) && ClosedClear(s.years) && CloseYear(cfg, s, y, retained).Ok?
    ensures ClosedClear(CloseYear(cfg, s, y, retained).value.years) <==> IsClear(s.years, y)
  {
    CloseYearTables(cfg, s, y, retained);
    var t, end := CloseYear(cfg, s, y, retained).value, s.years[y].end;
    hide CloseYear, Sweep, PeriodsOk, JournalDated;
    assert forall z | 0 <= z < |s.years| :: t.years[z].start == s.years[z].start && t.years[z].end == s.years[z].end;
    assert forall z | 0 <= z < |s.years| && z != y :: t.years[z].open == s.years[z].open;
    forall x | 0 <= x < |s.years| && !s.years[x].open ensures s.years[x].end < s.years[y].start {
      assert s.years[x].start < s.years[y].start;
    }
    forall z | |s.years| <= z < |t.years| ensures t.years[z].open && t.years[z].start == end + 1 { }
  }

  /** After the sweep every income account is at zero through the end of the year. */
  lemma SweepZeroes(cfg: Config, s: State, end: Date, retained: int, a: int)
    requires Sweep(cfg, s, end, retained).Ok? && PeriodsOk(s.periods, s.years)
    requires IsIncome(cfg, a) && !IsIncome(cfg, retained)
    ensures Balance(Sweep(cfg, s, end, retained).value.journal, Through({a}, end)) == 0
  {
    SweepTables(cfg, s, end, retained);
    var t := Sweep(cfg, s, end, retained).value;
    var balances := ToSweep(cfg, s.journal, end);
    SweepItemsNet(cfg, s.journal, end, a);
    GroupByPartitions(SweepItems(cfg, s.journal, end));
    if balances != [] {
      ClosingLinesOf(balances, retained, a);
      assert t.journal == s.journal + [t.journal[|s.journal|]];
      BalanceAppend(s.journal, t.journal[|s.journal|], Through({a}, end));
    }
  }

  /** A close leaves the year, and every year closed before it, swept. */
  lemma CloseYearSweeps(cfg: Config, s: State, y: nat, retained: int)
    requires YearsOk(cfg, s) && CloseYear(cfg, s, y, retained).Ok?
    ensures IsSwept(cfg, CloseYear(cfg, s, y, retained).value)
  {
    CloseYearTables(cfg, s, y, retained);
    SweepTables(cfg, s, s.years[y].end, retained);
    var t, end := CloseYear(cfg, s, y, retained).value, s.years[y].end;
    hide CloseYear, Sweep, ClosePeriods, ClosingLines, ToSweep, JournalDated;
    forall x: nat, a: int | x < |t.years| && !t.years[x].open && IsIncome(cfg, a)
      ensures Balance(t.journal, Through({a}, t.years[x].end)) == 0
    {
      assert x < |s.years| && t.years[x].end == s.years[x].end && (x != y ==> !s.years[x].open);
      if x == y {
        SweepZeroes(cfg, s, end, retained, a);
      } else {
        assert s.years[x].start < s.years[y].start;
        assert s.years[x].end < end;
        BalanceGrows(s.journal, t.journal, Through({a}, s.years[x].end));
      }
    }
  }

  /* ---- reopening ---- */

  /** Reopening the latest closed year leaves all others swept. */
  lemma ReopenYearKeeps(cfg: Config, s: State, y: nat)
    requires YearsOk(cfg, s) && ReopenYear(cfg, s, y).Ok?
    ensures YearsOk(cfg, ReopenYear(cfg, s, y).value)
  {
    var years := s.years[y := s.years[y].(open := true, closing := None)];
    var t := ReopenYear(cfg, s, y).value;
    ReopenYearOrder(cfg, s, y);
    match s.years[y].closing
    case None =>
    case Some(i) =>
      var periods := OpenUp(s.periods, years, s.journal[i].period).value;
      YearReopened(s, y, periods);
      var s1 := s.(years := years, periods := periods);
      assert IsSwept(cfg, s1);
      ReverseEntryPosts(cfg, s1, i);
      hide ReopenYear, CalendarOk, Posts, IsSwept;
      PostsKeepsSwept(cfg, s1, t);
  }

  /* ---- every run with clean closes ---- */

  /** Nobody closes a year that another year starts inside of. */
  predicate CleanStep(cfg: Config, s: State, step: Step) {
    step.CloseFiscalYear? && Try(cfg, s, step).Ok? ==> step.year < |s.years| && IsClear(s.years, step.year)
  }

  ghost predicate CleanRun(cfg: Config, steps: seq<Step>) {
    steps == [] ||
    (CleanRun(cfg, steps[..|steps| - 1]) && CleanStep(cfg, Run(cfg, steps[..|steps| - 1]), steps[|steps| - 1]))
  }

  lemma CleanCloseKeeps(cfg: Config, s: State, y: nat, retained: int)
    requires YearsOk(cfg, s) && CloseYear(cfg, s, y, retained).Ok? && IsClear(s.years, y)
    ensures YearsOk(cfg, CloseYear(cfg, s, y, retained).value)
  {
    CloseYearOrder(cfg, s, y, retained);
    CloseYearClear(cfg, s, y, retained);
    CloseYearSweeps(cfg, s, y, retained);
  }

  lemma CalendarStepSweeps(cfg: Config, s: State, step: Step)
    requires YearsOk(cfg, s) && IsCalendarStep(step) && Try(cfg, s, step).Ok? && CleanStep(cfg, s, step)
    ensures YearsOk(cfg, Try(cfg, s, step).value)
  {
    hide CloseYear, ReopenYear, PeriodsOk, DistinctStarts, JournalDated;
    if step.CloseFiscalYear? {
      CleanCloseKeeps(cfg, s, step.year, step.retained);
    } else if step.ReopenFiscalYear? {
      ReopenYearKeeps(cfg, s, step.year);
    } else {
      CalendarStepKeeps(cfg, s, step);
    }
  }

  lemma StepKeeps(cfg: Config, s: State, step: Step)
    requires YearsOk(cfg, s) && CleanStep(cfg, s, step)
    ensures YearsOk(cfg, Next(cfg, s, step))
  {
    hide Try, PeriodsOk, CleanStep;
    if Try(cfg, s, step).Ok? {
      var t := Try(cfg, s, step).value;
      if IsLedgerStep(step) {
        LedgerStepPosts(cfg, s, step);
        PostsKeepsSwept(cfg, s, t);
      } else if IsCalendarStep(step) {
        CalendarStepSweeps(cfg, s, step);
      } else {
        OtherStepFrame(cfg, s, step);
      }
    }
  }

  /** Whatever is posted, unposted, applied, closed and reopened: while nobody closes a year that
      another one starts inside of, every closed year stays swept until it is reopened. */
  lemma {:induction false} EveryRunStaysSwept(cfg: Config, steps: seq<Step>)
    requires CleanRun(cfg, steps)
    ensures YearsOk(cfg, Run(cfg, steps))
  {
    if steps == [] {
      EmptyCalendar();
    } else {
      EveryRunStaysSwept(cfg, steps[..|steps| - 1]);
      hide YearsOk, Try, CleanStep;
      StepKeeps(cfg, Run(cfg, steps[..|steps| - 1]), steps[|steps| - 1]);
    }
  }
}
