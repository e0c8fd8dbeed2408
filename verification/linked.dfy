/** What stock movements and closed years link, and what follows for the income of a year. */
module Linked {
  import opened Money
  import opened Sums
  import opened Calendar
  import opened Tables
  import opened Entries
  import opened Periods
  import opened Balances
  import opened Ledger
  import opened Settlement
  import opened YearEnd
  import opened Machine
  import opened Frames
  import opened LiveEntries
  import opened Subledger
  import opened Ordering
  import opened Swept
  import LiveRuns
  import Unposting

  /** A posted movement moves its cost between the item's accounts, in base currency, on its date. */
  ghost predicate MoveOk(cfg: Config, s: State, id: nat) {
    HasMove(s, id) && s.moves[id].value.entry.Some? ==>
      var m := s.moves[id].value;
      && m.entry.value < |s.journal| && m.cost != 0
      && var e := s.journal[m.entry.value];
         && e.date == m.date && e.currency == cfg.base && e.rate == RATE_ONE && !e.isClosing
         && exists debit: int, credit: int ::
              && e.lines == TransferLines(debit, credit, Abs(m.cost))
              && (m.kind == Issue ==> m.cogs == Some(debit) && m.inventory == Some(credit))
              && (m.kind == Receipt ==> m.inventory == Some(debit))
  }

  /** A closed year's entry is a closing entry on its last day, in base currency: it takes away what
      every income account held at that moment and gives the sum to an equity account. */
  ghost predicate YearOk(cfg: Config, s: State, y: nat) {
    y < |s.years| && s.years[y].closing.Some? ==>
      var i := s.years[y].closing.value;
      && !s.years[y].open && i < |s.journal|
      && ClosingOk(cfg, s.journal[..i], s.journal[i], s.years[y].end)
      && IncomeOrEquity(cfg, s.journal[i].lines)
  }

  /** The entry sweeps what came before it. */
  ghost predicate ClosingOk(cfg: Config, before: seq<Entry>, e: Entry, end: Date) {
    && e.isClosing && e.date == end && e.currency == cfg.base && e.rate == RATE_ONE
    && exists retained: int ::
         && retained in cfg.chart && cfg.chart[retained].kind == Equity
         && e.lines == ClosingLines(ToSweep(cfg, before, end), retained)
  }

  predicate IncomeOrEquity(cfg: Config, lines: seq<Line>) {
    forall l | l in lines ::
      IsIncome(cfg, l.account) || (l.account in cfg.chart && cfg.chart[l.account].kind == Equity)
  }

  ghost predicate LinkedOk(cfg: Config, s: State) {
    (forall id: nat :: MoveOk(cfg, s, id)) && (forall y: nat :: YearOk(cfg, s, y))
  }

  /** A year row that stays keeps its entry, and the journal before it. */
  lemma YearStays(cfg: Config, s: State, t: State, y: nat)
    requires YearOk(cfg, s, y) && s.journal <= t.journal
    requires y < |t.years| && (t.years[y].closing.None? || (y < |s.years| && t.years[y] == s.years[y]))
    ensures YearOk(cfg, t, y)
  {
    if t.years[y].closing.Some? {
      var i := t.years[y].closing.value;
      assert t.journal[..i] == s.journal[..i];
    }
    hide ClosingOk, IncomeOrEquity;
  }

  lemma MovesSame(cfg: Config, s: State, t: State)
    requires LinkedOk(cfg, s) && s.journal <= t.journal && t.moves == s.moves && t.years == s.years
    ensures LinkedOk(cfg, t)
  {
    hide YearOk;
    forall id: nat ensures MoveOk(cfg, t, id) { assert MoveOk(cfg, s, id); }
    YearsStay(cfg, s, t);
  }

  lemma YearsStay(cfg: Config, s: State, t: State)
    requires LinkedOk(cfg, s) && s.journal <= t.journal
    requires forall y | 0 <= y < |t.years| ::
               t.years[y].closing.None? || (y < |s.years| && t.years[y] == s.years[y])
    ensures forall y: nat :: YearOk(cfg, t, y)
  {
    forall y: nat ensures YearOk(cfg, t, y) {
      assert YearOk(cfg, s, y);
      if y < |t.years| { YearStays(cfg, s, t, y); } else { PastTheEnd(cfg, t, y); }
    }
  }

  /** One movement row changes. */
  lemma MoveChanges(cfg: Config, s: State, t: State, id: nat)
    requires LinkedOk(cfg, s) && s.journal <= t.journal && t.years == s.years
    requires forall i: nat | i != id && i < |t.moves| :: i < |s.moves| && t.moves[i] == s.moves[i]
    requires MoveOk(cfg, t, id)
    ensures LinkedOk(cfg, t)
  {
    hide YearOk;
    forall i: nat ensures MoveOk(cfg, t, i) { assert MoveOk(cfg, s, i); }
    YearsStay(cfg, s, t);
  }

  /** A posted movement's entry: an issue moves its cost from inventory to cost of goods, a receipt
      from the clearing account the caller named to inventory. */
  lemma PostMoveOk(cfg: Config, s: State, id: nat, credit: Option<int>)
    requires PostMove(cfg, s, id, credit).Ok?
    ensures var t := PostMove(cfg, s, id, credit).value;
            && HasMove(s, id) && s.journal <= t.journal && |t.journal| == |s.journal| + 1
            && t.moves == s.moves[id := Some(s.moves[id].value.(entry := Some(|s.journal|)))]
            && MoveOk(cfg, t, id)
            && var m, lines := s.moves[id].value, t.journal[|s.journal|].lines;
               && (m.kind == Issue ==> m.cogs.Some? && m.inventory.Some?
                                       && lines == TransferLines(m.cogs.value, m.inventory.value, Abs(m.cost)))
               && (m.kind == Receipt ==> m.inventory.Some? && credit.Some?
                                         && lines == TransferLines(m.inventory.value, credit.value, Abs(m.cost)))
  {
    var m := s.moves[id].value;
    var (debit, other) := MoveAccounts(s, m, credit).value;
    assert PostMove(cfg, s, id, credit).value.journal[|s.journal|].lines == TransferLines(debit, other, Abs(m.cost));
  }

  lemma MoveStepKeeps(cfg: Config, s: State, step: Step)
    requires LinkedOk(cfg, s) && Try(cfg, s, step).Ok?
    requires step.CreateMovement? || step.EditMovement? || step.DeleteMovement? || step.PostMovement?
             || step.UnpostMovement?
    ensures LinkedOk(cfg, Try(cfg, s, step).value)
  {
    var t := Try(cfg, s, step).value;
    hide LinkedOk;
    match step
    case CreateMovement(_) => MoveChanges(cfg, s, t, |s.moves|);
    case PostMovement(id, credit) =>
      PostMoveOk(cfg, s, id, credit);
      MoveChanges(cfg, s, t, id);
    case EditMovement(id, _) => MoveChanges(cfg, s, t, id);
    case DeleteMovement(id) => MoveChanges(cfg, s, t, id);
    case UnpostMovement(id) => MoveChanges(cfg, s, t, id);
  }

  lemma {:induction false} SweepLinesFrom(balances: seq<Item>)
    ensures forall l | l in SweepLines(balances) :: exists g :: g in balances && g.account == l.account
  {
    if balances != [] {
      SweepLinesFrom(balances[1..]);
      forall l | l in SweepLines(balances) ensures exists g :: g in balances && g.account == l.account {
        if l in SweepLines(balances[1..]) {
          var g :| g in balances[1..] && g.account == l.account;
          assert g in balances;
        } else {
          assert balances[0] in balances && balances[0].account == l.account;
        }
      }
    }
  }

  lemma ClosingAccounts(cfg: Config, journal: seq<Entry>, end: Date, retained: int)
    requires retained in cfg.chart && cfg.chart[retained].kind == Equity
    ensures IncomeOrEquity(cfg, ClosingLines(ToSweep(cfg, journal, end), retained))
  {
    var balances := ToSweep(cfg, journal, end);
    SweepLinesFrom(balances);
    GroupByPartitions(SweepItems(cfg, journal, end));
    forall g | g in balances ensures IsIncome(cfg, g.account) {
      if !IsIncome(cfg, g.account) { NotSwept(cfg, journal, end, g.account); }
    }
  }

  /** The year a close links its entry to. */
  lemma ClosedYearOk(cfg: Config, s: State, y: nat, retained: int)
    requires CloseYear(cfg, s, y, retained).Ok?
    ensures YearOk(cfg, CloseYear(cfg, s, y, retained).value, y)
  {
    var t, end := CloseYear(cfg, s, y, retained).value, s.years[y].end;
    LiveRuns.SweepFacts(cfg, s, end, retained);
    hide Sweep, ToSweep, ClosingLines, ClosePeriods;
    ClosingAccounts(cfg, s.journal, end, retained);
    if t.years[y].closing.Some? {
      assert t.journal[..|s.journal|] == s.journal;
      hide CloseYear, IncomeOrEquity;
    }
  }

  lemma CloseYearLinks(cfg: Config, s: State, y: nat, retained: int)
    requires LinkedOk(cfg, s) && CloseYear(cfg, s, y, retained).Ok?
    ensures LinkedOk(cfg, CloseYear(cfg, s, y, retained).value)
  {
    var t := CloseYear(cfg, s, y, retained).value;
    LiveRuns.SweepFacts(cfg, s, s.years[y].end, retained);
    ClosedYearOk(cfg, s, y, retained);
    hide ClosingLines, ToSweep, YearOk;
    forall id: nat ensures MoveOk(cfg, t, id) { assert MoveOk(cfg, s, id); }
    forall x: nat ensures YearOk(cfg, t, x) {
      assert YearOk(cfg, s, x);
      if x < |t.years| && x != y { YearStays(cfg, s, t, x); }
      if |t.years| <= x { PastTheEnd(cfg, t, x); }
    }
  }

  lemma PastTheEnd(cfg: Config, s: State, y: nat)
    requires |s.years| <= y
    ensures YearOk(cfg, s, y)
  {
  }

  lemma ReopenYearLinks(cfg: Config, s: State, y: nat)
    requires LinkedOk(cfg, s) && ReopenYear(cfg, s, y).Ok?
    ensures LinkedOk(cfg, ReopenYear(cfg, s, y).value)
  {
    var t := ReopenYear(cfg, s, y).value;
    assert s.journal <= t.journal && t.moves == s.moves;
    assert t.years == s.years[y := s.years[y].(open := true, closing := None)];
    hide ReopenYear, YearOk;
    forall id: nat ensures MoveOk(cfg, t, id) { assert MoveOk(cfg, s, id); }
    YearsStay(cfg, s, t);
  }

  lemma YearAddedLinks(cfg: Config, s: State, year: Year)
    requires LinkedOk(cfg, s) && year.closing.None?
    ensures LinkedOk(cfg, s.(years := s.years + [year]))
  {
    var t := s.(years := s.years + [year]);
    hide YearOk;
    forall id: nat ensures MoveOk(cfg, t, id) { assert MoveOk(cfg, s, id); }
    YearsStay(cfg, s, t);
  }

  predicate IsMoveStep(step: Step) {
    step.CreateMovement? || step.EditMovement? || step.DeleteMovement? || step.PostMovement? || step.UnpostMovement?
  }

  /** Steps that touch neither movements nor years. */
  lemma OtherStepFrame(cfg: Config, s: State, step: Step)
    requires Try(cfg, s, step).Ok? && !IsMoveStep(step)
    requires !step.CloseFiscalYear? && !step.ReopenFiscalYear? && !step.CreateYear?
    ensures var t := Try(cfg, s, step).value;
            s.journal <= t.journal && t.moves == s.moves && t.years == s.years
  {
    if IsBankStep(step) {
      BankStepFrame(cfg, s, step);
    } else if step.ApplyDocument? || step.UnpostDocument? {
      DocStepMoves(cfg, s, step);
    }
  }

  lemma ApplyMoves(cfg: Config, s: State, id: nat)
    requires AutoApply(cfg, s, id).Ok?
    ensures var t := AutoApply(cfg, s, id).value;
            s.journal <= t.journal && t.moves == s.moves && t.years == s.years
  {
    var s1 := WithRows(s, id).value;
    var list := Candidates(s1, id, |s1.docs|);
    hide InsertApps, Candidates, Amounts, Charges;
    if list != [] {
      PostFxFrame(cfg, s1, id, list, s1.fxAccount.value);
    }
  }

  lemma DocStepMoves(cfg: Config, s: State, step: Step)
    requires Try(cfg, s, step).Ok? && (step.ApplyDocument? || step.UnpostDocument?)
    ensures var t := Try(cfg, s, step).value;
            s.journal <= t.journal && t.moves == s.moves && t.years == s.years
  {
    hide AutoApply, UnpostDoc;
    match step
    case ApplyDocument(id) => ApplyMoves(cfg, s, id);
    case UnpostDocument(id) => Unposting.UnpostDocTables(cfg, s, id);
  }

  lemma StepKeeps(cfg: Config, s: State, step: Step)
    requires LinkedOk(cfg, s) && Try(cfg, s, step).Ok?
    ensures LinkedOk(cfg, Try(cfg, s, step).value)
  {
    hide LinkedOk, CloseYear, ReopenYear;
    if step.CloseFiscalYear? {
      CloseYearLinks(cfg, s, step.year, step.retained);
    } else if step.ReopenFiscalYear? {
      ReopenYearLinks(cfg, s, step.year);
    } else if step.CreateYear? {
      YearAddedLinks(cfg, s, Year(step.name, step.start, step.end, true, None));
    } else if IsMoveStep(step) {
      MoveStepKeeps(cfg, s, step);
    } else {
      OtherStepFrame(cfg, s, step);
      MovesSame(cfg, s, Try(cfg, s, step).value);
    }
  }

  lemma EmptyLinked(cfg: Config)
    ensures LinkedOk(cfg, EMPTY)
  {
  }

  /** Posted movements and closed years link what posting and closing them writes, in every
      reachable state. */
  lemma {:induction false} EveryRunLinked(cfg: Config, steps: seq<Step>)
    ensures LinkedOk(cfg, Run(cfg, steps))
  {
    if steps == [] {
      EmptyLinked(cfg);
    } else {
      EveryRunLinked(cfg, steps[..|steps| - 1]);
      var s, step := Run(cfg, steps[..|steps| - 1]), steps[|steps| - 1];
      hide LinkedOk, Try;
      if Try(cfg, s, step).Ok? {
        StepKeeps(cfg, s, step);
      }
    }
  }

  /* ---- the income of a year ---- */

  /** The profit-and-loss query: activity in a date range, closing entries left out. */
  function Activity(accounts: set<int>, from: Option<Date>, to: Option<Date>): Query {
    Query(accounts, from, to, None, Some(false), true)
  }

  /** Everything the ledger's invariants say at once. */
  ghost predicate AllOk(cfg: Config, s: State) {
    LiveRuns.RunOk(cfg, s) && SubledgerOk(cfg, s) && LinkedOk(cfg, s) && YearsOk(cfg, s)
  }

  lemma EveryRunOk(cfg: Config, steps: seq<Step>)
    requires CleanRun(cfg, steps)
    ensures AllOk(cfg, Run(cfg, steps))
  {
    hide Run, YearsOk, LinkedOk, SubledgerOk, LiveRuns.RunOk;
    LiveRuns.EveryRunAgrees(cfg, steps);
    Unposting.EveryRunKeepsSubledger(cfg, steps);
    EveryRunLinked(cfg, steps);
    EveryRunStaysSwept(cfg, steps);
  }

  /** Only closed years link closing entries. */
  lemma OnlyYearsClose(cfg: Config, s: State, o: Owner)
    requires SubledgerOk(cfg, s) && LinkedOk(cfg, s)
    requires LinkOf(s, o).Some? && LinkOf(s, o).value < |s.journal|
    ensures s.journal[LinkOf(s, o).value].isClosing <==> o.OfYear?
  {
    hide DocLines, FxLines, TransferLines;
    match o
    case OfDoc(id) => assert DocOk(cfg, s, id);
    case OfMove(id) => assert MoveOk(cfg, s, id);
    case OfApp(k, c) => assert RowOk(s, k, c) && FxOk(cfg, s, k, c);
    case OfYear(id) => assert YearOk(cfg, s, id);
  }

  /** A year that is open has no closing entry in force, so within its dates closing entries and
      their reversals cancel. */
  lemma NoClosingInOpenYear(cfg: Config, s: State, y: nat, accounts: set<int>)
    requires AllOk(cfg, s) && y < |s.years| && s.years[y].open
    ensures Balance(s.journal, Query(accounts, Some(s.years[y].start), Some(s.years[y].end), None, Some(true), true))
            == 0
  {
    var q := Query(accounts, Some(s.years[y].start), Some(s.years[y].end), None, Some(true), true);
    forall o: Owner ensures Part(s, o, q) == 0 {
      NoClosingPart(cfg, s, y, q, o);
    }
    SumToZero(|s.docs|, (i: nat) => Part(s, OfDoc(i), q));
    SumToZero(|s.moves|, (i: nat) => Part(s, OfMove(i), q));
    SumToZero(|s.years|, (i: nat) => Part(s, OfYear(i), q));
    forall k: nat ensures AppRow(s, q, |s.docs|, k) == 0 {
      SumToZero(|s.docs|, (c: nat) => Part(s, OfApp(k, c), q));
    }
    SumToZero(|s.docs|, (k: nat) => AppRow(s, q, |s.docs|, k));
    assert Balance(s.journal, q) == Live(s, q);
  }

  lemma NoClosingPart(cfg: Config, s: State, y: nat, q: Query, o: Owner)
    requires AllOk(cfg, s) && y < |s.years| && s.years[y].open
    requires q.from == Some(s.years[y].start) && q.to == Some(s.years[y].end) && q.closing == Some(true)
    ensures Part(s, o, q) == 0
  {
    if LinkOf(s, o).Some? && LinkOf(s, o).value < |s.journal| {
      OnlyYearsClose(cfg, s, o);
      if o.OfYear? {
        assert YearOk(cfg, s, o.id);
        EndElsewhere(s.years, o.id, y);
      }
    }
  }

  lemma EndElsewhere(years: seq<Year>, x: nat, y: nat)
    requires DistinctStarts(years) && ClosedFirst(years) && ClosedClear(years)
    requires x < |years| && y < |years| && !years[x].open && years[y].open
    ensures !InYear(years[y], years[x].end)
  {
  }

  /** The year before the given one, if any starts earlier. */
  function YearBefore(years: seq<Year>, start: Date): (r: Option<nat>)
    ensures r.Some? ==> r.value < |years| && years[r.value].start < start
    ensures r.Some? ==> forall z | 0 <= z < |years| && years[z].start < start :: years[z].start <= years[r.value].start
    ensures r.None? ==> forall z | 0 <= z < |years| :: start <= years[z].start
  {
    if years == [] then None
    else
      var n := |years| - 1;
      match YearBefore(years[..n], start)
      case None => if years[n].start < start then Some(n) else None
      case Some(z) => if years[n].start < start && years[z].start < years[n].start then Some(n) else Some(z)
  }

  /** Before an open year whose predecessors are closed, income accounts stand at zero. */
  lemma NothingBefore(cfg: Config, s: State, y: nat, a: int)
    requires YearsOk(cfg, s) && y < |s.years| && s.years[y].open && !PriorOpen(s.years, y) && IsIncome(cfg, a)
    ensures Balance(s.journal, Query({a}, None, Some(s.years[y].end), None, None, true))
            == Balance(s.journal, Query({a}, Some(s.years[y].start), Some(s.years[y].end), None, None, true))
  {
    var whole, year := Through({a}, s.years[y].end),
      Query({a}, Some(s.years[y].start), Some(s.years[y].end), None, None, true);
    match YearBefore(s.years, s.years[y].start)
    case None =>
      forall e | e in s.journal ensures EntryNet(e, whole) == EntryNet(e, year) {
        EntryAfter(s, e, 0, s.years[y].start);
      }
      BalanceSame(s.journal, whole, year);
    case Some(x) =>
      var before := Through({a}, s.years[x].end);
      assert !s.years[x].open;
      assert s.years[x].end < s.years[y].start;
      forall e | e in s.journal ensures EntryNet(e, whole) == EntryNet(e, before) + EntryNet(e, year) {
        EntryAfter(s, e, s.years[x].end + 1, s.years[y].start);
      }
      BalanceSplit(s.journal, whole, before, year);
  }

  /** No entry is dated in a gap between years. */
  lemma EntryAfter(s: State, e: Entry, from: Date, start: Date)
    requires JournalDated(s) && e in s.journal
    requires forall z | 0 <= z < |s.years| :: s.years[z].end < from || start <= s.years[z].start
    ensures e.date < from || start <= e.date
  {
    var i :| 0 <= i < |s.journal| && s.journal[i] == e;
    assert YearCovers(s.years, s.journal[i].date);
  }

  /** Closing an account's year takes away exactly that year's own activity. */
  lemma SweptAmount(cfg: Config, s: State, y: nat, a: int)
    requires AllOk(cfg, s) && y < |s.years| && s.years[y].open && !PriorOpen(s.years, y) && IsIncome(cfg, a)
    ensures Balance(s.journal, Through({a}, s.years[y].end))
            == Balance(s.journal, Activity({a}, Some(s.years[y].start), Some(s.years[y].end)))
  {
    var from, to := Some(s.years[y].start), Some(s.years[y].end);
    NothingBefore(cfg, s, y, a);
    NoClosingInOpenYear(cfg, s, y, {a});
    forall e | e in s.journal
      ensures EntryNet(e, Query({a}, from, to, None, None, true))
              == EntryNet(e, Activity({a}, from, to)) + EntryNet(e, Query({a}, from, to, None, Some(true), true)) { }
    BalanceSplit(s.journal, Query({a}, from, to, None, None, true), Activity({a}, from, to),
                 Query({a}, from, to, None, Some(true), true));
  }

  /* ---- the sweep as a whole ---- */

  /** Closing a year leaves every income account at zero through its end, having swept exactly
      the year's own activity, and adds exactly the year's net income to retained earnings. */
  lemma CloseMovesNetIncome(cfg: Config, steps: seq<Step>, y: nat, retained: int)
    requires CleanRun(cfg, steps) && CloseYear(cfg, Run(cfg, steps), y, retained).Ok?
    ensures var s := Run(cfg, steps);
            var t := CloseYear(cfg, s, y, retained).value;
            && y < |s.years|
            && var from, to := Some(s.years[y].start), Some(s.years[y].end);
               && (forall a | IsIncome(cfg, a) ::
                     && Balance(s.journal, Through({a}, s.years[y].end)) == Balance(s.journal, Activity({a}, from, to))
                     && Balance(t.journal, Through({a}, s.years[y].end)) == 0)
               && Balance(t.journal, Through({retained}, s.years[y].end))
                  == Balance(s.journal, Through({retained}, s.years[y].end))
                     + Balance(s.journal, Activity(IncomeAccounts(cfg), from, to))
  {
    EveryRunOk(cfg, steps);
    hide Run;
    CloseIncome(cfg, Run(cfg, steps), y, retained);
  }

  lemma CloseIncome(cfg: Config, s: State, y: nat, retained: int)
    requires AllOk(cfg, s) && CloseYear(cfg, s, y, retained).Ok?
    ensures var t := CloseYear(cfg, s, y, retained).value;
            && y < |s.years|
            && var from, to := Some(s.years[y].start), Some(s.years[y].end);
               && (forall a | IsIncome(cfg, a) ::
                     && Balance(s.journal, Through({a}, s.years[y].end)) == Balance(s.journal, Activity({a}, from, to))
                     && Balance(t.journal, Through({a}, s.years[y].end)) == 0)
               && Balance(t.journal, Through({retained}, s.years[y].end))
                  == Balance(s.journal, Through({retained}, s.years[y].end))
                     + Balance(s.journal, Activity(IncomeAccounts(cfg), from, to))
  {
    CloseYearTables(cfg, s, y, retained);
    var t, end := CloseYear(cfg, s, y, retained).value, s.years[y].end;
    hide CloseYear, Sweep, AllOk;
    IncomeParts(cfg, s);
    forall a | IsIncome(cfg, a)
      ensures Balance(s.journal, Through({a}, end))
              == Balance(s.journal, Activity({a}, Some(s.years[y].start), Some(end)))
      ensures Balance(t.journal, Through({a}, end)) == 0
    {
      SweptAmount(cfg, s, y, a);
      SweepZeroes(cfg, s, end, retained, a);
    }
    SweepCredits(cfg, s, end, retained);
    AllIncome(cfg, s, y, IncomeAccounts(cfg));
  }

  lemma IncomeParts(cfg: Config, s: State)
    requires AllOk(cfg, s)
    ensures PeriodsOk(s.periods, s.years)
  {
  }

  /** Retained earnings take in what the income accounts held. */
  lemma SweepCredits(cfg: Config, s: State, end: Date, retained: int)
    requires Sweep(cfg, s, end, retained).Ok? && PeriodsOk(s.periods, s.years) && !IsIncome(cfg, retained)
    ensures Balance(Sweep(cfg, s, end, retained).value.journal, Through({retained}, end))
            == Balance(s.journal, Through({retained}, end)) + Balance(s.journal, Through(IncomeAccounts(cfg), end))
  {
    SweepTables(cfg, s, end, retained);
    var t, balances := Sweep(cfg, s, end, retained).value, ToSweep(cfg, s.journal, end);
    SweepItemsNet(cfg, s.journal, end, retained);
    GroupByPartitions(SweepItems(cfg, s.journal, end));
    NotSwept(cfg, s.journal, end, retained);
    if balances != [] {
      ClosingLinesOf(balances, retained, retained);
      assert t.journal == s.journal + [t.journal[|s.journal|]];
      BalanceAppend(s.journal, t.journal[|s.journal|], Through({retained}, end));
    }
  }

  lemma {:induction false} NotIncome(cfg: Config, lines: seq<Line>, a: int)
    requires !IsIncome(cfg, a)
    ensures AmountFor(IncomeItems(cfg, lines), a) == 0
  {
    if lines != [] {
      NotIncome(cfg, lines[1..], a);
      var it := Item(lines[0].account, Net(lines[0], true));
      assert ([it] + IncomeItems(cfg, lines[1..]))[1..] == IncomeItems(cfg, lines[1..]);
    }
  }

  lemma {:induction false} NotSwept(cfg: Config, journal: seq<Entry>, date: Date, a: int)
    requires !IsIncome(cfg, a)
    ensures AmountFor(SweepItems(cfg, journal, date), a) == 0
  {
    if journal != [] {
      var init, last := journal[..|journal| - 1], journal[|journal| - 1];
      NotSwept(cfg, init, date, a);
      NotIncome(cfg, last.lines, a);
      ItemsConcat(SweepItems(cfg, init, date), if last.date <= date then IncomeItems(cfg, last.lines) else [], a);
    }
  }

  /** Account by account, then all of them together. */
  lemma {:induction false} AllIncome(cfg: Config, s: State, y: nat, accounts: set<int>)
    requires y < |s.years| && accounts <= IncomeAccounts(cfg)
    requires forall a | IsIncome(cfg, a) ::
               Balance(s.journal, Through({a}, s.years[y].end))
               == Balance(s.journal, Activity({a}, Some(s.years[y].start), Some(s.years[y].end)))
    ensures Balance(s.journal, Through(accounts, s.years[y].end))
            == Balance(s.journal, Activity(accounts, Some(s.years[y].start), Some(s.years[y].end)))
    decreases |accounts|
  {
    var whole, year := Through(accounts, s.years[y].end),
      Activity(accounts, Some(s.years[y].start), Some(s.years[y].end));
    if accounts == {} {
      forall e | e in s.journal ensures EntryNet(e, whole) == 0 && EntryNet(e, year) == 0 {
        NetOfNothing(e.lines, {}, true);
      }
      BalanceZero(s.journal, whole);
      BalanceZero(s.journal, year);
    } else {
      var a :| a in accounts;
      var rest := accounts - {a};
      assert accounts == rest + {a};
      AllIncome(cfg, s, y, rest);
      BalanceUnion(s.journal, whole, rest, {a});
      BalanceUnion(s.journal, year, rest, {a});
    }
  }
}
