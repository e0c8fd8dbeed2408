/** The calendar over every run: closed years come before open ones, periods never overlap and lie
    inside their years, and everything posted is dated inside an open year. */
module Ordering {
  import opened Money
  import opened Calendar
  import opened Tables
  import opened Entries
  import opened Periods
  import opened Ledger
  import opened Settlement
  import opened YearEnd
  import opened Machine
  import opened Frames

  /** Years run forwards and no two begin on the same day. */
  ghost predicate DistinctStarts(years: seq<Year>) {
    && (forall y | 0 <= y < |years| :: years[y].start <= years[y].end)
    && (forall y, z | 0 <= y < |years| && 0 <= z < |years| && y != z :: years[y].start != years[z].start)
  }

  /** No open year starts before a closed one. */
  ghost predicate ClosedFirst(years: seq<Year>) {
    forall y, z | 0 <= y < |years| && 0 <= z < |years| && !years[y].open && years[z].open ::
      years[y].start < years[z].start
  }

  /** Every entry is dated inside some fiscal year. */
  ghost predicate JournalDated(s: State) {
    forall i | 0 <= i < |s.journal| :: YearCovers(s.years, s.journal[i].date)
  }

  ghost predicate CalendarOk(s: State) {
    DistinctStarts(s.years) && ClosedFirst(s.years) && PeriodsOk(s.periods, s.years) && JournalDated(s)
  }

  /* ---- posting ---- */

  ghost predicate InOpenYear(years: seq<Year>, date: Date) {
    exists z | 0 <= z < |years| :: years[z].open && InYear(years[z], date)
  }

  /** Entries are only added, each dated in an open year, periods stay in order, and none but
      on-demand months is added. */
  ghost predicate Posts(s: State, t: State) {
    && s.journal <= t.journal && t.years == s.years && PeriodsOk(t.periods, t.years)
    && (AllOnDemand(s.periods, s.years) ==> AllOnDemand(t.periods, t.years))
    && forall i | |s.journal| <= i < |t.journal| :: InOpenYear(t.years, t.journal[i].date)
  }

  lemma AddEntryPosts(cfg: Config, s: State, e: Entry)
    requires PeriodsOk(s.periods, s.years) && AddEntry(cfg, s, e).Ok?
    ensures Posts(s, AddEntry(cfg, s, e).value)
  {
    PeriodForDateKeeps(s.periods, s.years, e.date);
    if AllOnDemand(s.periods, s.years) {
      PeriodForDateOnDemand(s.periods, s.years, e.date);
    }
  }

  lemma ReverseEntryPosts(cfg: Config, s: State, i: nat)
    requires PeriodsOk(s.periods, s.years) && ReverseEntry(cfg, s, i).Ok?
    ensures Posts(s, ReverseEntry(cfg, s, i).value)
  {
    var e := s.journal[i];
    AddEntryPosts(cfg, s, e.(lines := Mirror(e.lines), reverses := Some(i)));
  }

  lemma PostsChain(s: State, t: State, u: State)
    requires Posts(s, t) && Posts(t, u)
    ensures Posts(s, u)
  {
    forall i | |s.journal| <= i < |u.journal| ensures InOpenYear(u.years, u.journal[i].date) {
      if i < |t.journal| { assert u.journal[i] == t.journal[i]; }
    }
  }

  /** Posts only looks at the journal, the periods and the years. */
  lemma PostsFrame(s: State, s1: State, t: State, t1: State)
    requires Posts(s1, t1)
    requires s.journal == s1.journal && s.years == s1.years && s.periods == s1.periods
    requires t.journal == t1.journal && t.years == t1.years && t.periods == t1.periods
    ensures Posts(s, t)
  {
  }

  lemma {:induction false} ReverseAllPosts(cfg: Config, s: State, entries: seq<nat>)
    requires PeriodsOk(s.periods, s.years) && ReverseAll(cfg, s, entries).Ok?
    ensures Posts(s, ReverseAll(cfg, s, entries).value)
  {
    if entries != [] {
      var rest := entries[..|entries| - 1];
      ReverseAllPosts(cfg, s, rest);
      var s1 := ReverseAll(cfg, s, rest).value;
      ReverseEntryPosts(cfg, s1, entries[|entries| - 1]);
      PostsChain(s, s1, ReverseAll(cfg, s, entries).value);
    }
  }

  lemma PostOneFxPosts(cfg: Config, s: State, settler: nat, c: nat, fx: int)
    requires PeriodsOk(s.periods, s.years) && PostOneFx(cfg, s, settler, c, fx).Ok?
    ensures Posts(s, PostOneFx(cfg, s, settler, c, fx).value)
  {
    var d := s.docs[settler].value;
    var rate := EntryRate(cfg, s, cfg.base, d.date).value;
    AddEntryPosts(cfg, s, Entry(d.date, 0, cfg.base, rate, FxLines(Control(cfg, d).value, fx, FxValue(s, settler, c)),
                                None, false));
  }

  lemma {:induction false} PostFxPosts(cfg: Config, s: State, settler: nat, charges: seq<nat>, fx: int)
    requires PeriodsOk(s.periods, s.years) && PostFx(cfg, s, settler, charges, fx).Ok?
    ensures Posts(s, PostFx(cfg, s, settler, charges, fx).value)
  {
    if charges != [] {
      var rest := charges[..|charges| - 1];
      PostFxPosts(cfg, s, settler, rest, fx);
      var s1 := PostFx(cfg, s, settler, rest, fx).value;
      PostOneFxPosts(cfg, s1, settler, charges[|charges| - 1], fx);
      PostsChain(s, s1, PostFx(cfg, s, settler, charges, fx).value);
    }
  }

  lemma UnpostDocPosts(cfg: Config, s: State, id: nat)
    requires PeriodsOk(s.periods, s.years) && UnpostDoc(cfg, s, id).Ok?
    ensures Posts(s, UnpostDoc(cfg, s, id).value)
  {
    var d, t := s.docs[id].value, UnpostDoc(cfg, s, id).value;
    ReverseEntryPosts(cfg, s, d.entry.value);
    var s1 := ReverseEntry(cfg, s, d.entry.value).value;
    if IsPayment(d.kind) {
      var list := FxEntries(s.apps, id, |s.docs|);
      ReverseAllPosts(cfg, s1, list);
      PostsChain(s, s1, ReverseAll(cfg, s1, list).value);
      PostsFrame(s, s, t, ReverseAll(cfg, s1, list).value);
    }
  }

  lemma AutoApplyPosts(cfg: Config, s: State, id: nat)
    requires PeriodsOk(s.periods, s.years) && AutoApply(cfg, s, id).Ok?
    ensures Posts(s, AutoApply(cfg, s, id).value)
  {
    var s1 := WithRows(s, id).value;
    var list := Candidates(s1, id, |s1.docs|);
    if list != [] {
      PostFxPosts(cfg, s1, id, list, s1.fxAccount.value);
    }
  }

  lemma PostDocPosts(cfg: Config, s: State, id: nat)
    requires PeriodsOk(s.periods, s.years) && PostDoc(cfg, s, id).Ok?
    ensures Posts(s, PostDoc(cfg, s, id).value)
  {
    var d := s.docs[id].value;
    var rate := EntryRate(cfg, s, d.currency, d.date).value;
    AddEntryPosts(cfg, s, Entry(d.date, 0, d.currency, rate, DocLines(Control(cfg, d).value, d, rate), None, false));
  }

  lemma PostMovePosts(cfg: Config, s: State, id: nat, credit: Option<int>)
    requires PeriodsOk(s.periods, s.years) && PostMove(cfg, s, id, credit).Ok?
    ensures Posts(s, PostMove(cfg, s, id, credit).value)
  {
    var m := s.moves[id].value;
    var (debit, other) := MoveAccounts(s, m, credit).value;
    var rate := EntryRate(cfg, s, cfg.base, m.date).value;
    AddEntryPosts(cfg, s, Entry(m.date, 0, cfg.base, rate, TransferLines(debit, other, Abs(m.cost)), None, false));
  }

  /** Creating, editing and deleting drafts posts nothing. */
  lemma DraftStepPosts(cfg: Config, s: State, step: Step)
    requires PeriodsOk(s.periods, s.years) && IsLedgerStep(step) && Try(cfg, s, step).Ok?
    requires !step.PostDocument? && !step.ApplyDocument? && !step.UnpostDocument?
    requires !step.PostMovement? && !step.UnpostMovement?
    ensures Posts(s, Try(cfg, s, step).value)
  {
    hide PeriodsOk, DocInputOk, MoveInputOk;
  }

  lemma MoveStepPosts(cfg: Config, s: State, step: Step)
    requires PeriodsOk(s.periods, s.years) && Try(cfg, s, step).Ok?
    requires step.PostMovement? || step.UnpostMovement?
    ensures Posts(s, Try(cfg, s, step).value)
  {
    hide PostMove, PeriodsOk, ReverseEntry;
    if step.PostMovement? {
      PostMovePosts(cfg, s, step.id, step.credit);
    } else {
      ReverseEntryPosts(cfg, s, s.moves[step.id].value.entry.value);
    }
  }

  /** Every subledger step posts into open years only. */
  lemma LedgerStepPosts(cfg: Config, s: State, step: Step)
    requires PeriodsOk(s.periods, s.years) && IsLedgerStep(step) && Try(cfg, s, step).Ok?
    ensures Posts(s, Try(cfg, s, step).value)
  {
    hide PostDoc, AutoApply, UnpostDoc, PeriodsOk, Posts;
    if step.PostDocument? {
      PostDocPosts(cfg, s, step.id);
    } else if step.ApplyDocument? {
      AutoApplyPosts(cfg, s, step.id);
    } else if step.UnpostDocument? {
      UnpostDocPosts(cfg, s, step.id);
    } else {
      hide Try;
      if step.PostMovement? || step.UnpostMovement? {
        MoveStepPosts(cfg, s, step);
      } else {
        DraftStepPosts(cfg, s, step);
      }
    }
  }

  /** Growing the journal inside open years and keeping every year's dates keeps entries dated. */
  lemma DatedGrows(s: State, t: State)
    requires JournalDated(s) && s.journal <= t.journal && |s.years| <= |t.years|
    requires forall z | 0 <= z < |s.years| :: t.years[z].start == s.years[z].start && t.years[z].end == s.years[z].end
    requires forall i | |s.journal| <= i < |t.journal| :: YearCovers(t.years, t.journal[i].date)
    ensures JournalDated(t)
  {
    forall i | 0 <= i < |t.journal| ensures YearCovers(t.years, t.journal[i].date) {
      if i < |s.journal| {
        assert YearCovers(s.years, s.journal[i].date);
        var z :| 0 <= z < |s.years| && InYear(s.years[z], s.journal[i].date);
        assert InYear(t.years[z], t.journal[i].date);
      }
    }
  }

  lemma PostsDated(s: State, t: State)
    requires JournalDated(s) && Posts(s, t)
    ensures JournalDated(t)
  {
    forall i | |s.journal| <= i < |t.journal| ensures YearCovers(t.years, t.journal[i].date) {
      assert InOpenYear(t.years, t.journal[i].date);
    }
    DatedGrows(s, t);
  }

  lemma PostsKeepsCalendar(s: State, t: State)
    requires CalendarOk(s) && Posts(s, t)
    ensures CalendarOk(t)
  {
    PostsDated(s, t);
  }

  /* ---- closing ---- */

  lemma OpenUpKeeps(periods: seq<Period>, years: seq<Year>, id: nat)
    requires PeriodsOk(periods, years) && id < |periods| && OpenUp(periods, years, id).Ok?
    ensures PeriodsOk(OpenUp(periods, years, id).value, years)
    ensures |OpenUp(periods, years, id).value| == |periods|
  {
    var after := OpenUp(periods, years, id).value;
    forall i | 0 <= i < |after| ensures PeriodInYear(after[i], years) {
      assert PeriodInYear(periods[i], years);
    }
    forall i, j | 0 <= i < j < |after| ensures !Overlap(after[i], after[j]) {
      assert !Overlap(periods[i], periods[j]);
    }
  }

  lemma ClosingPeriodKeeps(periods: seq<Period>, years: seq<Year>, date: Date)
    requires PeriodsOk(periods, years) && ClosingPeriod(periods, years, date).Ok?
    ensures PeriodsOk(ClosingPeriod(periods, years, date).value.0, years)
  {
    match CoveringPeriod(periods, date)
    case None => PeriodForDateKeeps(periods, years, date);
    case Some(id) => OpenUpKeeps(periods, years, id);
  }

  lemma ClosePeriodsKeeps(periods: seq<Period>, years: seq<Year>, y: nat, after: seq<Year>)
    requires PeriodsOk(periods, years) && |years| <= |after|
    requires forall z | 0 <= z < |years| :: after[z].start == years[z].start && after[z].end == years[z].end
    requires forall z | 0 <= z < |years| && z != y :: after[z].open == years[z].open
    ensures PeriodsOk(ClosePeriods(periods, y), after)
  {
    var closed := ClosePeriods(periods, y);
    forall i | 0 <= i < |closed| ensures PeriodInYear(closed[i], after) {
      assert PeriodInYear(periods[i], years);
    }
    forall i, j | 0 <= i < j < |closed| ensures !Overlap(closed[i], closed[j]) {
      assert !Overlap(periods[i], periods[j]);
    }
  }

  /** What a close does to each table. */
  lemma CloseYearTables(cfg: Config, s: State, y: nat, retained: int)
    requires CloseYear(cfg, s, y, retained).Ok?
    ensures var t := CloseYear(cfg, s, y, retained).value;
            && y < |s.years| && s.years[y].open && !PriorOpen(s.years, y) && !IsIncome(cfg, retained)
            && Sweep(cfg, s, s.years[y].end, retained).Ok?
            && var s1 := Sweep(cfg, s, s.years[y].end, retained).value;
               && t == s1.(periods := ClosePeriods(s1.periods, y), years := t.years)
               && exists closing ::
                    t.years == RollForward(s.years[y := s.years[y].(open := false, closing := closing)], s.years[y].end)
  {
    var s1 := Sweep(cfg, s, s.years[y].end, retained).value;
    var closing := if |s1.journal| == |s.journal| then None else Some(|s.journal|);
    assert CloseYear(cfg, s, y, retained).value.years
           == RollForward(s.years[y := s.years[y].(open := false, closing := closing)], s.years[y].end);
  }

  lemma SweepTables(cfg: Config, s: State, end: Date, retained: int)
    requires Sweep(cfg, s, end, retained).Ok? && PeriodsOk(s.periods, s.years)
    ensures var t := Sweep(cfg, s, end, retained).value;
            var balances := ToSweep(cfg, s.journal, end);
            && PeriodsOk(t.periods, s.years) && t == s.(journal := t.journal, periods := t.periods)
            && if balances == [] then t.journal == s.journal
               else
                 && |t.journal| == |s.journal| + 1 && s.journal <= t.journal
                 && var e := t.journal[|s.journal|];
                    e.lines == ClosingLines(balances, retained) && e.date == end && e.isClosing
  {
    if ToSweep(cfg, s.journal, end) != [] {
      ClosingPeriodKeeps(s.periods, s.years, end);
    }
  }

  /** The closed year is the last of the closed ones, and the year it rolls forward to begins
      later than all of them, on a day no year has. */
  lemma RollForwardOrder(years: seq<Year>, y: nat, closing: Option<nat>)
    requires DistinctStarts(years) && ClosedFirst(years) && y < |years| && years[y].open && !PriorOpen(years, y)
    ensures var after := RollForward(years[y := years[y].(open := false, closing := closing)], years[y].end);
            DistinctStarts(after) && ClosedFirst(after)
  {
    var closed := years[y := years[y].(open := false, closing := closing)];
    var end := years[y].end;
    OneYearOnIsLater(end + 1);
    if RollsForward(closed, end) {
      forall z | 0 <= z < |closed| ensures closed[z].start != end + 1 {
        assert !InYear(closed[z], end + 1);
      }
    }
  }

  lemma CloseYearOrder(cfg: Config, s: State, y: nat, retained: int)
    requires CalendarOk(s) && CloseYear(cfg, s, y, retained).Ok?
    ensures CalendarOk(CloseYear(cfg, s, y, retained).value)
  {
    CloseYearTables(cfg, s, y, retained);
    SweepTables(cfg, s, s.years[y].end, retained);
    var t, s1 := CloseYear(cfg, s, y, retained).value, Sweep(cfg, s, s.years[y].end, retained).value;
    hide CloseYear, Sweep, ClosePeriods, PeriodsOk, ClosingLines, ToSweep, PriorOpen, CalendarOk;
    YearClosed(s, s1, t, y);
  }

  lemma YearClosed(s: State, s1: State, t: State, y: nat)
    requires CalendarOk(s) && y < |s.years| && s.years[y].open && !PriorOpen(s.years, y)
    requires PeriodsOk(s1.periods, s.years) && s.journal <= s1.journal
    requires forall i | |s.journal| <= i < |s1.journal| :: s1.journal[i].date == s.years[y].end
    requires t.journal == s1.journal && t.periods == ClosePeriods(s1.periods, y)
    requires exists closing ::
               t.years == RollForward(s.years[y := s.years[y].(open := false, closing := closing)], s.years[y].end)
    ensures CalendarOk(t)
  {
    hide ClosePeriods, PeriodsOk, ClosedFirst, DistinctStarts, NextYear, RollsForward, PriorOpen;
    var closing :| t.years == RollForward(s.years[y := s.years[y].(open := false, closing := closing)], s.years[y].end);
    RollForwardOrder(s.years, y, closing);
    ClosePeriodsKeeps(s1.periods, s.years, y, t.years);
    assert InYear(t.years[y], s.years[y].end);
    DatedGrows(s, t);
  }

  /* ---- reopening ---- */

  lemma YearReopened(s: State, y: nat, periods: seq<Period>)
    requires CalendarOk(s) && y < |s.years| && !s.years[y].open && !LaterClosed(s.years, y)
    requires var years := s.years[y := s.years[y].(open := true, closing := None)];
             periods == s.periods || exists id: nat :: id < |s.periods| && OpenUp(s.periods, years, id) == Ok(periods)
    ensures CalendarOk(s.(years := s.years[y := s.years[y].(open := true, closing := None)], periods := periods))
  {
    var years := s.years[y := s.years[y].(open := true, closing := None)];
    assert PeriodsOk(s.periods, years) by {
      forall i | 0 <= i < |s.periods| ensures PeriodInYear(s.periods[i], years) {
        assert PeriodInYear(s.periods[i], s.years);
      }
    }
    if periods != s.periods {
      var id: nat :| id < |s.periods| && OpenUp(s.periods, years, id) == Ok(periods);
      OpenUpKeeps(s.periods, years, id);
    }
    DatedGrows(s, s.(years := years, periods := periods));
  }

  lemma ReopenYearOrder(cfg: Config, s: State, y: nat)
    requires CalendarOk(s) && ReopenYear(cfg, s, y).Ok?
    ensures CalendarOk(ReopenYear(cfg, s, y).value)
  {
    var years := s.years[y := s.years[y].(open := true, closing := None)];
    match s.years[y].closing
    case None => YearReopened(s, y, s.periods);
    case Some(i) =>
      var periods := OpenUp(s.periods, years, s.journal[i].period).value;
      YearReopened(s, y, periods);
      var s1 := s.(years := years, periods := periods);
      ReverseEntryPosts(cfg, s1, i);
      PostsKeepsCalendar(s1, ReopenYear(cfg, s, y).value);
  }

  /* ---- every run ---- */

  lemma PeriodInputKeeps(periods: seq<Period>, years: seq<Year>, id: nat, p: Period)
    requires PeriodsOk(periods, years) && id <= |periods|
    requires id < |periods| ==> PeriodInputOk(periods[..id] + periods[id + 1..], years, p)
    requires id == |periods| ==> PeriodInputOk(periods, years, p)
    ensures PeriodsOk(if id < |periods| then periods[id := p] else periods + [p], years)
  {
    var others := if id < |periods| then periods[..id] + periods[id + 1..] else periods;
    var after := if id < |periods| then periods[id := p] else periods + [p];
    forall i | 0 <= i < |after| && i != id ensures after[i] == periods[i] && !Overlap(after[i], p) {
      assert others[if i < id then i else i - 1] == periods[i];
    }
    forall i, j | 0 <= i < j < |after| ensures !Overlap(after[i], after[j]) {
      if i == id { assert !Overlap(after[j], p); } else if j != id { assert !Overlap(periods[i], periods[j]); }
    }
    forall i | 0 <= i < |after| ensures PeriodInYear(after[i], years) {
      if i != id { assert PeriodInYear(periods[i], years); }
    }
  }

  lemma YearAdded(s: State, name: YearName, start: Date, end: Date)
    requires CalendarOk(s) && YearInputOk(s.years, name, start, end)
    ensures CalendarOk(s.(years := s.years + [Year(name, start, end, true, None)]))
  {
    var years := s.years + [Year(name, start, end, true, None)];
    forall i | 0 <= i < |s.periods| ensures PeriodInYear(s.periods[i], years) {
      assert PeriodInYear(s.periods[i], s.years);
    }
    DatedGrows(s, s.(years := years));
  }

  lemma CalendarStepKeeps(cfg: Config, s: State, step: Step)
    requires CalendarOk(s) && IsCalendarStep(step) && Try(cfg, s, step).Ok?
    ensures CalendarOk(Try(cfg, s, step).value)
  {
    hide CloseYear, ReopenYear, PeriodsOk, DistinctStarts, ClosedFirst;
    match step
    case CloseFiscalYear(y, retained) => CloseYearOrder(cfg, s, y, retained);
    case ReopenFiscalYear(y) => ReopenYearOrder(cfg, s, y);
    case CreateYear(name, start, end) => YearAdded(s, name, start, end);
    case CreatePeriod(period) => PeriodInputKeeps(s.periods, s.years, |s.periods|, period);
    case EditPeriod(id, period) => PeriodInputKeeps(s.periods, s.years, id, period);
  }

  /** Steps outside journal and calendar. */
  lemma OtherStepFrame(cfg: Config, s: State, step: Step)
    requires Try(cfg, s, step).Ok? && !IsLedgerStep(step) && !IsCalendarStep(step)
    ensures var t := Try(cfg, s, step).value;
            t.journal == s.journal && t.periods == s.periods && t.years == s.years
  {
    if IsBankStep(step) {
      BankStepFrame(cfg, s, step);
    }
  }

  lemma CalendarKept(cfg: Config, s: State, step: Step)
    requires CalendarOk(s)
    ensures CalendarOk(Next(cfg, s, step))
  {
    hide Try, PeriodsOk, DistinctStarts, ClosedFirst;
    if Try(cfg, s, step).Ok? {
      var t := Try(cfg, s, step).value;
      if IsLedgerStep(step) {
        LedgerStepPosts(cfg, s, step);
        PostsKeepsCalendar(s, t);
      } else if IsCalendarStep(step) {
        CalendarStepKeeps(cfg, s, step);
      } else {
        OtherStepFrame(cfg, s, step);
      }
    }
  }

  lemma EmptyCalendar()
    ensures CalendarOk(EMPTY)
  {
  }

  /** In every run at all: no open year starts before a closed one, no two years start together,
      periods are disjoint, inside their years and open only in open ones, and every entry is dated
      inside some year. */
  lemma {:induction false} EveryRunOrdered(cfg: Config, steps: seq<Step>)
    ensures CalendarOk(Run(cfg, steps))
  {
    if steps == [] {
      EmptyCalendar();
    } else {
      EveryRunOrdered(cfg, steps[..|steps| - 1]);
      hide CalendarOk, Next;
      CalendarKept(cfg, Run(cfg, steps[..|steps| - 1]), steps[|steps| - 1]);
    }
  }
}
