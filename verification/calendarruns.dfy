/** When nobody makes periods by hand, the calendar never stands in the way of posting. */
module CalendarRuns {
  import opened Calendar
  import opened Tables
  import opened Periods
  import opened Ledger
  import opened YearEnd
  import opened Machine
  import opened Frames
  import opened Ordering

  predicate ByHand(step: Step) { step.CreatePeriod? || step.EditPeriod? }

  /** Opening, closing and re-dating nothing, periods stay the on-demand months they were made as. */
  lemma SameMonths(periods: seq<Period>, years: seq<Year>, after: seq<Period>, later: seq<Year>)
    requires AllOnDemand(periods, years) && |after| == |periods| && |years| <= |later|
    requires forall i | 0 <= i < |periods| :: after[i].(open := true) == periods[i].(open := true)
    requires forall z | 0 <= z < |years| :: later[z].start == years[z].start && later[z].end == years[z].end
    ensures AllOnDemand(after, later)
  {
    forall i | 0 <= i < |after| ensures OnDemand(after[i], later) {
      assert OnDemand(periods[i], years);
      var date: Date :| InYear(years[periods[i].year], date)
        && periods[i].(open := true) == MonthPeriod(years, periods[i].year, date);
      assert MonthPeriod(later, after[i].year, date) == MonthPeriod(years, periods[i].year, date);
    }
  }

  lemma OpenUpSame(periods: seq<Period>, years: seq<Year>, id: nat)
    requires id < |periods| && OpenUp(periods, years, id).Ok? && AllOnDemand(periods, years)
    ensures AllOnDemand(OpenUp(periods, years, id).value, years)
  {
    SameMonths(periods, years, OpenUp(periods, years, id).value, years);
  }

  lemma SweepOnDemand(cfg: Config, s: State, end: Date, retained: int)
    requires Sweep(cfg, s, end, retained).Ok? && AllOnDemand(s.periods, s.years)
    ensures AllOnDemand(Sweep(cfg, s, end, retained).value.periods, s.years)
  {
    if ToSweep(cfg, s.journal, end) != [] {
      match CoveringPeriod(s.periods, end)
      case None => PeriodForDateOnDemand(s.periods, s.years, end);
      case Some(id) => OpenUpSame(s.periods, s.years, id);
    }
  }

  lemma CloseOnDemand(cfg: Config, s: State, y: nat, retained: int)
    requires AllOnDemand(s.periods, s.years) && CloseYear(cfg, s, y, retained).Ok?
    ensures var t := CloseYear(cfg, s, y, retained).value; AllOnDemand(t.periods, t.years)
  {
    CloseYearTables(cfg, s, y, retained);
    SweepOnDemand(cfg, s, s.years[y].end, retained);
    var t := CloseYear(cfg, s, y, retained).value;
    hide CloseYear, Sweep;
    SameMonths(Sweep(cfg, s, s.years[y].end, retained).value.periods, s.years, t.periods, t.years);
  }

  lemma ReopenOnDemand(cfg: Config, s: State, y: nat)
    requires CalendarOk(s) && AllOnDemand(s.periods, s.years) && ReopenYear(cfg, s, y).Ok?
    ensures var t := ReopenYear(cfg, s, y).value; AllOnDemand(t.periods, t.years)
  {
    var years := s.years[y := s.years[y].(open := true, closing := None)];
    SameMonths(s.periods, s.years, s.periods, years);
    match s.years[y].closing
    case None =>
    case Some(i) =>
      var periods := OpenUp(s.periods, years, s.journal[i].period).value;
      OpenUpSame(s.periods, years, s.journal[i].period);
      YearReopened(s, y, periods);
      ReverseEntryPosts(cfg, s.(years := years, periods := periods), i);
  }

  lemma StepOnDemand(cfg: Config, s: State, step: Step)
    requires CalendarOk(s) && AllOnDemand(s.periods, s.years) && Try(cfg, s, step).Ok? && !ByHand(step)
    ensures var t := Try(cfg, s, step).value; AllOnDemand(t.periods, t.years)
  {
    var t := Try(cfg, s, step).value;
    hide AllOnDemand, CloseYear, ReopenYear;
    if IsLedgerStep(step) {
      LedgerStepPosts(cfg, s, step);
    } else if step.CloseFiscalYear? {
      CloseOnDemand(cfg, s, step.year, step.retained);
    } else if step.ReopenFiscalYear? {
      ReopenOnDemand(cfg, s, step.year);
    } else if step.CreateYear? {
      SameMonths(s.periods, s.years, t.periods, t.years);
    } else {
      OtherStepFrame(cfg, s, step);
    }
  }

  lemma {:induction false} EveryRunOnDemand(cfg: Config, steps: seq<Step>)
    requires forall step | step in steps :: !ByHand(step)
    ensures AllOnDemand(Run(cfg, steps).periods, Run(cfg, steps).years)
  {
    if steps != [] {
      var init, last := steps[..|steps| - 1], steps[|steps| - 1];
      assert forall step | step in init :: step in steps;
      assert last in steps;
      EveryRunOnDemand(cfg, init);
      EveryRunOrdered(cfg, init);
      var s := Run(cfg, init);
      hide Try, AllOnDemand, CalendarOk;
      if Try(cfg, s, last).Ok? {
        StepOnDemand(cfg, s, last);
      }
    }
  }

  /** Exactly when a date can be posted to, if every period was made on demand and no two years
      share a day: some open year contains it and no closed period does. */
  lemma PostableDates(cfg: Config, steps: seq<Step>, date: Date)
    requires YearsDisjoint(Run(cfg, steps).years) && forall step | step in steps :: !ByHand(step)
    ensures var s := Run(cfg, steps);
            PeriodForDate(s.periods, s.years, date).Ok? <==>
              && InOpenYear(s.years, date)
              && forall i | 0 <= i < |s.periods| && InPeriod(s.periods[i], date) :: s.periods[i].open
  {
    EveryRunOnDemand(cfg, steps);
    EveryRunOrdered(cfg, steps);
    hide Run;
    DatesOf(Run(cfg, steps), date);
  }

  lemma DatesOf(s: State, date: Date)
    requires CalendarOk(s) && YearsDisjoint(s.years) && AllOnDemand(s.periods, s.years)
    ensures PeriodForDate(s.periods, s.years, date).Ok? <==>
              && InOpenYear(s.years, date)
              && forall i | 0 <= i < |s.periods| && InPeriod(s.periods[i], date) :: s.periods[i].open
  {
    if PeriodForDate(s.periods, s.years, date).Ok? {
      PeriodForDateKeeps(s.periods, s.years, date);
      var (after, id) := PeriodForDate(s.periods, s.years, date).value;
      assert InOpenYear(s.years, date);
      forall i | 0 <= i < |s.periods| && InPeriod(s.periods[i], date) ensures s.periods[i].open {
        if !s.periods[i].open { ClosedPeriodRefuses(s.periods, s.years, date, i); }
      }
    } else if InOpenYear(s.years, date)
           && forall i | 0 <= i < |s.periods| && InPeriod(s.periods[i], date) :: s.periods[i].open {
      var y :| 0 <= y < |s.years| && s.years[y].open && InYear(s.years[y], date);
      OnDemandComplete(s.periods, s.years, date, y);
    }
  }
}
