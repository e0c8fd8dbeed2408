/** Accounting periods: which one a date posts into, and when one is made on demand. */
module Periods {
  import opened Money
  import opened Calendar
  import opened Tables

  predicate InPeriod(p: Period, date: Date) { p.start <= date <= p.end }

  predicate InYear(y: Year, date: Date) { y.start <= date <= y.end }

  predicate Overlap(p: Period, q: Period) { p.start <= q.end && q.start <= p.end }

  predicate Covered(periods: seq<Period>, date: Date) {
    exists i | 0 <= i < |periods| :: InPeriod(periods[i], date)
  }

  /** The open period with the lowest id that contains the date. */
  function OpenPeriod(periods: seq<Period>, date: Date): (r: Option<nat>)
    ensures r.Some? ==> r.value < |periods| && periods[r.value].open && InPeriod(periods[r.value], date)
    ensures r.None? ==> forall i | 0 <= i < |periods| :: !(periods[i].open && InPeriod(periods[i], date))
    ensures r.Some? ==> forall i | 0 <= i < r.value :: !(periods[i].open && InPeriod(periods[i], date))
  {
    if periods == [] then None
    else
      var init := periods[..|periods| - 1];
      var last := periods[|periods| - 1];
      match OpenPeriod(init, date)
      case Some(i) => Some(i)
      case None => if last.open && InPeriod(last, date) then Some(|init|) else None
  }

  /** The open fiscal year containing the date that starts first. */
  function OpenYear(years: seq<Year>, date: Date): (r: Option<nat>)
    ensures r.Some? ==> r.value < |years| && years[r.value].open && InYear(years[r.value], date)
    ensures r.None? ==> forall i | 0 <= i < |years| :: !(years[i].open && InYear(years[i], date))
    ensures r.Some? ==> forall i | 0 <= i < |years| && years[i].open && InYear(years[i], date) ::
                          years[r.value].start <= years[i].start
  {
    if years == [] then None
    else
      var init := years[..|years| - 1];
      var last := years[|years| - 1];
      var hit := last.open && InYear(last, date);
      match OpenYear(init, date)
      case Some(i) => if hit && last.start < init[i].start then Some(|init|) else Some(i)
      case None => if hit then Some(|init|) else None
  }

  /** The calendar month containing the date, clipped to the fiscal year's bounds. */
  function MonthPeriod(years: seq<Year>, year: nat, date: Date): Period
    requires year < |years|
  {
    var m := MonthOf(date);
    Period(year, MonthName(m), Max(FirstDay(m), years[year].start), Min(FirstDay(m + 1) - 1, years[year].end), true)
  }

  /** The exclusion constraint on dates, or the unique (year, name) constraint, is in the way. */
  predicate Conflicts(periods: seq<Period>, p: Period) {
    exists i | 0 <= i < |periods| ::
      Overlap(periods[i], p) || (periods[i].year == p.year && periods[i].name == p.name)
  }

  /** The open period for a date, creating its month when nothing covers the date yet. */
  function PeriodForDate(periods: seq<Period>, years: seq<Year>, date: Date): Result<(seq<Period>, nat)> {
    match OpenPeriod(periods, date)
    case Some(i) => Ok((periods, i))
    case None =>
      if Covered(periods, date) then Err(NoOpenPeriod)
      else
        match OpenYear(years, date)
        case None => Err(NoOpenPeriod)
        case Some(y) =>
          var p := MonthPeriod(years, y, date);
          if Conflicts(periods, p) then Err(NoOpenPeriod) else Ok((periods + [p], |periods|))
  }

  /* ---- what the calendar keeps ---- */

  ghost predicate PeriodsDisjoint(periods: seq<Period>) {
    forall i, j | 0 <= i < j < |periods| :: !Overlap(periods[i], periods[j])
  }

  ghost predicate YearsDisjoint(years: seq<Year>) {
    && (forall i | 0 <= i < |years| :: years[i].start <= years[i].end)
    && (forall i, j | 0 <= i < |years| && 0 <= j < |years| && i != j ::
          years[i].end < years[j].start || years[j].end < years[i].start)
  }

  ghost predicate PeriodInYear(p: Period, years: seq<Year>) {
    && p.year < |years|
    && years[p.year].start <= p.start <= p.end <= years[p.year].end
    && (p.open ==> years[p.year].open)
  }

  /** Periods never overlap, lie inside their year, and are open only in an open year. */
  ghost predicate PeriodsOk(periods: seq<Period>, years: seq<Year>) {
    && PeriodsDisjoint(periods)
    && (forall i | 0 <= i < |periods| :: PeriodInYear(periods[i], years))
  }

  /** Posting keeps the calendar in order, and lands in an open period of an open year that
      contains the date. */
  lemma PeriodForDateKeeps(periods: seq<Period>, years: seq<Year>, date: Date)
    requires PeriodsOk(periods, years)
    requires PeriodForDate(periods, years, date).Ok?
    ensures var (after, id) := PeriodForDate(periods, years, date).value;
            && PeriodsOk(after, years)
            && periods <= after
            && id < |after| && after[id].open && InPeriod(after[id], date)
            && after[id].year < |years| && years[after[id].year].open && InYear(years[after[id].year], date)
  {
    var (after, id) := PeriodForDate(periods, years, date).value;
    if OpenPeriod(periods, date).None? {
      var p := after[id];
      assert !Conflicts(periods, p);
      forall i | 0 <= i < |periods| ensures !Overlap(periods[i], p) { }
    } else {
      assert PeriodInYear(periods[id], years);
    }
  }

  /** A date under a closed period is refused and never given a sibling period. */
  lemma ClosedPeriodRefuses(periods: seq<Period>, years: seq<Year>, date: Date, i: nat)
    requires PeriodsOk(periods, years)
    requires i < |periods| && !periods[i].open && InPeriod(periods[i], date)
    ensures PeriodForDate(periods, years, date) == Err(NoOpenPeriod)
  {
    forall j | 0 <= j < |periods| && InPeriod(periods[j], date) ensures j == i {
      assert Overlap(periods[i], periods[j]) && Overlap(periods[j], periods[i]);
    }
  }

  /** Exactly when a date can be posted to. */
  lemma PeriodForDateSucceeds(periods: seq<Period>, years: seq<Year>, date: Date)
    requires PeriodsOk(periods, years) && YearsDisjoint(years)
    ensures PeriodForDate(periods, years, date).Ok? <==>
              || (exists i | 0 <= i < |periods| :: periods[i].open && InPeriod(periods[i], date))
              || (!Covered(periods, date)
                  && exists y | 0 <= y < |years| :: years[y].open && InYear(years[y], date)
                                                    && !Conflicts(periods, MonthPeriod(years, y, date)))
  {
    if OpenPeriod(periods, date).None? && !Covered(periods, date) {
      forall y, z | 0 <= y < |years| && 0 <= z < |years| && InYear(years[y], date) && InYear(years[z], date)
        ensures y == z { }
    }
  }

  /** Every period is the clipped month that posting would make for one of its own dates. */
  ghost predicate AllOnDemand(periods: seq<Period>, years: seq<Year>) {
    forall i | 0 <= i < |periods| :: OnDemand(periods[i], years)
  }

  ghost predicate OnDemand(p: Period, years: seq<Year>) {
    && p.year < |years|
    && exists date: Date {:trigger MonthPeriod(years, p.year, date)} ::
         InYear(years[p.year], date) && p.(open := true) == MonthPeriod(years, p.year, date)
  }

  /** Posting adds only on-demand periods. */
  lemma PeriodForDateOnDemand(periods: seq<Period>, years: seq<Year>, date: Date)
    requires PeriodForDate(periods, years, date).Ok? && AllOnDemand(periods, years)
    ensures AllOnDemand(PeriodForDate(periods, years, date).value.0, years)
  {
    var (after, id) := PeriodForDate(periods, years, date).value;
    if OpenPeriod(periods, date).None? {
      var y := OpenYear(years, date).value;
      assert after == periods + [MonthPeriod(years, y, date)];
      assert OnDemand(MonthPeriod(years, y, date), years);
    }
  }

  /** An on-demand period that shares a day or a name with a date's month contains the date. */
  lemma OnDemandSameMonth(q: Period, years: seq<Year>, y: nat, date: Date)
    requires YearsDisjoint(years) && PeriodInYear(q, years) && OnDemand(q, years)
    requires y < |years| && InYear(years[y], date)
    requires var p := MonthPeriod(years, y, date);
             Overlap(q, p) || (q.year == p.year && q.name == p.name)
    ensures InPeriod(q, date)
  {
    var p := MonthPeriod(years, y, date);
    var d: Date :| InYear(years[q.year], d) && q.(open := true) == MonthPeriod(years, q.year, d);
    if !(q.year == p.year && q.name == p.name) {
      var common := Max(q.start, p.start);
      assert InYear(years[q.year], common) && InYear(years[y], common);
      MonthUnique(MonthOf(d), common);
      MonthUnique(MonthOf(date), common);
    }
  }

  /** With only on-demand periods, every date of an open year posts unless a closed period
      covers it, and the periods stay on-demand. */
  lemma OnDemandComplete(periods: seq<Period>, years: seq<Year>, date: Date, y: nat)
    requires PeriodsOk(periods, years) && YearsDisjoint(years) && AllOnDemand(periods, years)
    requires y < |years| && years[y].open && InYear(years[y], date)
    requires forall i | 0 <= i < |periods| && InPeriod(periods[i], date) :: periods[i].open
    ensures PeriodForDate(periods, years, date).Ok?
  {
    if OpenPeriod(periods, date).None? {
      var z := OpenYear(years, date).value;
      assert z == y;
      var p := MonthPeriod(years, y, date);
      if Conflicts(periods, p) {
        var i :| 0 <= i < |periods| && (Overlap(periods[i], p)
                                        || (periods[i].year == p.year && periods[i].name == p.name));
        OnDemandSameMonth(periods[i], years, y, date);
      }
    }
  }
}
