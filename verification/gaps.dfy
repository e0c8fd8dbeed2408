/** What a gap between fiscal years can do to a closed one. */
module Gaps {
  import opened Money
  import opened Calendar
  import opened Tables
  import opened Entries
  import opened Periods
  import opened Balances
  import opened Ledger
  import opened YearEnd
  import opened Machine
  import opened Ordering
  import opened Swept
  import opened Shop

  /** A year ends, a day belongs to no year, and the next year is already there. The first year is
      closed, which adds a year from that day on; the added year is closed too, though the second
      starts inside it. Then a sale is posted to the second year. */
  function GapSteps(end: Date): seq<Step> {
    [SetWritable({1, 2, 4}), CreateYear(OtherYear("first"), 0, end),
     CreateYear(OtherYear("second"), end + 2, end + 300),
     CloseFiscalYear(0, 4), CloseFiscalYear(2, 4), CreateDocument(Sale(end + 2, None)), PostDocument(0)]
  }

  function First(end: Date, open: bool): Year { Year(OtherYear("first"), 0, end, open, None) }

  function Second(end: Date): Year { Year(OtherYear("second"), end + 2, end + 300, true, None) }

  /** The tables after the two years are there. */
  function Before(end: Date): State {
    EMPTY.(writable := {1, 2, 4}, years := [First(end, true), Second(end)])
  }

  /** ... after the first is closed. */
  function Rolled(end: Date): State {
    Before(end).(years := [First(end, false), Second(end), NextYear(end)])
  }

  /** ... after the added year is closed. */
  function Exposed(end: Date): State {
    var years := [First(end, false), Second(end), NextYear(end).(open := false)];
    Before(end).(years := RollForward(years, NextYear(end).end))
  }

  lemma NothingToSweep(s: State, end: Date)
    requires s.journal == []
    ensures Sweep(SHOP, s, end, 4) == Ok(s)
  {
    assert SweepItems(SHOP, [], end) == [];
    assert ToSweep(SHOP, [], end) == [];
  }

  lemma YearsCreated(end: Date)
    ensures Run(SHOP, GapSteps(end)[..3]) == Before(end)
  {
    var steps := GapSteps(end);
    var s1 := EMPTY.(writable := {1, 2, 4});
    var s2 := s1.(years := [First(end, true)]);
    assert s1.years + [First(end, true)] == s2.years;
    assert s2.years + [Second(end)] == Before(end).years;
    RunStep(SHOP, steps, 0, EMPTY, s1);
    assert YearInputOk(s1.years, OtherYear("first"), 0, end);
    RunStep(SHOP, steps, 1, s1, s2);
    assert YearInputOk(s2.years, OtherYear("second"), end + 2, end + 300);
    RunStep(SHOP, steps, 2, s2, Before(end));
  }

  lemma FirstCloses(end: Date)
    ensures CloseYear(SHOP, Before(end), 0, 4) == Ok(Rolled(end))
  {
    var s := Before(end);
    NothingToSweep(s, end);
    OneYearOnIsLater(end + 1);
    hide Sweep;
    var years := s.years[0 := s.years[0].(open := false, closing := None)];
    assert years == [First(end, false), Second(end)];
    assert RollForward(years, end) == Rolled(end).years;
    assert ClosePeriods([], 0) == [];
  }

  lemma AddedCloses(end: Date)
    ensures CloseYear(SHOP, Rolled(end), 2, 4) == Ok(Exposed(end))
  {
    var s := Rolled(end);
    NothingToSweep(s, NextYear(end).end);
    hide Sweep, NextYear;
    assert s.years[2].start == end + 1;
    var years := s.years[2 := s.years[2].(open := false, closing := None)];
    assert years == [First(end, false), Second(end), NextYear(end).(open := false)];
    assert ClosePeriods([], 2) == [];
  }

  /** ... with the sale waiting. */
  function Waiting(end: Date): State {
    Exposed(end).(docs := [Some(Sale(end + 2, None))])
  }

  /** The day after the gap lies in the second year, the only open one it lies in. */
  lemma DayHasPeriod(end: Date)
    ensures PeriodForDate([], Exposed(end).years, end + 2)
            == Ok(([MonthPeriod(Exposed(end).years, 1, end + 2)], 0))
  {
    OneYearOnIsLater(end + 1);
    var years := Exposed(end).years;
    assert years[1] == Second(end) && !years[0].open && !years[2].open;
    assert OpenPeriod([], end + 2) == None && !Covered([], end + 2);
    hide NextYear, MonthPeriod;
    assert OpenYear(years, end + 2) == Some(1);
    assert [] + [MonthPeriod(years, 1, end + 2)] == [MonthPeriod(years, 1, end + 2)];
  }

  /** ... after the sale is posted. */
  function Sold(end: Date): State {
    var entry := Entry(end + 2, 0, "USD", RATE_ONE, SALE_LINES, None, false);
    Exposed(end).(journal := [entry], docs := [Some(Sale(end + 2, Some(0)))],
                  periods := [MonthPeriod(Exposed(end).years, 1, end + 2)])
  }

  lemma SaleInsertable()
    ensures Insertable(SHOP, {1, 2, 4}, SALE_LINES)
  {
    assert forall l | l in SALE_LINES :: l == SALE_LINES[0] || l == SALE_LINES[1];
  }

  lemma SalePosts(end: Date)
    ensures PostDoc(SHOP, Waiting(end), 0) == Ok(Sold(end))
  {
    DayHasPeriod(end);
    SaleIsPosted(end + 2, None);
    SaleInsertable();
    var s, d := Waiting(end), Sale(end + 2, None);
    hide DocLines, Total, Postable, RollForward, NextYear, PeriodForDate, MonthPeriod, Insertable, PostDoc;
    DocPosts(s, 0, d, SALE_LINES, Sold(end).periods, 0);
    assert s.journal + Sold(end).journal == Sold(end).journal;
    assert s.docs[0 := Some(d.(entry := Some(0)))] == Sold(end).docs;
  }

  lemma YearsClosed(end: Date)
    ensures Run(SHOP, GapSteps(end)[..5]) == Exposed(end)
  {
    var steps := GapSteps(end);
    YearsCreated(end);
    FirstCloses(end);
    AddedCloses(end);
    hide CloseYear, RollForward, Run, NextYear, Before, Rolled, Exposed;
    RunStep(SHOP, steps, 3, Before(end), Rolled(end));
    RunStep(SHOP, steps, 4, Rolled(end), Exposed(end));
  }

  lemma GapRuns(end: Date)
    ensures Run(SHOP, GapSteps(end)) == Sold(end)
  {
    var steps := GapSteps(end);
    YearsClosed(end);
    SalePosts(end);
    hide PostDoc, RollForward, Run, NextYear, MonthPeriod;
    assert Exposed(end).docs + [Some(Sale(end + 2, None))] == Waiting(end).docs;
    RunStep(SHOP, steps, 5, Exposed(end), Waiting(end));
    RunStep(SHOP, steps, 6, Waiting(end), Sold(end));
    assert steps[..7] == steps;
  }

  /** Whatever day the first year ends on, a closed year is no longer swept: the sale has moved its
      revenue since. */
  lemma GapUnsweeps(end: Date)
    ensures !IsSwept(SHOP, Run(SHOP, GapSteps(end)))
  {
    GapRuns(end);
    OneYearOnIsLater(end + 1);
    hide Run, MonthPeriod;
    var t, q := Sold(end), Through({2}, NextYear(end).end);
    assert NetOf(SALE_LINES, {2}, true) == -100 by {
      NetOfOne(SALE_LINES[0], 2, true);
      NetOfOne(SALE_LINES[1], 2, true);
      NetOfConcat([SALE_LINES[0]], [SALE_LINES[1]], {2}, true);
    }
    assert t.journal[..0] == [] && Balance([], q) == 0;
    assert Balance(t.journal, q) == EntryNet(t.journal[0], q) == -100;
    assert !t.years[2].open && t.years[2].end == NextYear(end).end;
  }
}
