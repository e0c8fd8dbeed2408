/** Where applying again falls short of its promise: a settler cannot top up a charge it has
    already paid into. */
module TopUps {
  import opened Money
  import opened Sums
  import opened Calendar
  import opened Tables
  import opened Entries
  import opened Periods
  import opened Ledger
  import opened Settlement
  import opened Machine
  import opened Subledger
  import opened Unposting
  import opened Shop
  import Applying

  /** Two settlers share a charge, the only one they can go to, and the second has money left. */
  ghost predicate SharedCharge(cfg: Config, s: State, other: nat, id: nat, c: nat) {
    && SubledgerOk(cfg, s) && IsPosted(s, other) && IsPosted(s, id) && other != id
    && IsPayment(s.docs[other].value.kind) && !IsCharge(s.docs[id].value.kind)
    && (other, c) in s.apps && (id, c) in s.apps && 0 < Remaining(s, id)
    && forall x: nat :: Matches(s, id, x) ==> x == c
  }

  lemma RoomReopens(cfg: Config, s: State, other: nat, id: nat, c: nat)
    requires SharedCharge(cfg, s, other, id, c) && UnpostDoc(cfg, s, other).Ok?
    ensures var t := UnpostDoc(cfg, s, other).value;
            IsOpen(t, id, c) && 0 < Remaining(t, id) && (id, c) in t.apps
            && forall x: nat | IsOpen(t, id, x) :: x == c
  {
    var t := UnpostDoc(cfg, s, other).value;
    UnpostDocTables(cfg, s, other);
    hide UnpostDoc;
    assert RowOk(s, other, c) && RowOk(s, id, c) && CapOk(s, c);
    DropSettlerSums(s.apps, other, |s.docs|, c);
    DropSettlerSums(s.apps, other, |s.docs|, id);
    hide SubledgerOk, Settled, Applied;
    forall x: nat | IsOpen(t, id, x) ensures x == c {
      assert Matches(s, id, x);
    }
  }

  /** Unposting the first payment reopens part of the charge, but the second settler cannot have
      it: the database refuses a second row for the same pair, so applying it again fails although
      it has money left and the charge can take it. */
  lemma TopUpAfterUnpost(cfg: Config, s: State, other: nat, id: nat, c: nat)
    requires SharedCharge(cfg, s, other, id, c) && UnpostDoc(cfg, s, other).Ok?
    ensures var t := UnpostDoc(cfg, s, other).value;
            && IsOpen(t, id, c) && 0 < Remaining(t, id)
            && AutoApply(cfg, t, id) == Err(ConstraintViolation)
  {
    var t := UnpostDoc(cfg, s, other).value;
    RoomReopens(cfg, s, other, id, c);
    UnpostDocKeeps(cfg, s, other);
    hide UnpostDoc, AutoApply, SubledgerOk, Available, Remaining;
    assert c in Charges(t, id);
    Applying.TopUpRefused(cfg, t, id);
  }

  /* ---- a run where this happens ---- */

  /** A sale of 100 and two payments of 60, posted and then applied in turn. */
  function Steps(): seq<Step> {
    [SetWritable({1, 2, 3}), CreateYear(OtherYear("one"), 0, 364),
     CreatePeriod(Period(0, OtherName("all"), 0, 364, true)),
     CreateDocument(Sale(0, None)), CreateDocument(Paid(60, None)), CreateDocument(Paid(60, None)),
     PostDocument(0), PostDocument(1), PostDocument(2), ApplyDocument(1), ApplyDocument(2)]
  }

  const YEARS: seq<Year> := [Year(OtherYear("one"), 0, 364, true, None)]

  const PERIODS: seq<Period> := [Period(0, OtherName("all"), 0, 364, true)]

  const JOURNAL: seq<Entry> :=
    [Entry(0, 0, "USD", RATE_ONE, SALE_LINES, None, false), Entry(0, 0, "USD", RATE_ONE, PaidLines(60), None, false),
     Entry(0, 0, "USD", RATE_ONE, PaidLines(60), None, false)]

  function Link(n: nat, id: nat): Option<nat> { if id < n then Some(id) else None }

  /** The tables once the documents below n are posted, with these applications. */
  function Books(n: nat, apps: map<(nat, nat), App>): State
    requires n <= 3
  {
    State(JOURNAL[..n], PERIODS, YEARS,
          [Some(Sale(0, Link(n, 0))), Some(Paid(60, Link(n, 1))), Some(Paid(60, Link(n, 2)))],
          [], apps, [], [], map[], None, {1, 2, 3})
  }

  lemma CalendarMade()
    ensures Run(SHOP, Steps()[..3]) == EMPTY.(writable := {1, 2, 3}, years := YEARS, periods := PERIODS)
  {
    var s1 := EMPTY.(writable := {1, 2, 3});
    var s2 := s1.(years := YEARS);
    assert s1.years + YEARS == YEARS && s2.periods + PERIODS == PERIODS;
    assert YearInputOk(s1.years, OtherYear("one"), 0, 364) && PeriodInputOk(s2.periods, s2.years, PERIODS[0]);
    hide YearInputOk, PeriodInputOk;
    RunStep(SHOP, Steps(), 0, EMPTY, s1);
    hide Run;
    RunStep(SHOP, Steps(), 1, s1, s2);
    RunStep(SHOP, Steps(), 2, s2, s2.(periods := PERIODS));
  }

  lemma DocsMade()
    ensures Run(SHOP, Steps()[..6]) == Books(0, map[])
  {
    CalendarMade();
    hide Run;
    var s := EMPTY.(writable := {1, 2, 3}, years := YEARS, periods := PERIODS);
    var sale, paid := Some(Sale(0, None)), Some(Paid(60, None));
    var s1, s2 := s.(docs := [sale]), s.(docs := [sale, paid]);
    assert s.docs + [sale] == s1.docs && s1.docs + [paid] == s2.docs && s2.docs + [paid] == Books(0, map[]).docs;
    RunStep(SHOP, Steps(), 3, s, s1);
    RunStep(SHOP, Steps(), 4, s1, s2);
    RunStep(SHOP, Steps(), 5, s2, Books(0, map[]));
  }

  lemma PeriodIsThere()
    ensures PeriodForDate(PERIODS, YEARS, 0) == Ok((PERIODS, 0))
  {
    assert PERIODS[..0] == [] && OpenPeriod([], 0) == None;
    assert OpenPeriod(PERIODS, 0) == Some(0);
  }

  lemma LinesInsertable(amount: int)
    requires 0 < amount
    ensures Insertable(SHOP, {1, 2, 3}, SALE_LINES) && Insertable(SHOP, {1, 2, 3}, PaidLines(amount))
    ensures Insertable(SHOP, {1, 2, 3}, Mirror(PaidLines(amount)))
  {
    var lines := PaidLines(amount);
    assert forall l | l in SALE_LINES :: l == SALE_LINES[0] || l == SALE_LINES[1];
    assert forall l | l in lines :: l == lines[0] || l == lines[1];
    assert forall l | l in Mirror(lines) :: l == Mirror(lines)[0] || l == Mirror(lines)[1];
  }

  /** The document to post next, and the lines it will have. */
  lemma NextDoc(n: nat, d: Doc)
    requires n < 3 && Books(n, map[]).docs[n] == Some(d)
    ensures d.entry.None? && d.currency == "USD" && ArSide(d.kind) && d.party == 0 && d.date == 0 && Postable(d)
    ensures DocLines(1, d, RATE_ONE) == JOURNAL[n].lines && Insertable(SHOP, {1, 2, 3}, JOURNAL[n].lines)
  {
    LinesInsertable(60);
    SaleIsPosted(0, None);
    PaidIsPosted(60, None);
    hide DocLines, Total, Postable, Insertable;
  }

  lemma NextPosts(n: nat)
    requires n < 3
    ensures PostDoc(SHOP, Books(n, map[]), n) == Ok(Books(n + 1, map[]))
  {
    var s, t := Books(n, map[]), Books(n + 1, map[]);
    var d := s.docs[n].value;
    PeriodIsThere();
    NextDoc(n, d);
    hide DocLines, Postable, PeriodForDate, Insertable, PostDoc, PaidLines;
    DocPosts(s, n, d, JOURNAL[n].lines, PERIODS, 0);
    assert s.journal + [JOURNAL[n]] == t.journal;
    assert s.docs[n := Some(d.(entry := Some(n)))] == t.docs;
  }

  lemma {:induction false} DocsPosted(n: nat)
    requires n <= 3
    ensures Run(SHOP, Steps()[..n + 6]) == Books(n, map[])
  {
    if n == 0 {
      DocsMade();
    } else {
      DocsPosted(n - 1);
      NextPosts(n - 1);
      hide Run, PostDoc, Books;
      assert Steps()[n + 5] == PostDocument(n - 1);
      RunStep(SHOP, Steps(), n + 5, Books(n - 1, map[]), Books(n, map[]));
    }
  }

  /** The sums over three documents, of which only the first is a charge. */
  lemma ThreeSums(apps: map<(nat, nat), App>, id: nat)
    requires forall key | key in apps :: key.1 == 0
    ensures Settled(apps, 3, 0) == Amount(apps, 0, 0) + Amount(apps, 1, 0) + Amount(apps, 2, 0)
    ensures Applied(apps, 3, id) == Amount(apps, id, 0)
  {
    var to, from := (k: nat) => Amount(apps, k, 0), (c: nat) => Amount(apps, id, c);
    assert SumTo(1, to) == to(0) && SumTo(2, to) == to(0) + to(1) && SumTo(3, to) == to(0) + to(1) + to(2);
    assert SumTo(1, from) == from(0) && SumTo(2, from) == from(0) + from(1)
           && SumTo(3, from) == from(0) + from(1) + from(2);
  }

  lemma OneCharge(apps: map<(nat, nat), App>, id: nat)
    requires id == 1 || id == 2
    requires 0 < Available(Books(3, apps), 0)
    ensures Charges(Books(3, apps), id) == [0]
    ensures Amounts(Books(3, apps), id) == [Min(Available(Books(3, apps), 0), Max(Remaining(Books(3, apps), id), 0))]
  {
    var s := Books(3, apps);
    hide Available, Remaining;
    assert IsOpen(s, id, 0) && !IsOpen(s, id, 1) && !IsOpen(s, id, 2);
    assert OpenCharges(s, id, 1) == InsertByDate(s, [], 0) == [0];
    assert OpenCharges(s, id, 2) == OpenCharges(s, id, 3) == [0];
    var availables := Availables(s, [0]);
    assert availables[..0] == [];
  }

  lemma NothingToBook(apps: map<(nat, nat), App>, id: nat)
    ensures PostSettlementFx(SHOP, Books(3, apps), id) == Ok(Books(3, apps))
  {
    var s := Books(3, apps);
    forall c: nat ensures !IsCandidate(s, id, c) { }
    assert forall c: nat :: c !in Candidates(s, id, |s.docs|);
  }

  lemma RowGoesIn(apps: map<(nat, nat), App>, id: nat, amount: int)
    requires (id == 1 || id == 2) && (id, 0) !in apps
    requires 0 < Available(Books(3, apps), 0)
    requires 0 < amount == Min(Available(Books(3, apps), 0), Max(Remaining(Books(3, apps), id), 0))
    ensures WithRows(Books(3, apps), id) == Ok(Books(3, apps[(id, 0) := App(amount, None)]))
  {
    OneCharge(apps, id);
    hide Charges, Amounts, Available, Remaining;
    assert [0][..0] == [] && [amount][..0] == [];
    assert InsertApps(apps, id, [], []) == Ok(apps);
  }

  /** Applying a payment of 60 takes what it can of the sale. */
  lemma Applies(apps: map<(nat, nat), App>, id: nat, amount: int)
    requires (id == 1 || id == 2) && (id, 0) !in apps && forall key | key in apps :: key.1 == 0
    requires 0 < amount == Min(100 - Amount(apps, 0, 0) - Amount(apps, 1, 0) - Amount(apps, 2, 0), 60)
    ensures AutoApply(SHOP, Books(3, apps), id) == Ok(Books(3, apps[(id, 0) := App(amount, None)]))
  {
    ThreeSums(apps, id);
    SaleIsPosted(0, Some(0));
    hide Applied, Settled, Amount;
    RowGoesIn(apps, id, amount);
    NothingToBook(apps[(id, 0) := App(amount, None)], id);
    hide WithRows, PostSettlementFx;
  }

  lemma RunApplies(steps: seq<Step>, k: nat, apps: map<(nat, nat), App>, id: nat, amount: int)
    requires (id == 1 || id == 2) && (id, 0) !in apps && forall key | key in apps :: key.1 == 0
    requires 0 < amount == Min(100 - Amount(apps, 0, 0) - Amount(apps, 1, 0) - Amount(apps, 2, 0), 60)
    requires k < |steps| && steps[k] == ApplyDocument(id) && Run(SHOP, steps[..k]) == Books(3, apps)
    ensures Run(SHOP, steps[..k + 1]) == Books(3, apps[(id, 0) := App(amount, None)])
  {
    Applies(apps, id, amount);
    hide Run, AutoApply, Books, Amount;
    RunStep(SHOP, steps, k, Books(3, apps), Books(3, apps[(id, 0) := App(amount, None)]));
  }

  const ONCE: map<(nat, nat), App> := map[][(1, 0) := App(60, None)]

  /** A sale of 100, paid 60 by one payment and 40 of 60 by another. */
  function Shared(): State {
    Books(3, ONCE[(2, 0) := App(40, None)])
  }

  lemma ApplySteps()
    ensures |Steps()| == 11 && Steps()[9] == ApplyDocument(1) && Steps()[10] == ApplyDocument(2)
  {
  }

  lemma RowsSoFar()
    ensures forall k: nat, c: nat :: Amount(map[], k, c) == 0
    ensures forall k: nat, c: nat :: Amount(ONCE, k, c) == if (k, c) == (1, 0) then 60 else 0
  {
  }

  lemma OnceApplied()
    ensures Run(SHOP, Steps()[..10]) == Books(3, ONCE)
  {
    hide Run, AutoApply, Books, Amount, Steps;
    ApplySteps();
    RowsSoFar();
    DocsPosted(3);
    RunApplies(Steps(), 9, map[], 1, 60);
  }

  lemma RunShares()
    ensures Run(SHOP, Steps()) == Shared()
  {
    hide Run, AutoApply, Books, Amount, Steps;
    ApplySteps();
    RowsSoFar();
    OnceApplied();
    RunApplies(Steps(), 10, ONCE, 2, 40);
    assert Steps()[..11] == Steps();
  }

  lemma SharedUnposts()
    ensures UnpostDoc(SHOP, Shared(), 1).Ok?
  {
    var s := Shared();
    PeriodIsThere();
    LinesInsertable(60);
    hide PeriodForDate, Insertable;
    assert ReverseEntry(SHOP, s, 1).Ok?;
    hide ReverseEntry;
    assert FxEntries(s.apps, 1, 1) == [];
    assert FxEntries(s.apps, 1, 2) == [];
    assert FxEntries(s.apps, 1, 3) == [];
  }

  lemma SharedIsShared()
    ensures var s := Shared();
            && IsPosted(s, 1) && IsPosted(s, 2) && IsPayment(s.docs[1].value.kind) && !IsCharge(s.docs[2].value.kind)
            && (1, 0) in s.apps && (2, 0) in s.apps && 0 < Remaining(s, 2)
            && forall x: nat :: Matches(s, 2, x) ==> x == 0
  {
    ThreeSums(Shared().apps, 2);
    hide Applied;
  }

  /** So the refusal is not hypothetical: a run gets there. */
  lemma TopUpHappens()
    ensures SharedCharge(SHOP, Run(SHOP, Steps()), 1, 2, 0) && UnpostDoc(SHOP, Run(SHOP, Steps()), 1).Ok?
  {
    RunShares();
    SharedUnposts();
    EveryRunKeepsSubledger(SHOP, Steps());
    hide SubledgerOk, UnpostDoc, Run, Steps;
    SharedIsShared();
  }
}
