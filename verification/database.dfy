/** The ledger as its programs run it: tables updated statement by statement inside a transaction
    that commits or is rolled back. Every method is proved to do what its specification function
    does, and a transaction exactly one step of the state machine. */
module Databases {
  import opened Money
  import opened Calendar
  import opened Tables
  import opened Entries
  import opened Periods
  import opened Ledger
  import opened Settlement
  import opened YearEnd
  import opened Machine
  import opened Frames
  import Banking
  import BankMatching
  import BankRuns

  /* ---- what the first failure of a loop means for the whole list ---- */

  lemma {:induction false} ReverseAllFails(cfg: Config, s: State, entries: seq<nat>, n: nat)
    requires n <= |entries| && ReverseAll(cfg, s, entries[..n]).Err?
    ensures ReverseAll(cfg, s, entries) == ReverseAll(cfg, s, entries[..n])
    decreases |entries|
  {
    if n < |entries| {
      var init := entries[..|entries| - 1];
      assert init[..n] == entries[..n];
      ReverseAllFails(cfg, s, init, n);
    } else {
      assert entries[..n] == entries;
    }
  }

  lemma {:induction false} PostFxFails(cfg: Config, s: State, settler: nat, charges: seq<nat>, fx: int, n: nat)
    requires n <= |charges| && PostFx(cfg, s, settler, charges[..n], fx).Err?
    ensures PostFx(cfg, s, settler, charges, fx) == PostFx(cfg, s, settler, charges[..n], fx)
    decreases |charges|
  {
    if n < |charges| {
      var init := charges[..|charges| - 1];
      assert init[..n] == charges[..n];
      PostFxFails(cfg, s, settler, init, fx, n);
    } else {
      assert charges[..n] == charges;
    }
  }

  /** Auto-matching, n lines in. */
  ghost predicate Progress(s: State, u: State, account: int, id: nat, lines: seq<nat>, n: nat, count: nat) {
    && n <= |lines| && u == Banking.MatchEach(s, account, lines[..n])
    && u == s.(bankLines := u.bankLines) && |u.bankLines| == |s.bankLines|
    && (forall i | n <= i < |lines| :: Banking.HasLine(u, lines[i]) && u.bankLines[lines[i]] == s.bankLines[lines[i]])
    && count == |BankMatching.Made(s, u, id)|
  }

  lemma NoneMadeYet(s: State, account: int, id: nat)
    requires BankRuns.Pending(s, id, Banking.Unmatched(s, id, |s.bankLines|))
    ensures Progress(s, s, account, id, Banking.Unmatched(s, id, |s.bankLines|), 0, 0)
  {
    assert BankMatching.Made(s, s, id) == map[];
  }

  lemma OneMoreLine(s: State, u: State, account: int, id: nat, lines: seq<nat>, n: nat, count: nat)
    requires n < |lines| && Progress(s, u, account, id, lines, n, count) && BankRuns.Pending(s, id, lines)
    ensures var nearest := Banking.Nearest(u, account, u.bankLines[lines[n]].value, Banking.AllRefs(u.journal));
            var t := Banking.MatchOne(u, account, lines[n]);
            && (nearest.None? ==> t == u && Progress(s, t, account, id, lines, n + 1, count))
            && (nearest.Some? ==>
                  t == Banking.SetMatch(u, lines[n], nearest) && Progress(s, t, account, id, lines, n + 1, count + 1))
  {
    hide Banking.Nearest, Banking.AllRefs, BankMatching.Made;
    assert lines[..n + 1][..n] == lines[..n];
    assert lines[n] in lines;
    var nearest := Banking.Nearest(u, account, u.bankLines[lines[n]].value, Banking.AllRefs(u.journal));
    if nearest.Some? {
      MadeGrows(s, u, id, lines[n], nearest.value);
    }
  }

  /** Filling one more of the wanting lines makes one more match. */
  lemma MadeGrows(s: State, u: State, id: nat, line: nat, r: LineRef)
    requires BankRuns.HasMatchable(s, u, id, line)
    ensures |BankMatching.Made(s, Banking.SetMatch(u, line, Some(r)), id)| == |BankMatching.Made(s, u, id)| + 1
  {
    var before, after := BankMatching.Made(s, u, id), BankMatching.Made(s, Banking.SetMatch(u, line, Some(r)), id);
    assert after == before[line := r];
  }

  /** What closing a year produced. */
  datatype CloseResult = CloseResult(closingEntry: Option<nat>, nextYear: Option<nat>)

  class Database {
    const cfg: Config
    var journal: seq<Entry>
    var periods: seq<Period>
    var years: seq<Year>
    var docs: seq<Option<Doc>>
    var moves: seq<Option<Move>>
    var apps: map<(nat, nat), App>
    var statements: seq<Option<Statement>>
    var bankLines: seq<Option<BankLine>>
    var rates: map<(string, Date), Rate>
    var fxAccount: Option<int>
    var writable: set<int>

    constructor (cfg: Config)
      ensures this.cfg == cfg && Snapshot() == EMPTY
    {
      this.cfg := cfg;
      journal, periods, years, docs, moves, apps := [], [], [], [], [], map[];
      statements, bankLines, rates, fxAccount, writable := [], [], map[], None, {};
    }

    function Snapshot(): State
      reads this
    {
      State(journal, periods, years, docs, moves, apps, statements, bankLines, rates, fxAccount, writable)
    }

    method Restore(s: State)
      modifies this
      ensures Snapshot() == s
    {
      journal, periods, years, docs, moves, apps := s.journal, s.periods, s.years, s.docs, s.moves, s.apps;
      statements, bankLines, rates, fxAccount, writable := s.statements, s.bankLines, s.rates, s.fxAccount, s.writable;
    }

    /* ---- posting ---- */

    /** Selects the open period, inserts the month if nothing covers the date, and selects again. */
    method PeriodForDate(date: Date) returns (r: Result<nat>)
      modifies `periods
      ensures match Periods.PeriodForDate(old(periods), years, date)
              case Ok((after, id)) => r == Ok(id) && periods == after
              case Err(e) => r == Err(e)
    {
      var found := OpenPeriod(periods, date);
      if found.Some? {
        return Ok(found.value);
      }
      if Covered(periods, date) {
        return Err(NoOpenPeriod);
      }
      var year := OpenYear(years, date);
      if year.Some? {
        var month := MonthPeriod(years, year.value, date);
        if !Conflicts(periods, month) {
          assert (periods + [month])[..|periods|] == periods;
          periods := periods + [month];
        }
      }
      found := OpenPeriod(periods, date);
      if found.None? {
        return Err(NoOpenPeriod);
      }
      return Ok(found.value);
    }

    /** Inserts a header and its lines; a line the table's checks refuse fails the statement. */
    method InsertEntry(e: Entry) returns (r: Result<nat>)
      modifies `journal
      ensures Insertable(cfg, writable, e.lines) ==> r == Ok(|old(journal)|) && journal == old(journal) + [e]
      ensures !Insertable(cfg, writable, e.lines) ==> r == Err(ConstraintViolation)
    {
      if !Insertable(cfg, writable, e.lines) {
        return Err(ConstraintViolation);
      }
      r := Ok(|journal|);
      journal := journal + [e];
    }

    method PostDocument(id: nat) returns (r: Result<nat>)
      modifies this
      ensures match PostDoc(cfg, old(Snapshot()), id)
              case Ok(after) => r == Ok(|old(journal)|) && Snapshot() == after
              case Err(e) => r == Err(e)
    {
      hide DocLines, Insertable, RateFor, LacksAccount, Total;
      if !HasDoc(Snapshot(), id) { return Err(NotFound); }
      var d := docs[id].value;
      if d.entry.Some? { return Err(NotDraft); }
      if Total(d) <= 0 { return Err(NothingToPost); }
      if IsPayment(d.kind) && d.cash.None? { return Err(MissingAccount); }
      var control := Control(cfg, d);
      if control.None? { return Err(MissingAccount); }
      if !IsPayment(d.kind) && LacksAccount(d.lines) { return Err(MissingAccount); }
      var period :- PeriodForDate(d.date);
      var rate := RateFor(cfg, rates, d.currency, d.date);
      if rate.None? { return Err(NoExchangeRate); }
      r := InsertEntry(Entry(d.date, period, d.currency, rate.value, DocLines(control.value, d, rate.value), None,
                             false));
      if r.Ok? {
        docs := docs[id := Some(d.(entry := Some(r.value)))];
      }
    }

    method PostMovement(id: nat, credit: Option<int>) returns (r: Result<nat>)
      modifies this
      ensures match PostMove(cfg, old(Snapshot()), id, credit)
              case Ok(after) => r == Ok(|old(journal)|) && Snapshot() == after
              case Err(e) => r == Err(e)
    {
      if !HasMove(Snapshot(), id) { return Err(NotFound); }
      var m := moves[id].value;
      if m.kind == OtherMove { return Err(NotPostable); }
      if m.kind == Receipt && credit.None? { return Err(MissingAccount); }
      if m.entry.Some? { return Err(AlreadyPosted); }
      var accounts :- MoveAccounts(Snapshot(), m, credit);
      var period :- PeriodForDate(m.date);
      var rate := RateFor(cfg, rates, cfg.base, m.date);
      r := InsertEntry(Entry(m.date, period, cfg.base, rate.value, TransferLines(accounts.0, accounts.1, Abs(m.cost)),
                             None, false));
      if r.Ok? {
        moves := moves[id := Some(m.(entry := Some(r.value)))];
      }
    }

    /* ---- reversal ---- */

    method ReverseEntry(i: nat) returns (r: Result<nat>)
      modifies `journal, `periods
      ensures match Ledger.ReverseEntry(cfg, old(Snapshot()), i)
              case Ok(after) => r == Ok(|old(journal)|) && Snapshot() == after
              case Err(e) => r == Err(e)
    {
      if |journal| <= i { return Err(NotFound); }
      if IsReversed(journal, i) { return Err(AlreadyReversed); }
      if IsBankMatched(bankLines, i) { return Err(BankMatched); }
      var e := journal[i];
      var period :- PeriodForDate(e.date);
      r := InsertEntry(e.(period := period, lines := Mirror(e.lines), reverses := Some(i)));
    }

    /** Reverses a list of entries one by one. */
    method ReverseEach(entries: seq<nat>) returns (r: Result<nat>)
      modifies `journal, `periods
      ensures match ReverseAll(cfg, old(Snapshot()), entries)
              case Ok(after) => r == Ok(|entries|) && Snapshot() == after
              case Err(e) => r == Err(e)
    {
      ghost var start := Snapshot();
      for n := 0 to |entries|
        invariant ReverseAll(cfg, start, entries[..n]) == Ok(Snapshot())
      {
        assert entries[..n + 1][..n] == entries[..n];
        var reversed := ReverseEntry(entries[n]);
        if reversed.Err? {
          ReverseAllFails(cfg, start, entries, n + 1);
          return Err(reversed.error);
        }
      }
      assert entries[..|entries|] == entries;
      r := Ok(|entries|);
    }

    method UnpostDocument(id: nat) returns (r: Result<nat>)
      modifies this
      ensures match UnpostDoc(cfg, old(Snapshot()), id)
              case Ok(after) => r == Ok(|old(journal)|) && Snapshot() == after
              case Err(e) => r == Err(e)
    {
      if !HasDoc(Snapshot(), id) { return Err(NotFound); }
      var d := docs[id].value;
      if d.entry.None? { return Err(NotPosted); }
      if IsCharge(d.kind) && HasSettlers(Snapshot(), id) { return Err(HasApplications); }
      if !IsCharge(d.kind) && !IsPayment(d.kind) && HasCharges(Snapshot(), id) { return Err(HasApplications); }
      var reversal :- ReverseEntry(d.entry.value);
      if IsPayment(d.kind) {
        var _ :- ReverseEach(FxEntries(apps, id, |docs|));
        apps := WithoutSettler(apps, id);
      }
      docs := docs[id := Some(d.(entry := None))];
      return Ok(reversal);
    }

    method UnpostMovement(id: nat) returns (r: Result<nat>)
      modifies this
      ensures match UnpostMove(cfg, old(Snapshot()), id)
              case Ok(after) => r == Ok(|old(journal)|) && Snapshot() == after
              case Err(e) => r == Err(e)
    {
      if !HasMove(Snapshot(), id) { return Err(NotFound); }
      var m := moves[id].value;
      if m.entry.None? { return Err(NotPosted); }
      var reversal :- ReverseEntry(m.entry.value);
      moves := moves[id := Some(m.(entry := None))];
      return Ok(reversal);
    }

    /* ---- settlement ---- */

    method PostOneFx(settler: nat, charge: nat, fx: int) returns (r: Result<nat>)
      modifies `journal, `periods, `apps
      ensures match Settlement.PostOneFx(cfg, old(Snapshot()), settler, charge, fx)
              case Ok(after) => r == Ok(|old(journal)|) && Snapshot() == after
              case Err(e) => r == Err(e)
    {
      if !(IsPosted(Snapshot(), settler) && IsPosted(Snapshot(), charge) && (settler, charge) in apps) {
        return Err(NotFound);
      }
      var d := docs[settler].value;
      var control := Control(cfg, d);
      if control.None? { return Err(MissingAccount); }
      var v := FxValue(Snapshot(), settler, charge);
      var period :- PeriodForDate(d.date);
      var rate := RateFor(cfg, rates, cfg.base, d.date);
      r := InsertEntry(Entry(d.date, period, cfg.base, rate.value, FxLines(control.value, fx, v), None, false));
      if r.Ok? {
        apps := apps[(settler, charge) := apps[(settler, charge)].(fx := Some(r.value))];
      }
    }

    /** Collects the candidates, then books them one by one. */
    method PostSettlementFx(settler: nat) returns (r: Result<nat>)
      modifies `journal, `periods, `apps
      ensures match Settlement.PostSettlementFx(cfg, old(Snapshot()), settler)
              case Ok(after) => r.Ok? && Snapshot() == after
              case Err(e) => r == Err(e)
    {
      var candidates := Candidates(Snapshot(), settler, |docs|);
      if candidates == [] { return Ok(0); }
      if fxAccount.None? { return Err(MissingAccount); }
      ghost var start := Snapshot();
      for n := 0 to |candidates|
        invariant PostFx(cfg, start, settler, candidates[..n], fxAccount.value) == Ok(Snapshot())
      {
        assert candidates[..n + 1][..n] == candidates[..n];
        var booked := PostOneFx(settler, candidates[n], fxAccount.value);
        if booked.Err? {
          PostFxFails(cfg, start, settler, candidates, fxAccount.value, n + 1);
          return Err(booked.error);
        }
      }
      assert candidates[..|candidates|] == candidates;
      r := Ok(|candidates|);
    }

    method ApplyDocument(settler: nat) returns (r: Result<nat>)
      modifies this
      ensures match AutoApply(cfg, old(Snapshot()), settler)
              case Ok(after) => r.Ok? && Snapshot() == after
              case Err(e) => r == Err(e)
    {
      if !HasDoc(Snapshot(), settler) || IsCharge(docs[settler].value.kind) { return Err(NotFound); }
      if docs[settler].value.entry.None? { return Err(NotPosted); }
      var rows :- InsertApps(apps, settler, Charges(Snapshot(), settler), Amounts(Snapshot(), settler));
      apps := rows;
      r := PostSettlementFx(settler);
    }

    /* ---- year end ---- */

    /** Opens a period; the trigger refuses when its year is closed. */
    method OpenPeriodUp(id: nat) returns (r: Result<nat>)
      requires id < |periods|
      modifies `periods
      ensures match OpenUp(old(periods), years, id)
              case Ok(after) => r == Ok(id) && periods == after
              case Err(e) => r == Err(e)
    {
      if !periods[id].open {
        if !(periods[id].year < |years| && years[periods[id].year].open) { return Err(ConstraintViolation); }
        periods := periods[id := periods[id].(open := true)];
      }
      r := Ok(id);
    }

    method PostClosingEntry(end: Date, retained: int) returns (r: Result<Option<nat>>)
      modifies `journal, `periods
      ensures match Sweep(cfg, old(Snapshot()), end, retained)
              case Ok(after) =>
                && Snapshot() == after
                && r == Ok(if |after.journal| == |old(journal)| then None else Some(|old(journal)|))
              case Err(e) => r == Err(e)
    {
      var balances := ToSweep(cfg, journal, end);
      if balances == [] { return Ok(None); }
      var id: nat;
      var covering := CoveringPeriod(periods, end);
      if covering.Some? {
        id :- OpenPeriodUp(covering.value);
      } else {
        id :- PeriodForDate(end);
      }
      var entry :- InsertEntry(Entry(end, id, cfg.base, RATE_ONE, ClosingLines(balances, retained), None, true));
      return Ok(Some(entry));
    }

    method CloseFiscalYear(y: nat, retained: int) returns (r: Result<CloseResult>)
      modifies this
      ensures match CloseYear(cfg, old(Snapshot()), y, retained)
              case Ok(after) =>
                && r.Ok? && Snapshot() == after
                && y < |after.years| && r.value.closingEntry == after.years[y].closing
                && r.value.nextYear == (if |after.years| == |old(years)| then None else Some(|old(years)|))
              case Err(e) => r == Err(e)
    {
      if |years| <= y { return Err(NotFound); }
      if !years[y].open { return Err(YearNotOpen); }
      if PriorOpen(years, y) { return Err(PriorYearOpen); }
      if retained !in cfg.chart || retained !in writable || cfg.chart[retained].kind != Equity {
        return Err(MissingAccount);
      }
      var end := years[y].end;
      var closing :- PostClosingEntry(end, retained);
      periods := ClosePeriods(periods, y);
      years := years[y := years[y].(open := false, closing := closing)];
      var next := None;
      if RollsForward(years, end) {
        next := Some(|years|);
        years := years + [NextYear(end)];
      }
      return Ok(CloseResult(closing, next));
    }

    method ReopenFiscalYear(y: nat) returns (r: Result<Option<nat>>)
      modifies this
      ensures match ReopenYear(cfg, old(Snapshot()), y)
              case Ok(after) =>
                && Snapshot() == after
                && r == Ok(if |after.journal| == |old(journal)| then None else Some(|old(journal)|))
              case Err(e) => r == Err(e)
    {
      if |years| <= y { return Err(NotFound); }
      if years[y].open { return Err(YearNotClosed); }
      if LaterClosed(years, y) { return Err(LaterYearClosed); }
      var closing := years[y].closing;
      years := years[y := years[y].(open := true, closing := None)];
      if closing.None? { return Ok(None); }
      if |journal| <= closing.value || |periods| <= journal[closing.value].period { return Err(NotFound); }
      var _ :- OpenPeriodUp(journal[closing.value].period);
      var reversal :- ReverseEntry(closing.value);
      return Ok(Some(reversal));
    }

    /* ---- bank statements ---- */

    /** Offers each unmatched line its nearest unused candidate and counts the lines matched. */
    method AutoMatch(id: nat) returns (r: Result<nat>)
      modifies `bankLines
      ensures match Banking.AutoMatch(old(Snapshot()), id)
              case Ok(after) => Snapshot() == after && r == Ok(|BankMatching.Made(old(Snapshot()), after, id)|)
              case Err(e) => r == Err(e)
    {
      var st :- Banking.RequireOpen(Snapshot(), id);
      var lines := Banking.Unmatched(Snapshot(), id, |bankLines|);
      ghost var start := Snapshot();
      BankRuns.UnmatchedPending(start, id, |bankLines|);
      NoneMadeYet(start, st.account, id);
      var count := 0;
      for n := 0 to |lines|
        invariant Progress(start, Snapshot(), st.account, id, lines, n, count)
      {
        OneMoreLine(start, Snapshot(), st.account, id, lines, n, count);
        var line := lines[n];
        var nearest := Banking.Nearest(Snapshot(), st.account, bankLines[line].value, Banking.AllRefs(journal));
        if nearest.Some? {
          bankLines := bankLines[line := Some(bankLines[line].value.(matched := nearest))];
          count := count + 1;
        }
      }
      assert lines[..|lines|] == lines;
      r := Ok(count);
    }

    /** Only an unmatched line of an open statement is matched, and only to a journal line on the
        statement's account, with the line's amount, that no line uses yet. */
    method MatchLine(line: nat, ref: LineRef) returns (r: Result<()>)
      modifies `bankLines
      ensures r.Ok? ==>
                var b := old(Banking.OpenLine(Snapshot(), line));
                && b.Ok? && b.value.matched.None? && line < |old(bankLines)| && b.value.statement < |statements|
                && statements[b.value.statement].Some? && !statements[b.value.statement].value.reconciled
                && Banking.Pairs(journal, statements[b.value.statement].value.account, b.value.amount, ref)
                && old(!Banking.IsUsed(bankLines, ref))
                && bankLines == old(bankLines)[line := Some(b.value.(matched := Some(ref)))]
      ensures r.Err? ==> bankLines == old(bankLines)
      ensures match Banking.MatchLine(old(Snapshot()), line, ref)
              case Ok(after) => r.Ok? && Snapshot() == after
              case Err(e) => r == Err(e)
    {
      var b :- Banking.OpenLine(Snapshot(), line);
      if b.matched.Some? { return Err(AlreadyMatched); }
      if !Banking.Pairs(journal, statements[b.statement].value.account, b.amount, ref)
         || Banking.IsUsed(bankLines, ref) {
        return Err(ConstraintViolation);
      }
      bankLines := bankLines[line := Some(b.(matched := Some(ref)))];
      r := Ok(());
    }

    method UnmatchLine(line: nat) returns (r: Result<()>)
      modifies `bankLines
      ensures match Banking.UnmatchLine(old(Snapshot()), line)
              case Ok(after) => r.Ok? && Snapshot() == after
              case Err(e) => r == Err(e)
    {
      var b :- Banking.OpenLine(Snapshot(), line);
      bankLines := bankLines[line := Some(b.(matched := None))];
      r := Ok(());
    }

    /** Counts the statement's unmatched rows and adds its lines up; without lines the outer join
        leaves one row, which counts as unmatched. */
    method Reconcile(id: nat) returns (r: Result<()>)
      modifies `statements
      ensures match Banking.Reconcile(cfg, old(Snapshot()), id)
              case Ok(after) => r.Ok? && Snapshot() == after
              case Err(e) => r == Err(e)
    {
      var st :- Banking.RequireOpen(Snapshot(), id);
      var rows, unmatched, total := 0, 0, 0;
      for n := 0 to |bankLines|
        invariant 0 <= unmatched <= rows
        invariant rows == 0 <==> forall b | 0 <= b < n :: !BankRuns.IsOn(bankLines[b], id)
        invariant unmatched == 0 <==> forall b | 0 <= b < n && BankRuns.IsOn(bankLines[b], id) ::
                    bankLines[b].value.matched.Some?
        invariant total == Banking.SumLines(bankLines[..n], id)
      {
        assert bankLines[..n + 1][..n] == bankLines[..n];
        var l := bankLines[n];
        if l.Some? && l.value.statement == id {
          rows, total := rows + 1, total + l.value.amount;
          if l.value.matched.None? { unmatched := unmatched + 1; }
        }
      }
      assert bankLines[..|bankLines|] == bankLines;
      assert rows == 0 || unmatched > 0 <==> Banking.AnyUnmatched(Snapshot(), id) by {
        forall b | 0 <= b < |bankLines|
          ensures BankRuns.IsOn(bankLines[b], id) <==> bankLines[b].Some? && bankLines[b].value.statement == id { }
      }
      if rows == 0 || unmatched > 0 { return Err(UnmatchedLines); }
      if st.opening + total != st.closing { return Err(Unbalanced); }
      if !Banking.CashAccount(cfg, Snapshot(), st.account) { return Err(ConstraintViolation); }
      statements := statements[id := Some(st.(reconciled := true))];
      r := Ok(());
    }

    /* ---- drafts ---- */

    method EditDocument(id: nat, d: Doc) returns (r: Result<()>)
      modifies `docs
      ensures r.Ok? <==> old(HasDoc(Snapshot(), id) && !docs[id].value.linked && docs[id].value.entry.None?
                             && d.kind == docs[id].value.kind) && DocInputOk(d) && !d.linked
      ensures docs == if r.Ok? then old(docs[id := Some(d)]) else old(docs)
      ensures match EditDoc(old(Snapshot()), id, d)
              case Ok(after) => r.Ok? && Snapshot() == after
              case Err(e) => r == Err(e)
    {
      if !HasDoc(Snapshot(), id) { return Err(NotFound); }
      if docs[id].value.linked { return Err(OrderLinked); }
      if docs[id].value.entry.Some? { return Err(NotDraft); }
      if !DocInputOk(d) || d.linked || d.kind != docs[id].value.kind { return Err(ConstraintViolation); }
      docs := docs[id := Some(d)];
      r := Ok(());
    }

    method DeleteDocument(id: nat) returns (r: Result<()>)
      modifies `docs
      ensures r.Ok? <==> old(HasDoc(Snapshot(), id) && docs[id].value.entry.None?)
      ensures docs == if r.Ok? then old(docs[id := None]) else old(docs)
      ensures match DeleteDoc(old(Snapshot()), id)
              case Ok(after) => r.Ok? && Snapshot() == after
              case Err(e) => r == Err(e)
    {
      if !HasDoc(Snapshot(), id) { return Err(NotFound); }
      if docs[id].value.entry.Some? { return Err(NotDraft); }
      docs := docs[id := None];
      r := Ok(());
    }

    /* ---- transactions ---- */

    method Posting(step: Step) returns (r: Result<()>)
      requires step.PostDocument? || step.ApplyDocument? || step.UnpostDocument? || step.PostMovement?
               || step.UnpostMovement?
      modifies this
      ensures match Try(cfg, old(Snapshot()), step)
              case Ok(after) => r.Ok? && Snapshot() == after
              case Err(e) => r == Err(e)
    {
      hide PostDoc, AutoApply, UnpostDoc, PostMove, UnpostMove;
      match step {
        case PostDocument(id) => var _ :- PostDocument(id);
        case ApplyDocument(id) => var _ :- ApplyDocument(id);
        case UnpostDocument(id) => var _ :- UnpostDocument(id);
        case PostMovement(id, credit) => var _ :- PostMovement(id, credit);
        case UnpostMovement(id) => var _ :- UnpostMovement(id);
      }
      r := Ok(());
    }

    method Matching(step: Step) returns (r: Result<()>)
      requires step.MatchBankLine? || step.UnmatchBankLine? || step.AutoMatchStatement?
      modifies this
      ensures match Try(cfg, old(Snapshot()), step)
              case Ok(after) => r.Ok? && Snapshot() == after
              case Err(e) => r == Err(e)
    {
      hide Banking.MatchLine, Banking.UnmatchLine, Banking.AutoMatch, BankMatching.Made;
      hide Banking.OpenLine, Banking.Pairs, Banking.IsUsed;
      match step {
        case MatchBankLine(line, ref) => var _ :- MatchLine(line, ref);
        case UnmatchBankLine(line) => var _ :- UnmatchLine(line);
        case AutoMatchStatement(id) => var _ :- AutoMatch(id);
      }
      r := Ok(());
    }

    method Other(step: Step) returns (r: Result<()>)
      requires step.EditDocument? || step.DeleteDocument? || step.CloseFiscalYear? || step.ReopenFiscalYear?
               || step.ReconcileStatement?
      modifies this
      ensures match Try(cfg, old(Snapshot()), step)
              case Ok(after) => r.Ok? && Snapshot() == after
              case Err(e) => r == Err(e)
    {
      hide CloseYear, ReopenYear, EditDoc, DeleteDoc, Banking.Reconcile;
      match step {
        case EditDocument(id, doc) => var _ :- EditDocument(id, doc);
        case DeleteDocument(id) => var _ :- DeleteDocument(id);
        case CloseFiscalYear(y, retained) => var _ :- CloseFiscalYear(y, retained);
        case ReopenFiscalYear(y) => var _ :- ReopenFiscalYear(y);
        case ReconcileStatement(id) => var _ :- Reconcile(id);
      }
      r := Ok(());
    }

    /** Runs one operation in a transaction: its writes commit together or are rolled back. */
    method Transact(step: Step) returns (committed: bool)
      modifies this
      ensures Snapshot() == Next(cfg, old(Snapshot()), step)
      ensures committed <==> Try(cfg, old(Snapshot()), step).Ok?
    {
      hide Try;
      var before := Snapshot();
      var r: Result<()>;
      if step.PostDocument? || step.ApplyDocument? || step.UnpostDocument? || step.PostMovement?
         || step.UnpostMovement? {
        r := Posting(step);
      } else if step.MatchBankLine? || step.UnmatchBankLine? || step.AutoMatchStatement? {
        r := Matching(step);
      } else if step.EditDocument? || step.DeleteDocument? || step.CloseFiscalYear? || step.ReopenFiscalYear?
        || step.ReconcileStatement? {
        r := Other(step);
      } else {  // a single guarded statement
        var after := Try(cfg, before, step);
        if after.Ok? { Restore(after.value); }
        r := if after.Ok? then Ok(()) else Err(after.error);
      }
      if r.Err? {
        Restore(before);
      }
      committed := r.Ok?;
    }

    /** A database that has run a sequence of transactions is in the state the machine reaches. */
    method Replay(steps: seq<Step>)
      requires Snapshot() == EMPTY
      modifies this
      ensures Snapshot() == Run(cfg, steps)
    {
      for n := 0 to |steps|
        invariant Snapshot() == Run(cfg, steps[..n])
      {
        assert steps[..n + 1][..n] == steps[..n];
        var _ := Transact(steps[n]);
      }
      assert steps[..|steps|] == steps;
    }
  }
}
