/** Every operation is a chain of the three moves, so every reachable ledger agrees with its
    live entries. */
module LiveRuns {
  import opened Money
  import opened Calendar
  import opened Tables
  import opened Entries
  import opened Periods
  import opened Balances
  import opened Ledger
  import opened Settlement
  import opened YearEnd
  import opened Machine
  import opened LiveEntries
  import opened Frames
  import Banking

  /* ---- adding and reversing one entry ---- */

  lemma AddEntryFacts(cfg: Config, s: State, e: Entry)
    requires AddEntry(cfg, s, e).Ok? && e.lines != [] && Balanced(e.lines)
    ensures var t := AddEntry(cfg, s, e).value;
            && |t.journal| == |s.journal| + 1 && s.journal <= t.journal
            && t.journal[|s.journal|] == e.(period := t.journal[|s.journal|].period)
            && EntryOk(cfg, t.journal[|s.journal|])
            && t == s.(journal := t.journal, periods := t.periods)
  {
  }

  lemma ReverseEntryFacts(cfg: Config, s: State, i: nat)
    requires JournalOk(cfg, s.journal) && ReverseEntry(cfg, s, i).Ok?
    ensures var t := ReverseEntry(cfg, s, i).value;
            && i < |s.journal| && !IsReversed(s.journal, i)
            && |t.journal| == |s.journal| + 1 && s.journal <= t.journal
            && t.journal[|s.journal|].reverses == Some(i)
            && Undoes(t.journal[|s.journal|], s.journal[i])
            && t == s.(journal := t.journal, periods := t.periods)
  {
    var e := s.journal[i];
    MirrorOk(cfg, e, e.(lines := Mirror(e.lines), reverses := Some(i)));
    AddEntryFacts(cfg, s, e.(lines := Mirror(e.lines), reverses := Some(i)));
  }

  /* ---- one operation at a time ---- */

  lemma PostDocClaims(cfg: Config, s: State, id: nat)
    requires AppsInRange(s) && PostDoc(cfg, s, id).Ok?
    ensures Claims(cfg, s, PostDoc(cfg, s, id).value, OfDoc(id))
  {
    var d := s.docs[id].value;
    var control := Control(cfg, d).value;
    var rate := EntryRate(cfg, s, d.currency, d.date).value;
    DocLinesBalance(control, d, rate);
    AddEntryFacts(cfg, s, Entry(d.date, 0, d.currency, rate, DocLines(control, d, rate), None, false));
  }

  lemma PostMoveClaims(cfg: Config, s: State, id: nat, credit: Option<int>)
    requires AppsInRange(s) && PostMove(cfg, s, id, credit).Ok?
    ensures Claims(cfg, s, PostMove(cfg, s, id, credit).value, OfMove(id))
  {
    var m := s.moves[id].value;
    var (debit, creditAccount) := MoveAccounts(s, m, credit).value;
    var rate := EntryRate(cfg, s, cfg.base, m.date).value;
    var lines := TransferLines(debit, creditAccount, Abs(m.cost));
    PairsBalance(debit, creditAccount, Abs(m.cost));
    AddEntryFacts(cfg, s, Entry(m.date, 0, cfg.base, rate, lines, None, false));
  }

  lemma UnpostMoveReleases(cfg: Config, s: State, id: nat)
    requires AppsInRange(s) && JournalOk(cfg, s.journal) && UnpostMove(cfg, s, id).Ok?
    ensures Releases(s, UnpostMove(cfg, s, id).value, OfMove(id))
  {
    ReverseEntryFacts(cfg, s, s.moves[id].value.entry.value);
  }

  /* ---- unposting: the document's entry, then each exchange difference ---- */

  function WithoutCharges(apps: map<(nat, nat), App>, id: nat, n: nat): map<(nat, nat), App> {
    map key | key in apps && !(key.0 == id && key.1 < n) :: apps[key]
  }

  lemma ReverseFxStep(cfg: Config, t: State, after: State, apps: map<(nat, nat), App>, id: nat, n: nat)
    requires (id, n) in apps && apps[(id, n)].fx.Some?
    requires LedgerOk(cfg, Dropped(t, apps, id, n))
    requires ReverseEntry(cfg, t, apps[(id, n)].fx.value) == Ok(after)
    ensures LedgerOk(cfg, Dropped(after, apps, id, n + 1))
  {
    var u, v := Dropped(t, apps, id, n), Dropped(after, apps, id, n + 1);
    ReverseEntryFacts(cfg, t, apps[(id, n)].fx.value);
    assert LinkOf(u, OfApp(id, n)) == apps[(id, n)].fx;
    forall p | p != OfApp(id, n) ensures LinkOf(v, p) == LinkOf(u, p) { }
    ReleaseKeeps(cfg, u, v, OfApp(id, n));
  }

  lemma DropStep(cfg: Config, t: State, apps: map<(nat, nat), App>, id: nat, n: nat)
    requires (id, n) in apps ==> apps[(id, n)].fx.None?
    requires LedgerOk(cfg, Dropped(t, apps, id, n))
    ensures LedgerOk(cfg, Dropped(t, apps, id, n + 1))
  {
    var u, v := Dropped(t, apps, id, n), Dropped(t, apps, id, n + 1);
    forall o ensures LinkOf(v, o) == LinkOf(u, o) { }
    QuietKeeps(cfg, u, v);
  }

  lemma FxEntriesUnfold(cfg: Config, s: State, t: State, id: nat, n: nat) returns (t1: State)
    requires (id, n) in s.apps && s.apps[(id, n)].fx.Some?
    requires ReverseAll(cfg, s, FxEntries(s.apps, id, n + 1)) == Ok(t)
    ensures ReverseAll(cfg, s, FxEntries(s.apps, id, n)) == Ok(t1)
    ensures ReverseEntry(cfg, t1, s.apps[(id, n)].fx.value) == Ok(t)
  {
    var list := FxEntries(s.apps, id, n + 1);
    assert list[..|list| - 1] == FxEntries(s.apps, id, n);
    t1 := ReverseAll(cfg, s, FxEntries(s.apps, id, n)).value;
  }

  /** The state once the applications to charges below n are let go. */
  function Dropped(t: State, apps: map<(nat, nat), App>, id: nat, n: nat): State {
    t.(apps := WithoutCharges(apps, id, n))
  }

  lemma NothingDropped(cfg: Config, s: State, t: State, id: nat)
    requires ReverseAll(cfg, s, FxEntries(s.apps, id, 0)) == Ok(t)
    ensures Dropped(t, s.apps, id, 0) == s
  {
    assert WithoutCharges(s.apps, id, 0) == s.apps;
  }

  lemma FxEntriesSkip(apps: map<(nat, nat), App>, id: nat, n: nat)
    requires (id, n) in apps ==> apps[(id, n)].fx.None?
    ensures FxEntries(apps, id, n + 1) == FxEntries(apps, id, n)
  {
  }

  /** Reversing the differences one by one releases the applications one by one. */
  lemma {:induction false} ReverseFxKeeps(cfg: Config, s: State, t: State, u: State, id: nat, n: nat)
    requires LedgerOk(cfg, s)
    requires ReverseAll(cfg, s, FxEntries(s.apps, id, n)) == Ok(t)
    requires u == Dropped(t, s.apps, id, n)
    ensures LedgerOk(cfg, u)
    decreases n
  {
    hide *;
    if n == 0 {
      NothingDropped(cfg, s, t, id);
    } else if (id, n - 1) in s.apps && s.apps[(id, n - 1)].fx.Some? {
      var t1 := FxEntriesUnfold(cfg, s, t, id, n - 1);
      ReverseFxKeeps(cfg, s, t1, Dropped(t1, s.apps, id, n - 1), id, n - 1);
      ReverseFxStep(cfg, t1, t, s.apps, id, n - 1);
    } else {
      FxEntriesSkip(s.apps, id, n - 1);
      ReverseFxKeeps(cfg, s, t, Dropped(t, s.apps, id, n - 1), id, n - 1);
      DropStep(cfg, t, s.apps, id, n - 1);
    }
  }

  /** Reversal looks only at the journal, the calendar and the bank, so other tables may change first. */
  lemma {:induction false} ReverseAllIgnores(cfg: Config, s: State, docs: seq<Option<Doc>>, entries: seq<nat>)
    requires ReverseAll(cfg, s, entries).Ok?
    ensures ReverseAll(cfg, s.(docs := docs), entries) == Ok(ReverseAll(cfg, s, entries).value.(docs := docs))
  {
    if entries != [] {
      ReverseAllIgnores(cfg, s, docs, entries[..|entries| - 1]);
    }
  }

  /** The state after the document's own entry is reversed and let go. */
  lemma UnpostDocReleases(cfg: Config, s: State, id: nat)
    requires AppsInRange(s) && JournalOk(cfg, s.journal) && UnpostDoc(cfg, s, id).Ok?
    ensures var d := s.docs[id].value;
            var s1 := ReverseEntry(cfg, s, d.entry.value).value;
            var u := s1.(docs := s.docs[id := Some(d.(entry := None))]);
            var t := UnpostDoc(cfg, s, id).value;
            && Releases(s, u, OfDoc(id)) && u.apps == s.apps && |u.docs| == |s.docs|
            && if IsPayment(d.kind) then
                 && ReverseAll(cfg, u, FxEntries(s.apps, id, |s.docs|)).Ok?
                 && t == ReverseAll(cfg, u, FxEntries(s.apps, id, |s.docs|)).value.(apps := WithoutSettler(s.apps, id))
               else t == u
  {
    var d := s.docs[id].value;
    ReverseEntryFacts(cfg, s, d.entry.value);
    if IsPayment(d.kind) {
      var s1 := ReverseEntry(cfg, s, d.entry.value).value;
      var list := FxEntries(s.apps, id, |s.docs|);
      ReverseAllIgnores(cfg, s1, s.docs[id := Some(d.(entry := None))], list);
      ReverseAllFrame(cfg, s1, list);
    }
  }

  lemma UnpostDocKeeps(cfg: Config, s: State, id: nat)
    requires LedgerOk(cfg, s) && UnpostDoc(cfg, s, id).Ok?
    ensures LedgerOk(cfg, UnpostDoc(cfg, s, id).value)
  {
    var d := s.docs[id].value;
    UnpostDocReleases(cfg, s, id);
    var u := ReverseEntry(cfg, s, d.entry.value).value.(docs := s.docs[id := Some(d.(entry := None))]);
    ReleaseKeeps(cfg, s, u, OfDoc(id));
    if IsPayment(d.kind) {
      FinishUnpost(cfg, u, ReverseAll(cfg, u, FxEntries(u.apps, id, |u.docs|)).value, id);
    }
  }

  lemma FinishUnpost(cfg: Config, u: State, t: State, id: nat)
    requires LedgerOk(cfg, u)
    requires ReverseAll(cfg, u, FxEntries(u.apps, id, |u.docs|)) == Ok(t)
    ensures LedgerOk(cfg, t.(apps := WithoutSettler(u.apps, id)))
  {
    ReverseFxKeeps(cfg, u, t, Dropped(t, u.apps, id, |u.docs|), id, |u.docs|);
    assert WithoutCharges(u.apps, id, |u.docs|) == WithoutSettler(u.apps, id);
  }

  /* ---- applying: quiet rows, then a claim for each exchange difference ---- */

  lemma {:induction false} PostFxKeeps(cfg: Config, s: State, settler: nat, charges: seq<nat>, fx: int)
    requires LedgerOk(cfg, s) && Pending(s, settler, charges) && PostFx(cfg, s, settler, charges, fx).Ok?
    ensures var t := PostFx(cfg, s, settler, charges, fx).value;
            && LedgerOk(cfg, t)
            && s.journal <= t.journal
            && t == s.(journal := t.journal, periods := t.periods, apps := t.apps)
            && SameButFx(s.apps, t.apps, settler, charges)
  {
    if charges != [] {
      var n := |charges| - 1;
      var rest := charges[..n];
      var c := charges[n];
      forall x | x in rest ensures x in charges && x != c { }
      PostFxKeeps(cfg, s, settler, rest, fx);
      var t1 := PostFx(cfg, s, settler, rest, fx).value;
      assert c in charges && c !in rest;
      assert t1.apps[(settler, c)] == s.apps[(settler, c)];
      PostOneFxKeeps(cfg, t1, settler, c, fx);
    }
  }

  lemma PostOneFxClaims(cfg: Config, s: State, settler: nat, c: nat, fx: int)
    requires AppsInRange(s) && PostOneFx(cfg, s, settler, c, fx).Ok?
    requires (settler, c) in s.apps && s.apps[(settler, c)].fx.None?
    ensures var t := PostOneFx(cfg, s, settler, c, fx).value;
            && Claims(cfg, s, t, OfApp(settler, c))
            && t == s.(journal := t.journal, periods := t.periods, apps := t.apps)
            && SameButFx(s.apps, t.apps, settler, [c])
  {
    var d := s.docs[settler].value;
    var v := FxValue(s, settler, c);
    var rate := EntryRate(cfg, s, cfg.base, d.date).value;
    PairsBalance(Control(cfg, d).value, fx, v);
    AddEntryFacts(cfg, s, Entry(d.date, 0, cfg.base, rate, FxLines(Control(cfg, d).value, fx, v), None, false));
  }

  lemma PostOneFxKeeps(cfg: Config, s: State, settler: nat, c: nat, fx: int)
    requires LedgerOk(cfg, s) && PostOneFx(cfg, s, settler, c, fx).Ok?
    requires (settler, c) in s.apps && s.apps[(settler, c)].fx.None?
    ensures var t := PostOneFx(cfg, s, settler, c, fx).value;
            && LedgerOk(cfg, t)
            && s.journal <= t.journal
            && t == s.(journal := t.journal, periods := t.periods, apps := t.apps)
            && SameButFx(s.apps, t.apps, settler, [c])
  {
    PostOneFxClaims(cfg, s, settler, c, fx);
    hide PostOneFx;
    ClaimKeeps(cfg, s, PostOneFx(cfg, s, settler, c, fx).value, OfApp(settler, c));
  }

  lemma RowsFresh(s: State, id: nat)
    requires HasDoc(s, id) && WithRows(s, id).Ok?
    ensures var t := WithRows(s, id).value;
            && t == s.(apps := t.apps)
            && (forall key | key in s.apps :: key in t.apps && t.apps[key] == s.apps[key])
            && (forall key | key in t.apps && key !in s.apps ::
                  key.0 == id && key.1 < |s.docs| && t.apps[key].fx.None?)
  {
    FreshApps(s.apps, id, Charges(s, id), Amounts(s, id));
    assert forall c | c in Charges(s, id) :: c < |s.docs|;
    hide InsertApps, Charges, Amounts;
  }

  lemma RowsQuiet(s: State, id: nat)
    requires AppsInRange(s) && HasDoc(s, id) && WithRows(s, id).Ok?
    ensures Quiet(s, WithRows(s, id).value)
  {
    RowsFresh(s, id);
    var t := WithRows(s, id).value;
    hide WithRows;
    forall k, c | (k, c) in t.apps ensures k < |t.docs| && c < |t.docs| {
      if (k, c) !in s.apps { assert (k, c).0 == id; }
    }
    forall o ensures LinkOf(t, o) == LinkOf(s, o) {
      if o.OfApp? && (o.settler, o.charge) in t.apps && (o.settler, o.charge) !in s.apps { }
    }
  }

  lemma AutoApplyKeeps(cfg: Config, s: State, id: nat)
    requires LedgerOk(cfg, s) && AutoApply(cfg, s, id).Ok?
    ensures LedgerOk(cfg, AutoApply(cfg, s, id).value)
  {
    hide LedgerOk, WithRows, PostSettlementFx;
    RowsKeep(cfg, s, id);
    SettlementFxKeeps(cfg, WithRows(s, id).value, id);
  }

  lemma RowsKeep(cfg: Config, s: State, id: nat)
    requires LedgerOk(cfg, s) && HasDoc(s, id) && WithRows(s, id).Ok?
    ensures LedgerOk(cfg, WithRows(s, id).value)
  {
    RowsQuiet(s, id);
    QuietKeeps(cfg, s, WithRows(s, id).value);
  }

  lemma SettlementFxKeeps(cfg: Config, s: State, id: nat)
    requires LedgerOk(cfg, s) && PostSettlementFx(cfg, s, id).Ok?
    ensures LedgerOk(cfg, PostSettlementFx(cfg, s, id).value)
  {
    var list := Candidates(s, id, |s.docs|);
    CandidatesPending(s, id, |s.docs|);
    if list != [] {
      PostFxKeeps(cfg, s, id, list, s.fxAccount.value);
    }
  }

  /* ---- year end ---- */

  lemma {:induction false} SweepLinesNet(balances: seq<Item>, base: bool)
    ensures NetAll(SweepLines(balances), base) == -SumItems(balances)
    ensures |SweepLines(balances)| == |balances|
  {
    if balances != [] {
      SweepLinesNet(balances[1..], base);
      var lines := SweepLines(balances);
      assert lines[1..] == SweepLines(balances[1..]);
    }
  }

  /** The closing entry balances: what the sweep takes out, retained earnings take in. */
  lemma ClosingLinesBalance(balances: seq<Item>, retained: int)
    ensures Balanced(ClosingLines(balances, retained))
    ensures balances != [] ==> ClosingLines(balances, retained) != []
  {
    var total := SumItems(balances);
    forall base: bool ensures NetAll(ClosingLines(balances, retained), base) == 0 {
      SweepLinesNet(balances, base);
      if total == 0 {
        assert SweepLines(balances) + [] == SweepLines(balances);
      } else {
        NetAllOne(DebitLine(retained, total, total), base);
        NetAllConcat(SweepLines(balances), [DebitLine(retained, total, total)], base);
      }
    }
    SweepLinesNet(balances, true);
  }

  lemma SweepFacts(cfg: Config, s: State, end: Date, retained: int)
    requires Sweep(cfg, s, end, retained).Ok?
    ensures var t := Sweep(cfg, s, end, retained).value;
            var balances := ToSweep(cfg, s.journal, end);
            && t == s.(journal := t.journal, periods := t.periods)
            && (balances == [] ==> t == s)
            && (balances != [] ==>
                 && |t.journal| == |s.journal| + 1 && s.journal <= t.journal
                 && EntryOk(cfg, t.journal[|s.journal|])
                 && var e := t.journal[|s.journal|];
                    && e.lines == ClosingLines(balances, retained) && e.date == end
                    && e.currency == cfg.base && e.rate == RATE_ONE && e.reverses.None? && e.isClosing
                    && e.period < |t.periods|)
  {
    var balances := ToSweep(cfg, s.journal, end);
    ClosingLinesBalance(balances, retained);
  }

  /** A close links only the closed year anew. */
  lemma ClosedYearLinks(s: State, t: State, y: nat, closing: Option<nat>)
    requires t.docs == s.docs && t.moves == s.moves && t.apps == s.apps && y < |s.years|
    requires t.years == RollForward(s.years[y := s.years[y].(open := false, closing := closing)], s.years[y].end)
    ensures |s.years| <= |t.years| && LinkOf(t, OfYear(y)) == closing
    ensures forall p | p != OfYear(y) :: LinkOf(t, p) == LinkOf(s, p)
  {
  }

  lemma CloseYearMoves(cfg: Config, s: State, y: nat, retained: int)
    requires AppsInRange(s) && CloseYear(cfg, s, y, retained).Ok?
    requires OpenYearsUnlinked(s)
    ensures var t := CloseYear(cfg, s, y, retained).value;
            Quiet(s, t) || Claims(cfg, s, t, OfYear(y))
  {
    SweepFacts(cfg, s, s.years[y].end, retained);
    var t, s1 := CloseYear(cfg, s, y, retained).value, Sweep(cfg, s, s.years[y].end, retained).value;
    hide Sweep, ClosingLines, ClosePeriods, EntryOk, PriorOpen, LinkOf, RollForward;
    ClosedYearLinks(s, t, y, if |s1.journal| == |s.journal| then None else Some(|s.journal|));
    assert LinkOf(s, OfYear(y)) == None by { OpenUnlinked(s, y); }
    hide CloseYear;
  }

  lemma OpenUnlinked(s: State, y: nat)
    requires OpenYearsUnlinked(s) && y < |s.years| && s.years[y].open
    ensures LinkOf(s, OfYear(y)) == None
  {
  }

  lemma ReopenYearMoves(cfg: Config, s: State, y: nat)
    requires AppsInRange(s) && JournalOk(cfg, s.journal) && ReopenYear(cfg, s, y).Ok?
    ensures var t := ReopenYear(cfg, s, y).value;
            Quiet(s, t) || Releases(s, t, OfYear(y))
  {
    var t := ReopenYear(cfg, s, y).value;
    var years := s.years[y := s.years[y].(open := true, closing := None)];
    if s.years[y].closing.None? {
      assert t == s.(years := years);
    } else {
      var i := s.years[y].closing.value;
      var s1 := s.(years := years, periods := OpenUp(s.periods, years, s.journal[i].period).value);
      ReverseEntryFacts(cfg, s1, i);
      assert t == ReverseEntry(cfg, s1, i).value;
      hide JournalOk, Undoes;
    }
    hide ReopenYear, ReverseEntry, OpenUp;
    assert t == s.(years := years, journal := t.journal, periods := t.periods);
    forall p | p != OfYear(y) ensures LinkOf(t, p) == LinkOf(s, p) { }
  }

  /* ---- every run ---- */

  /** Only a closed year links a closing entry. */
  ghost predicate OpenYearsUnlinked(s: State) {
    forall y | 0 <= y < |s.years| && s.years[y].open :: s.years[y].closing.None?
  }

  /** Everything that relates links, journal and balances. */
  ghost predicate RunOk(cfg: Config, s: State) {
    LedgerOk(cfg, s) && OpenYearsUnlinked(s)
  }

  lemma UnlinkedKept(cfg: Config, s: State, step: Step)
    requires OpenYearsUnlinked(s)
    ensures OpenYearsUnlinked(Next(cfg, s, step))
  {
    if Try(cfg, s, step).Ok? {
      if IsLedgerStep(step) {
        LedgerStepFrame(cfg, s, step);
      } else if IsBankStep(step) {
        BankStepFrame(cfg, s, step);
      }
    }
  }

  /** Draft rows link nothing, so creating, editing and deleting them is quiet. */
  predicate IsDraftStep(step: Step) {
    || step.CreateDocument? || step.EditDocument? || step.DeleteDocument?
    || step.CreateMovement? || step.EditMovement? || step.DeleteMovement?
  }

  lemma DraftStepQuiet(cfg: Config, s: State, step: Step)
    requires AppsInRange(s) && Try(cfg, s, step).Ok? && IsDraftStep(step)
    ensures Quiet(s, Try(cfg, s, step).value)
  {
    var t := Try(cfg, s, step).value;
    forall o ensures LinkOf(t, o) == LinkOf(s, o) { }
  }

  predicate IsMasterStep(step: Step) {
    || step.CreateYear? || step.CreatePeriod? || step.EditPeriod?
    || step.SetRates? || step.SetFxAccount? || step.SetWritable?
  }

  lemma MasterStepQuiet(cfg: Config, s: State, step: Step)
    requires AppsInRange(s) && Try(cfg, s, step).Ok? && IsMasterStep(step)
    ensures Quiet(s, Try(cfg, s, step).value)
  {
    var t := Try(cfg, s, step).value;
    forall o ensures LinkOf(t, o) == LinkOf(s, o) { }
  }

  lemma BankStepQuiet(s: State, t: State)
    requires AppsInRange(s) && BankFrame(s, t)
    ensures Quiet(s, t)
  {
  }

  lemma PostDocKeeps(cfg: Config, s: State, id: nat)
    requires LedgerOk(cfg, s) && PostDoc(cfg, s, id).Ok?
    ensures LedgerOk(cfg, PostDoc(cfg, s, id).value)
  {
    PostDocClaims(cfg, s, id);
    ClaimKeeps(cfg, s, PostDoc(cfg, s, id).value, OfDoc(id));
  }

  lemma PostMoveKeeps(cfg: Config, s: State, id: nat, credit: Option<int>)
    requires LedgerOk(cfg, s) && PostMove(cfg, s, id, credit).Ok?
    ensures LedgerOk(cfg, PostMove(cfg, s, id, credit).value)
  {
    PostMoveClaims(cfg, s, id, credit);
    ClaimKeeps(cfg, s, PostMove(cfg, s, id, credit).value, OfMove(id));
  }

  lemma UnpostMoveKeeps(cfg: Config, s: State, id: nat)
    requires LedgerOk(cfg, s) && UnpostMove(cfg, s, id).Ok?
    ensures LedgerOk(cfg, UnpostMove(cfg, s, id).value)
  {
    UnpostMoveReleases(cfg, s, id);
    ReleaseKeeps(cfg, s, UnpostMove(cfg, s, id).value, OfMove(id));
  }

  lemma CloseYearKeeps(cfg: Config, s: State, y: nat, retained: int)
    requires RunOk(cfg, s) && CloseYear(cfg, s, y, retained).Ok?
    ensures LedgerOk(cfg, CloseYear(cfg, s, y, retained).value)
  {
    var t := CloseYear(cfg, s, y, retained).value;
    CloseYearMoves(cfg, s, y, retained);
    if Quiet(s, t) { QuietKeeps(cfg, s, t); } else { ClaimKeeps(cfg, s, t, OfYear(y)); }
  }

  lemma ReopenYearKeeps(cfg: Config, s: State, y: nat)
    requires LedgerOk(cfg, s) && ReopenYear(cfg, s, y).Ok?
    ensures LedgerOk(cfg, ReopenYear(cfg, s, y).value)
  {
    var t := ReopenYear(cfg, s, y).value;
    ReopenYearMoves(cfg, s, y);
    if Quiet(s, t) { QuietKeeps(cfg, s, t); } else { ReleaseKeeps(cfg, s, t, OfYear(y)); }
  }

  lemma OtherStepKeeps(cfg: Config, s: State, step: Step)
    requires LedgerOk(cfg, s) && Try(cfg, s, step).Ok?
    requires IsDraftStep(step) || IsMasterStep(step) || IsBankStep(step)
    ensures LedgerOk(cfg, Try(cfg, s, step).value)
  {
    hide Try;
    var t := Try(cfg, s, step).value;
    if IsBankStep(step) {
      BankStepFrame(cfg, s, step);
      BankStepQuiet(s, t);
    } else if IsDraftStep(step) {
      DraftStepQuiet(cfg, s, step);
    } else {
      MasterStepQuiet(cfg, s, step);
    }
    QuietKeeps(cfg, s, t);
  }

  lemma StepKeeps(cfg: Config, s: State, step: Step)
    requires RunOk(cfg, s) && Try(cfg, s, step).Ok?
    ensures LedgerOk(cfg, Try(cfg, s, step).value)
  {
    hide LedgerOk, OpenYearsUnlinked, PostDoc, AutoApply, UnpostDoc, PostMove, UnpostMove, CloseYear, ReopenYear;
    match step
    case PostDocument(id) => PostDocKeeps(cfg, s, id);
    case ApplyDocument(id) => AutoApplyKeeps(cfg, s, id);
    case UnpostDocument(id) => UnpostDocKeeps(cfg, s, id);
    case PostMovement(id, credit) => PostMoveKeeps(cfg, s, id, credit);
    case UnpostMovement(id) => UnpostMoveKeeps(cfg, s, id);
    case CloseFiscalYear(y, retained) => CloseYearKeeps(cfg, s, y, retained);
    case ReopenFiscalYear(y) => ReopenYearKeeps(cfg, s, y);
    case _ => OtherStepKeeps(cfg, s, step);
  }

  lemma EmptyOk(cfg: Config)
    ensures RunOk(cfg, EMPTY)
  {
  }

  /** In every reachable ledger each balance, in base or in any one currency, over any dates,
      closing entries in or out, is the sum over the live entries alone. */
  lemma {:induction false} EveryRunAgrees(cfg: Config, steps: seq<Step>)
    ensures RunOk(cfg, Run(cfg, steps))
  {
    if steps == [] {
      EmptyOk(cfg);
    } else {
      EveryRunAgrees(cfg, steps[..|steps| - 1]);
      var s, step := Run(cfg, steps[..|steps| - 1]), steps[|steps| - 1];
      UnlinkedKept(cfg, s, step);
      if Try(cfg, s, step).Ok? {
        StepKeeps(cfg, s, step);
      }
    }
  }
}
