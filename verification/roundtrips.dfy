/** Undoing: whatever happened in between, when the same things are posted again every balance is
    what it was. */
module RoundTrips {
  import opened Money
  import opened Sums
  import opened Calendar
  import opened Tables
  import opened Entries
  import opened Periods
  import opened Balances
  import opened Ledger
  import opened Settlement
  import opened YearEnd
  import opened Machine
  import opened Frames
  import opened LiveEntries
  import opened Subledger
  import LiveRuns
  import Unposting
  import Applying
  import Swept
  import Linked

  /** Every question about sums of journal lines has the same answer. */
  ghost predicate SameBalances(s: State, t: State) {
    forall q :: Balance(t.journal, q) == Balance(s.journal, q)
  }

  /** Balances depend on nothing but what is linked. */
  lemma LinksDetermineBalances(cfg: Config, s: State, t: State)
    requires LedgerOk(cfg, s) && LedgerOk(cfg, t) && s.journal <= t.journal
    requires |s.docs| <= |t.docs| && |s.moves| <= |t.moves| && |s.years| <= |t.years|
    requires forall o :: LinkOf(t, o) == LinkOf(s, o)
    ensures SameBalances(s, t)
  {
    forall q ensures Balance(t.journal, q) == Balance(s.journal, q) {
      forall p ensures Part(t, p, q) == Part(s, p, q) {
        if LinkOf(s, p).Some? { assert Unreversed(s.journal, LinkOf(s, p).value); }
      }
      SameParts(s, t, q);
    }
  }

  /* ---- post, apply, unpost ---- */

  predicate About(step: Step, id: nat) {
    step == PostDocument(id) || step == ApplyDocument(id) || step == UnpostDocument(id)
  }

  /** Only the link of document id, and applications drawn on it, differ. */
  ghost predicate OnlyDoc(s: State, t: State, id: nat) {
    && s.journal <= t.journal && t.moves == s.moves && t.years == s.years
    && |t.docs| == |s.docs| && HasDoc(s, id) && HasDoc(t, id)
    && t.docs[id].value.(entry := None) == s.docs[id].value.(entry := None)
    && (forall i | 0 <= i < |s.docs| && i != id :: t.docs[i] == s.docs[i])
    && (forall key: (nat, nat) | key.0 != id :: key in t.apps <==> key in s.apps)
    && (forall key: (nat, nat) | key.0 != id && key in s.apps && key in t.apps :: t.apps[key] == s.apps[key])
  }

  lemma OnlyDocChain(s: State, t: State, u: State, id: nat)
    requires OnlyDoc(s, t, id) && OnlyDoc(t, u, id)
    ensures OnlyDoc(s, u, id)
  {
  }

  lemma ApplyOnlyDoc(cfg: Config, s: State, id: nat)
    requires SubledgerOk(cfg, s) && AutoApply(cfg, s, id).Ok?
    ensures OnlyDoc(s, AutoApply(cfg, s, id).value, id)
  {
    var s1, t := WithRows(s, id).value, AutoApply(cfg, s, id).value;
    Applying.WithRowsKeeps(cfg, s, id);
    Applying.SettlementFxBooks(cfg, s1, id);
    LiveRuns.RowsFresh(s, id);
    hide PostSettlementFx, WithRows, SubledgerOk, IsCandidate;
    forall key: (nat, nat) | key.0 != id ensures key in t.apps <==> key in s.apps {
      assert key in s1.apps.Keys <==> key in t.apps.Keys;
    }
    forall key: (nat, nat) | key.0 != id && key in s.apps && key in t.apps ensures t.apps[key] == s.apps[key] {
      assert key == (key.0, key.1);
      assert s1.apps[key] == s.apps[key];
    }
  }

  lemma AboutStep(cfg: Config, s: State, step: Step, id: nat)
    requires SubledgerOk(cfg, s) && About(step, id) && HasDoc(s, id)
    ensures OnlyDoc(s, Next(cfg, s, step), id)
  {
    hide SubledgerOk, AutoApply, UnpostDoc, DocLines;
    if Try(cfg, s, step).Ok? {
      match step
      case PostDocument(_) =>
      case ApplyDocument(_) => ApplyOnlyDoc(cfg, s, id);
      case UnpostDocument(_) => Unposting.UnpostDocTables(cfg, s, id);
    }
  }

  lemma {:induction false} AboutRun(cfg: Config, base: seq<Step>, more: seq<Step>, id: nat)
    requires HasDoc(Run(cfg, base), id) && forall step | step in more :: About(step, id)
    ensures OnlyDoc(Run(cfg, base), Run(cfg, base + more), id)
  {
    if more == [] {
      assert base + more == base;
    } else {
      var init, last := more[..|more| - 1], more[|more| - 1];
      assert (base + more)[..|base + more| - 1] == base + init;
      AboutRun(cfg, base, init, id);
      Unposting.EveryRunKeepsSubledger(cfg, base + init);
      assert Run(cfg, base + more) == Next(cfg, Run(cfg, base + init), last);
      hide *;
      AboutLast(cfg, Run(cfg, base), Run(cfg, base + init), last, id);
    }
  }

  lemma AboutLast(cfg: Config, s: State, t: State, step: Step, id: nat)
    requires OnlyDoc(s, t, id) && SubledgerOk(cfg, t) && About(step, id)
    ensures OnlyDoc(s, Next(cfg, t, step), id)
  {
    hide Next, SubledgerOk, About;
    AboutStep(cfg, t, step, id);
    OnlyDocChain(s, t, Next(cfg, t, step), id);
  }

  /** However often a draft document is posted, applied and unposted, in whatever order, once it is
      a draft again every document, application and balance is what it was. */
  lemma DocumentRoundTrip(cfg: Config, base: seq<Step>, more: seq<Step>, id: nat)
    requires HasDoc(Run(cfg, base), id) && !IsPosted(Run(cfg, base), id)
    requires forall step | step in more :: About(step, id)
    requires !IsPosted(Run(cfg, base + more), id)
    ensures var s, t := Run(cfg, base), Run(cfg, base + more);
            && t.docs == s.docs && t.apps == s.apps && t.moves == s.moves && t.years == s.years
            && SameBalances(s, t)
  {
    AboutRun(cfg, base, more, id);
    Unposting.EveryRunKeepsSubledger(cfg, base);
    Unposting.EveryRunKeepsSubledger(cfg, base + more);
    LiveRuns.EveryRunAgrees(cfg, base);
    LiveRuns.EveryRunAgrees(cfg, base + more);
    hide Run, LedgerOk, SubledgerOk;
    BackToDraft(cfg, Run(cfg, base), Run(cfg, base + more), id);
  }

  lemma BackToDraft(cfg: Config, s: State, t: State, id: nat)
    requires OnlyDoc(s, t, id) && SubledgerOk(cfg, s) && SubledgerOk(cfg, t) && LedgerOk(cfg, s) && LedgerOk(cfg, t)
    requires !IsPosted(s, id) && !IsPosted(t, id)
    ensures t.docs == s.docs && t.apps == s.apps && SameBalances(s, t)
  {
    DraftsUntouched(cfg, s, id);
    DraftsUntouched(cfg, t, id);
    hide LedgerOk, SubledgerOk, SameBalances;
    assert t.docs == s.docs;
    forall key: (nat, nat) ensures key in t.apps <==> key in s.apps {
      assert key == (key.0, key.1);
    }
    assert t.apps == s.apps;
    forall o: Owner ensures LinkOf(t, o) == LinkOf(s, o) { }
    LinksDetermineBalances(cfg, s, t);
  }

  /* ---- close, reopen ---- */

  /** Closing and reopening a year puts every balance at every date back. */
  lemma CloseReopenRestores(cfg: Config, steps: seq<Step>, y: nat, retained: int)
    requires var s := Run(cfg, steps);
             CloseYear(cfg, s, y, retained).Ok? && ReopenYear(cfg, CloseYear(cfg, s, y, retained).value, y).Ok?
    ensures var s := Run(cfg, steps);
            SameBalances(s, ReopenYear(cfg, CloseYear(cfg, s, y, retained).value, y).value)
  {
    LiveRuns.EveryRunAgrees(cfg, steps);
    hide Run;
    CloseReopen(cfg, Run(cfg, steps), y, retained);
  }

  lemma CloseReopen(cfg: Config, s: State, y: nat, retained: int)
    requires LiveRuns.RunOk(cfg, s) && CloseYear(cfg, s, y, retained).Ok?
    requires ReopenYear(cfg, CloseYear(cfg, s, y, retained).value, y).Ok?
    ensures SameBalances(s, ReopenYear(cfg, CloseYear(cfg, s, y, retained).value, y).value)
  {
    var t := CloseYear(cfg, s, y, retained).value;
    var u := ReopenYear(cfg, t, y).value;
    LiveRuns.CloseYearKeeps(cfg, s, y, retained);
    LiveRuns.ReopenYearKeeps(cfg, t, y);
    LiveRuns.CloseYearMoves(cfg, s, y, retained);
    LiveRuns.ReopenYearMoves(cfg, t, y);
    assert LinkOf(s, OfYear(y)) == None;
    CloseReopenLinks(cfg, s, t, u, y, retained);
    hide CloseYear, ReopenYear, SameBalances;
    LinksDetermineBalances(cfg, s, u);
  }

  lemma CloseReopenLinks(cfg: Config, s: State, t: State, u: State, y: nat, retained: int)
    requires Quiet(s, t) || Claims(cfg, s, t, OfYear(y))
    requires Quiet(t, u) || Releases(t, u, OfYear(y))
    requires ReopenYear(cfg, t, y) == Ok(u) && LinkOf(s, OfYear(y)) == None
    ensures forall o :: LinkOf(u, o) == LinkOf(s, o)
    ensures s.journal <= u.journal && |s.docs| <= |u.docs| && |s.moves| <= |u.moves| && |s.years| <= |u.years|
  {
    assert LinkOf(u, OfYear(y)) == None;
    hide ReopenYear;
    forall o ensures LinkOf(u, o) == LinkOf(s, o) {
      if o != OfYear(y) { assert LinkOf(t, o) == LinkOf(s, o); }
    }
  }

  /** A profit-and-loss figure: closing entries left out. */
  predicate IgnoresClosing(q: Query) {
    q.closing == Some(false)
  }

  /** Neither closing nor reopening a year touches profit and loss, for any dates. */
  lemma CloseKeepsIncome(cfg: Config, s: State, y: nat, retained: int, q: Query)
    requires CloseYear(cfg, s, y, retained).Ok? && IgnoresClosing(q)
    ensures Balance(CloseYear(cfg, s, y, retained).value.journal, q) == Balance(s.journal, q)
  {
    LiveRuns.SweepFacts(cfg, s, s.years[y].end, retained);
    Swept.BalanceGrows(s.journal, CloseYear(cfg, s, y, retained).value.journal, q);
  }

  lemma ReopenKeepsIncome(cfg: Config, s: State, y: nat, q: Query)
    requires Linked.LinkedOk(cfg, s) && JournalOk(cfg, s.journal) && ReopenYear(cfg, s, y).Ok? && IgnoresClosing(q)
    ensures Balance(ReopenYear(cfg, s, y).value.journal, q) == Balance(s.journal, q)
  {
    var t := ReopenYear(cfg, s, y).value;
    assert Linked.YearOk(cfg, s, y);
    if s.years[y].closing.Some? {
      var i := s.years[y].closing.value;
      var years := s.years[y := s.years[y].(open := true, closing := None)];
      var periods := OpenUp(s.periods, years, s.journal[i].period).value;
      LiveRuns.ReverseEntryFacts(cfg, s.(years := years, periods := periods), i);
    }
    Swept.BalanceGrows(s.journal, t.journal, q);
  }
}
