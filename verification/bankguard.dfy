/** What the bank guard is for: an entry a bank line is matched to is not reversed, so the entries
    behind a reconciled statement stay in force until it is reopened. */
module BankGuards {
  import opened Money
  import opened Tables
  import opened Entries
  import opened Ledger
  import opened Settlement
  import opened YearEnd
  import opened Machine
  import opened Frames
  import opened LiveEntries
  import opened BankRuns
  import LiveRuns

  /** Every reversal added is of an entry no bank line is matched to. */
  ghost predicate Spares(s: State, t: State) {
    && s.journal <= t.journal && t.bankLines == s.bankLines
    && forall k | |s.journal| <= k < |t.journal| && t.journal[k].reverses.Some? ::
         !IsBankMatched(s.bankLines, t.journal[k].reverses.value)
  }

  lemma SparesChain(s: State, t: State, u: State)
    requires Spares(s, t) && Spares(t, u)
    ensures Spares(s, u)
  {
    hide IsBankMatched;
    forall k | |s.journal| <= k < |u.journal| && u.journal[k].reverses.Some?
      ensures !IsBankMatched(s.bankLines, u.journal[k].reverses.value)
    {
      if k < |t.journal| { assert u.journal[k] == t.journal[k]; }
    }
  }

  /** Spares only looks at the journal and the bank lines. */
  lemma SparesFrame(s: State, s1: State, t: State, t1: State)
    requires Spares(s1, t1) && s.journal == s1.journal && s.bankLines == s1.bankLines
    requires t.journal == t1.journal && t.bankLines == t1.bankLines
    ensures Spares(s, t)
  {
  }

  lemma AddEntrySpares(cfg: Config, s: State, e: Entry)
    requires AddEntry(cfg, s, e).Ok? && (e.reverses.Some? ==> !IsBankMatched(s.bankLines, e.reverses.value))
    ensures Spares(s, AddEntry(cfg, s, e).value)
  {
    hide IsBankMatched;
  }

  lemma ReverseEntrySpares(cfg: Config, s: State, i: nat)
    requires ReverseEntry(cfg, s, i).Ok?
    ensures Spares(s, ReverseEntry(cfg, s, i).value)
  {
    var e := s.journal[i];
    AddEntrySpares(cfg, s, e.(lines := Mirror(e.lines), reverses := Some(i)));
  }

  lemma {:induction false} ReverseAllSpares(cfg: Config, s: State, entries: seq<nat>)
    requires ReverseAll(cfg, s, entries).Ok?
    ensures Spares(s, ReverseAll(cfg, s, entries).value)
  {
    if entries != [] {
      var rest := entries[..|entries| - 1];
      ReverseAllSpares(cfg, s, rest);
      var s1 := ReverseAll(cfg, s, rest).value;
      ReverseEntrySpares(cfg, s1, entries[|entries| - 1]);
      SparesChain(s, s1, ReverseAll(cfg, s, entries).value);
    }
  }

  /** Steps that only add entries of their own. */
  ghost predicate AddsFresh(s: State, t: State) {
    && s.journal <= t.journal && t.bankLines == s.bankLines
    && forall k | |s.journal| <= k < |t.journal| :: t.journal[k].reverses.None?
  }

  lemma FreshSpares(s: State, t: State)
    requires AddsFresh(s, t)
    ensures Spares(s, t)
  {
    hide IsBankMatched;
  }

  lemma {:induction false} PostFxFresh(cfg: Config, s: State, settler: nat, charges: seq<nat>, fx: int)
    requires PostFx(cfg, s, settler, charges, fx).Ok?
    ensures AddsFresh(s, PostFx(cfg, s, settler, charges, fx).value)
  {
    if charges != [] {
      PostFxFresh(cfg, s, settler, charges[..|charges| - 1], fx);
    }
  }

  lemma AutoApplyFresh(cfg: Config, s: State, id: nat)
    requires AutoApply(cfg, s, id).Ok?
    ensures AddsFresh(s, AutoApply(cfg, s, id).value)
  {
    var s1 := WithRows(s, id).value;
    var list := Candidates(s1, id, |s1.docs|);
    hide InsertApps, Candidates, Amounts, Charges;
    if list != [] {
      PostFxFresh(cfg, s1, id, list, s1.fxAccount.value);
    }
  }

  lemma PostDocFresh(cfg: Config, s: State, id: nat)
    requires PostDoc(cfg, s, id).Ok?
    ensures AddsFresh(s, PostDoc(cfg, s, id).value)
  {
    hide DocLines, Total;
  }

  lemma PostMoveFresh(cfg: Config, s: State, id: nat, credit: Option<int>)
    requires PostMove(cfg, s, id, credit).Ok?
    ensures AddsFresh(s, PostMove(cfg, s, id, credit).value)
  {
    hide TransferLines, MoveAccounts;
  }

  lemma UnpostDocSpares(cfg: Config, s: State, id: nat)
    requires UnpostDoc(cfg, s, id).Ok?
    ensures Spares(s, UnpostDoc(cfg, s, id).value)
  {
    var d, t := s.docs[id].value, UnpostDoc(cfg, s, id).value;
    ReverseEntrySpares(cfg, s, d.entry.value);
    var s1 := ReverseEntry(cfg, s, d.entry.value).value;
    if IsPayment(d.kind) {
      var list := FxEntries(s.apps, id, |s.docs|);
      ReverseAllSpares(cfg, s1, list);
      var s2 := ReverseAll(cfg, s1, list).value;
      hide ReverseEntry, ReverseAll, FxEntries, Spares;
      SparesChain(s, s1, s2);
      SparesFrame(s, s, t, s2);
    } else {
      hide ReverseEntry, Spares;
      SparesFrame(s, s, t, s1);
    }
  }

  lemma LedgerStepSpares(cfg: Config, s: State, step: Step)
    requires IsLedgerStep(step) && Try(cfg, s, step).Ok?
    ensures Spares(s, Try(cfg, s, step).value)
  {
    hide PostDoc, AutoApply, UnpostDoc, PostMove, AddsFresh, ReverseEntry, IsBankMatched, DocInputOk, MoveInputOk;
    var t := Try(cfg, s, step).value;
    match step
    case PostDocument(id) =>
      PostDocFresh(cfg, s, id);
      FreshSpares(s, t);
    case ApplyDocument(id) =>
      AutoApplyFresh(cfg, s, id);
      FreshSpares(s, t);
    case UnpostDocument(id) => UnpostDocSpares(cfg, s, id);
    case PostMovement(id, credit) =>
      PostMoveFresh(cfg, s, id, credit);
      FreshSpares(s, t);
    case UnpostMovement(id) => ReverseEntrySpares(cfg, s, s.moves[id].value.entry.value);
    case _ =>
  }

  lemma CalendarStepSpares(cfg: Config, s: State, step: Step)
    requires IsCalendarStep(step) && Try(cfg, s, step).Ok?
    ensures Spares(s, Try(cfg, s, step).value)
  {
    hide IsBankMatched, ToSweep, ClosingLines, ReverseEntry;
    if step.ReopenFiscalYear? {
      var y := step.year;
      var years := s.years[y := s.years[y].(open := true, closing := None)];
      match s.years[y].closing
      case None =>
      case Some(i) =>
        var periods := OpenUp(s.periods, years, s.journal[i].period).value;
        ReverseEntrySpares(cfg, s.(years := years, periods := periods), i);
    }
  }

  /** No step reverses an entry that is matched to a bank line when it starts. */
  lemma StepSpares(cfg: Config, s: State, step: Step, i: nat)
    requires IsBankMatched(s.bankLines, i) && !IsReversed(s.journal, i)
    ensures !IsReversed(Next(cfg, s, step).journal, i)
  {
    hide Try, IsBankMatched;
    if Try(cfg, s, step).Ok? {
      var t := Try(cfg, s, step).value;
      if IsBankStep(step) {
        BankStepFrame(cfg, s, step);
      } else if IsLedgerStep(step) {
        LedgerStepSpares(cfg, s, step);
      } else if IsCalendarStep(step) {
        CalendarStepSpares(cfg, s, step);
      } else {
        SettingsFrame(cfg, s, step);
      }
    }
  }

  lemma SettingsFrame(cfg: Config, s: State, step: Step)
    requires step.SetRates? || step.SetFxAccount? || step.SetWritable?
    ensures Try(cfg, s, step).Ok? && Try(cfg, s, step).value.journal == s.journal
  {
  }

  /** The entry a line of a reconciled statement is matched to, if it is in force, stays in force
      through any further steps but the statement's own reopening. */
  lemma {:induction false} ReconciledEntriesStand(cfg: Config, steps: seq<Step>, more: seq<Step>, id: nat, b: nat)
    requires var s := Run(cfg, steps);
             && IsReconciled(s, id) && b < |s.bankLines| && IsOn(s.bankLines[b], id)
             && s.bankLines[b].value.matched.Some?
             && !IsReversed(s.journal, s.bankLines[b].value.matched.value.entry)
    requires forall step | step in more :: step != ReopenStatement(id)
    ensures var s, t := Run(cfg, steps), Run(cfg, steps + more);
            !IsReversed(t.journal, s.bankLines[b].value.matched.value.entry)
  {
    if more == [] {
      assert steps + more == steps;
    } else {
      var init, last := more[..|more| - 1], more[|more| - 1];
      assert (steps + more)[..|steps + more| - 1] == steps + init;
      assert forall step | step in init :: step in more;
      var s, u := Run(cfg, steps), Run(cfg, steps + init);
      assert Run(cfg, steps + more) == Next(cfg, u, last);
      ReconciledEntriesStand(cfg, steps, init, id, b);
      ReconciledStays(cfg, steps, init, id);
      hide Run, Next, IsReversed;
      var r := s.bankLines[b].value.matched.value;
      assert u.bankLines[b] == s.bankLines[b];
      assert IsBankMatched(u.bankLines, r.entry);
      StepSpares(cfg, u, last, r.entry);
    }
  }

  /** So the ledger still counts it: something posted links it. */
  lemma ReconciledEntriesCount(cfg: Config, steps: seq<Step>, more: seq<Step>, id: nat, b: nat)
    requires var s := Run(cfg, steps);
             && IsReconciled(s, id) && b < |s.bankLines| && IsOn(s.bankLines[b], id)
             && s.bankLines[b].value.matched.Some?
             && Unreversed(s.journal, s.bankLines[b].value.matched.value.entry)
    requires forall step | step in more :: step != ReopenStatement(id)
    ensures var s, t := Run(cfg, steps), Run(cfg, steps + more);
            exists o :: LinkOf(t, o) == Some(s.bankLines[b].value.matched.value.entry)
  {
    var s, t := Run(cfg, steps), Run(cfg, steps + more);
    var i := s.bankLines[b].value.matched.value.entry;
    ReconciledEntriesStand(cfg, steps, more, id, b);
    JournalOnlyGrows(cfg, steps, more);
    LiveRuns.EveryRunAgrees(cfg, steps + more);
    hide Run, IsReversed, Agrees, JournalOk, LinkOf;
    assert t.journal[i] == s.journal[i];
    assert Unreversed(t.journal, i);
  }

  lemma {:induction false} JournalOnlyGrows(cfg: Config, steps: seq<Step>, more: seq<Step>)
    ensures Run(cfg, steps).journal <= Run(cfg, steps + more).journal
  {
    if more == [] {
      assert steps + more == steps;
    } else {
      var init, last := more[..|more| - 1], more[|more| - 1];
      assert (steps + more)[..|steps + more| - 1] == steps + init;
      JournalOnlyGrows(cfg, steps, init);
      var u := Run(cfg, steps + init);
      assert Run(cfg, steps + more) == Next(cfg, u, last);
      hide Run;
      NextGrows(cfg, u, last);
    }
  }

  lemma NextGrows(cfg: Config, s: State, step: Step)
    ensures s.journal <= Next(cfg, s, step).journal
  {
    hide Try;
    if Try(cfg, s, step).Ok? {
      if IsBankStep(step) {
        BankStepFrame(cfg, s, step);
      } else {
        BankRuns.OtherStepFrame(cfg, s, step);
      }
    }
  }
}
