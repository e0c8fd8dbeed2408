/** Which tables each operation leaves alone. */
module Frames {
  import opened Tables
  import opened Ledger
  import opened Settlement
  import opened YearEnd
  import opened Machine
  import Banking

  /** Documents, movements, applications and periods may change and the journal may grow. */
  ghost predicate LedgerFrame(s: State, t: State) {
    && s.journal <= t.journal
    && t == s.(journal := t.journal, periods := t.periods, docs := t.docs, moves := t.moves, apps := t.apps)
  }

  /** Only bank statements and their lines may change. */
  ghost predicate BankFrame(s: State, t: State) {
    t == s.(statements := t.statements, bankLines := t.bankLines)
  }

  predicate IsLedgerStep(step: Step) {
    || step.CreateDocument? || step.EditDocument? || step.DeleteDocument? || step.PostDocument?
    || step.ApplyDocument? || step.UnpostDocument? || step.CreateMovement? || step.EditMovement?
    || step.DeleteMovement? || step.PostMovement? || step.UnpostMovement?
  }

  predicate IsBankStep(step: Step) {
    || step.CreateStatement? || step.UpdateStatement? || step.DeleteStatement? || step.AddBankLine?
    || step.DeleteBankLine? || step.MatchBankLine? || step.UnmatchBankLine? || step.AutoMatchStatement?
    || step.ReconcileStatement? || step.ReopenStatement?
  }

  predicate IsCalendarStep(step: Step) {
    step.CloseFiscalYear? || step.ReopenFiscalYear? || step.CreateYear? || step.CreatePeriod? || step.EditPeriod?
  }

  lemma {:induction false} PostFxFrame(cfg: Config, s: State, settler: nat, charges: seq<nat>, fx: int)
    requires PostFx(cfg, s, settler, charges, fx).Ok?
    ensures var t := PostFx(cfg, s, settler, charges, fx).value;
            s.journal <= t.journal && t == s.(journal := t.journal, periods := t.periods, apps := t.apps)
  {
    if charges != [] {
      PostFxFrame(cfg, s, settler, charges[..|charges| - 1], fx);
    }
  }

  lemma {:induction false} ReverseAllFrame(cfg: Config, s: State, entries: seq<nat>)
    requires ReverseAll(cfg, s, entries).Ok?
    ensures var t := ReverseAll(cfg, s, entries).value;
            s.journal <= t.journal && t == s.(journal := t.journal, periods := t.periods)
  {
    if entries != [] {
      ReverseAllFrame(cfg, s, entries[..|entries| - 1]);
    }
  }

  lemma {:induction false} MatchEachFrame(s: State, account: int, lines: seq<nat>)
    ensures var t := Banking.MatchEach(s, account, lines);
            t == s.(bankLines := t.bankLines) && |t.bankLines| == |s.bankLines|
  {
    if lines != [] {
      MatchEachFrame(s, account, lines[..|lines| - 1]);
    }
  }

  lemma ApplyFrame(cfg: Config, s: State, id: nat)
    requires AutoApply(cfg, s, id).Ok?
    ensures LedgerFrame(s, AutoApply(cfg, s, id).value)
  {
    var s1 := WithRows(s, id).value;
    var list := Candidates(s1, id, |s1.docs|);
    if list != [] {
      PostFxFrame(cfg, s1, id, list, s1.fxAccount.value);
    }
  }

  lemma UnpostFrame(cfg: Config, s: State, id: nat)
    requires UnpostDoc(cfg, s, id).Ok?
    ensures LedgerFrame(s, UnpostDoc(cfg, s, id).value)
  {
    var d := s.docs[id].value;
    if IsPayment(d.kind) {
      ReverseAllFrame(cfg, ReverseEntry(cfg, s, d.entry.value).value, FxEntries(s.apps, id, |s.docs|));
    }
  }

  lemma LedgerStepFrame(cfg: Config, s: State, step: Step)
    requires IsLedgerStep(step) && Try(cfg, s, step).Ok?
    ensures LedgerFrame(s, Try(cfg, s, step).value)
  {
    hide AutoApply, UnpostDoc;
    if step.ApplyDocument? {
      ApplyFrame(cfg, s, step.id);
    } else if step.UnpostDocument? {
      UnpostFrame(cfg, s, step.id);
    }
  }

  lemma StatementStepFrame(cfg: Config, s: State, step: Step)
    requires IsBankStep(step) && !step.AutoMatchStatement? && Try(cfg, s, step).Ok?
    ensures BankFrame(s, Try(cfg, s, step).value)
  {
    hide Banking.SumLines, Banking.AnyUnmatched, Banking.CashAccount, Banking.Pairs, Banking.IsUsed;
  }

  lemma BankStepFrame(cfg: Config, s: State, step: Step)
    requires IsBankStep(step) && Try(cfg, s, step).Ok?
    ensures BankFrame(s, Try(cfg, s, step).value)
  {
    if step.AutoMatchStatement? {
      MatchEachFrame(s, s.statements[step.id].value.account, Banking.Unmatched(s, step.id, |s.bankLines|));
    } else {
      hide Try;
      StatementStepFrame(cfg, s, step);
    }
  }
}
