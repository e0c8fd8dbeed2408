/** What reconciliation keeps: matches pair equal amounts one to one, and a reconciled statement
    adds up and stays untouched until it is reopened. */
module BankRuns {
  import opened Money
  import opened Calendar
  import opened Tables
  import opened Entries
  import opened Ledger
  import opened Machine
  import opened Frames
  import opened Banking
  import Swept
  import Unposting

  /** The line is on an existing statement, and its match is a journal line on the statement's
      account with the same signed amount. */
  ghost predicate LineOk(s: State, b: nat) {
    HasLine(s, b) ==>
      var l := s.bankLines[b].value;
      && HasStatement(s, l.statement)
      && (l.matched.Some? ==> Pairs(s.journal, s.statements[l.statement].value.account, l.amount, l.matched.value))
  }

  /** No journal line backs two statement lines. */
  ghost predicate MatchesInjective(bankLines: seq<Option<BankLine>>) {
    forall b, c | 0 <= b < |bankLines| && 0 <= c < |bankLines| && bankLines[b].Some? && bankLines[c].Some?
                  && bankLines[b].value.matched.Some? && bankLines[b].value.matched == bankLines[c].value.matched ::
      b == c
  }

  predicate IsReconciled(s: State, id: nat) {
    HasStatement(s, id) && s.statements[id].value.reconciled
  }

  ghost predicate AddsUp(s: State, id: nat) {
    IsReconciled(s, id) ==>
      && !AnyUnmatched(s, id)
      && s.statements[id].value.opening + SumLines(s.bankLines, id) == s.statements[id].value.closing
  }

  ghost predicate BankOk(s: State) {
    && (forall b: nat :: LineOk(s, b))
    && MatchesInjective(s.bankLines)
    && (forall id: nat :: AddsUp(s, id))
  }

  /* ---- one statement's lines ---- */

  predicate IsOn(l: Option<BankLine>, id: nat) {
    l.Some? && l.value.statement == id
  }

  /** A line of s's statement, unmatched in s and still unmatched in the later u. */
  predicate HasMatchable(s: State, u: State, id: nat, line: nat) {
    && |u.bankLines| == |s.bankLines| && HasLine(s, line) && HasLine(u, line)
    && IsOn(s.bankLines[line], id) && s.bankLines[line].value.matched.None? && u.bankLines[line].value.matched.None?
  }

  /** The statement and its lines are as they were, and it has gained none. */
  ghost predicate Untouched(s: State, t: State, id: nat) {
    && HasStatement(t, id) && HasStatement(s, id) && t.statements[id] == s.statements[id]
    && |s.bankLines| <= |t.bankLines|
    && (forall b | 0 <= b < |s.bankLines| && (IsOn(s.bankLines[b], id) || IsOn(t.bankLines[b], id)) ::
          t.bankLines[b] == s.bankLines[b])
    && (forall b | |s.bankLines| <= b < |t.bankLines| :: !IsOn(t.bankLines[b], id))
  }

  lemma {:induction false} SumLinesSame(a: seq<Option<BankLine>>, b: seq<Option<BankLine>>, id: nat)
    requires |a| <= |b|
    requires forall i | 0 <= i < |a| && (IsOn(a[i], id) || IsOn(b[i], id)) :: b[i] == a[i]
    requires forall i | |a| <= i < |b| :: !IsOn(b[i], id)
    ensures SumLines(b, id) == SumLines(a, id)
    decreases |b|
  {
    if b != [] {
      var n := |b| - 1;
      if |a| == |b| {
        SumLinesSame(a[..n], b[..n], id);
      } else {
        SumLinesSame(a, b[..n], id);
      }
    }
  }

  lemma UntouchedAddsUp(s: State, t: State, id: nat)
    requires Untouched(s, t, id) && AddsUp(s, id)
    ensures AddsUp(t, id)
  {
    SumLinesSame(s.bankLines, t.bankLines, id);
    if IsReconciled(s, id) {
      var b :| 0 <= b < |s.bankLines| && IsOn(s.bankLines[b], id);
      assert IsOn(t.bankLines[b], id);
      forall c | 0 <= c < |t.bankLines| && IsOn(t.bankLines[c], id) ensures t.bankLines[c].value.matched.Some? {
        assert t.bankLines[c] == s.bankLines[c];
      }
      assert !AnyUnmatched(t, id);
    }
  }

  /* ---- matching ---- */

  lemma SetMatchKeeps(s: State, line: nat, matched: Option<LineRef>)
    requires BankOk(s) && HasLine(s, line)
    requires !IsReconciled(s, s.bankLines[line].value.statement)
    requires matched.Some? ==>
               var l := s.bankLines[line].value;
               HasStatement(s, l.statement) && IsCandidate(s, s.statements[l.statement].value.account, l, matched.value)
    ensures BankOk(SetMatch(s, line, matched))
    ensures forall id: nat | IsReconciled(s, id) :: Untouched(s, SetMatch(s, line, matched), id)
  {
    var t := SetMatch(s, line, matched);
    forall b: nat ensures LineOk(t, b) {
      assert LineOk(s, b);
    }
    forall id: nat ensures AddsUp(t, id) {
      assert AddsUp(s, id);
      if IsReconciled(s, id) {
        assert Untouched(s, t, id);
        UntouchedAddsUp(s, t, id);
      }
    }
    if matched.Some? {
      assert forall c | 0 <= c < |s.bankLines| && s.bankLines[c].Some? :: s.bankLines[c].value.matched != matched;
    }
    assert MatchesInjective(t.bankLines);
  }

  lemma {:induction false} AllRefsComplete(journal: seq<Entry>, r: LineRef)
    ensures r in AllRefs(journal) <==> IsRef(journal, r)
  {
    if journal != [] {
      var n := |journal| - 1;
      AllRefsComplete(journal[..n], r);
      var refs := seq(|journal[n].lines|, i requires 0 <= i => LineRef(n, i));
      if r.entry == n && r.line < |journal[n].lines| {
        assert refs[r.line] == r;
      }
    }
  }

  /** Only lines in the list change, and only from unmatched to matched with a candidate. */
  ghost predicate Matched(s: State, t: State, lines: seq<nat>) {
    && t == s.(bankLines := t.bankLines) && |t.bankLines| == |s.bankLines|
    && (forall b | 0 <= b < |s.bankLines| && b !in lines :: t.bankLines[b] == s.bankLines[b])
    && (forall b | b in lines :: HasLine(s, b) && HasLine(t, b)
          && t.bankLines[b].value.(matched := None) == s.bankLines[b].value.(matched := None))
  }

  /** The lines are the statement's own, unmatched and distinct. */
  ghost predicate Pending(s: State, id: nat, lines: seq<nat>) {
    && HasStatement(s, id) && !IsReconciled(s, id)
    && (forall i, j | 0 <= i < j < |lines| :: lines[i] != lines[j])
    && (forall b | b in lines ::
          HasLine(s, b) && s.bankLines[b].value.statement == id && s.bankLines[b].value.matched.None?)
  }

  lemma {:induction false} UnmatchedPending(s: State, id: nat, n: nat)
    requires HasStatement(s, id) && !IsReconciled(s, id) && n <= |s.bankLines|
    ensures Pending(s, id, Unmatched(s, id, n))
  {
    if n > 0 {
      UnmatchedPending(s, id, n - 1);
    }
  }

  lemma {:induction false} MatchEachKeeps(s: State, id: nat, lines: seq<nat>)
    requires BankOk(s) && Pending(s, id, lines)
    ensures var t := MatchEach(s, s.statements[id].value.account, lines);
            && BankOk(t) && Matched(s, t, lines)
            && forall x: nat | IsReconciled(s, x) :: Untouched(s, t, x)
  {
    if lines != [] {
      var n, account := |lines| - 1, s.statements[id].value.account;
      var rest, line := lines[..n], lines[n];
      assert Pending(s, id, rest);
      MatchEachKeeps(s, id, rest);
      var u := MatchEach(s, account, rest);
      assert line in lines && line !in rest;
      assert u.bankLines[line] == s.bankLines[line];
      MatchOneKeeps(u, id, line);
      MatchedChain(s, u, MatchOne(u, account, line), rest, line);
    }
  }

  lemma MatchedChain(s: State, u: State, t: State, rest: seq<nat>, line: nat)
    requires Matched(s, u, rest) && Matched(u, t, [line]) && line !in rest
    requires forall x: nat | IsReconciled(s, x) :: Untouched(s, u, x)
    requires forall x: nat | IsReconciled(u, x) :: Untouched(u, t, x)
    ensures Matched(s, t, rest + [line])
    ensures forall x: nat | IsReconciled(s, x) :: Untouched(s, t, x)
  {
    forall x: nat | IsReconciled(s, x) ensures Untouched(s, t, x) {
      assert IsReconciled(u, x);
    }
  }

  lemma MatchOneKeeps(s: State, id: nat, line: nat)
    requires BankOk(s) && HasStatement(s, id) && !IsReconciled(s, id)
    requires HasLine(s, line) && s.bankLines[line].value.statement == id
    ensures var t := MatchOne(s, s.statements[id].value.account, line);
            && BankOk(t) && Matched(s, t, [line])
            && forall x: nat | IsReconciled(s, x) :: Untouched(s, t, x)
  {
    var account := s.statements[id].value.account;
    match Nearest(s, account, s.bankLines[line].value, AllRefs(s.journal))
    case None =>
    case Some(r) => SetMatchKeeps(s, line, Some(r));
  }

  /* ---- every step ---- */

  lemma LedgerGrowthKeeps(s: State, t: State)
    requires BankOk(s) && s.journal <= t.journal && t.statements == s.statements && t.bankLines == s.bankLines
    ensures BankOk(t)
  {
    forall b: nat ensures LineOk(t, b) { assert LineOk(s, b); }
    forall id: nat ensures AddsUp(t, id) { assert AddsUp(s, id); }
  }

  /** A step on open statements only: reconciled ones are untouched, others may change freely. */
  lemma OpenStepKeeps(s: State, t: State)
    requires BankOk(s) && t.journal == s.journal
    requires forall id: nat | IsReconciled(t, id) :: IsReconciled(s, id) && Untouched(s, t, id)
    requires forall b: nat :: LineOk(t, b)
    requires MatchesInjective(t.bankLines)
    ensures BankOk(t)
  {
    forall id: nat ensures AddsUp(t, id) {
      assert AddsUp(s, id);
      if IsReconciled(t, id) { UntouchedAddsUp(s, t, id); }
    }
  }

  lemma StatementStepKeeps(cfg: Config, s: State, step: Step)
    requires BankOk(s) && Try(cfg, s, step).Ok?
    requires step.CreateStatement? || step.UpdateStatement? || step.DeleteStatement?
    ensures BankOk(Try(cfg, s, step).value)
    ensures forall id: nat | IsReconciled(s, id) :: Untouched(s, Try(cfg, s, step).value, id)
  {
    var t := Try(cfg, s, step).value;
    forall b: nat ensures LineOk(t, b) { assert LineOk(s, b); }
    OpenStepKeeps(s, t);
  }

  lemma LineStepKeeps(cfg: Config, s: State, step: Step)
    requires BankOk(s) && Try(cfg, s, step).Ok?
    requires step.AddBankLine? || step.DeleteBankLine?
    ensures BankOk(Try(cfg, s, step).value)
    ensures forall id: nat | IsReconciled(s, id) :: Untouched(s, Try(cfg, s, step).value, id)
  {
    var t := Try(cfg, s, step).value;
    forall b: nat ensures LineOk(t, b) { assert LineOk(s, b); }
    OpenStepKeeps(s, t);
  }

  lemma AutoMatchKeeps(s: State, id: nat)
    requires BankOk(s) && AutoMatch(s, id).Ok?
    ensures var t := AutoMatch(s, id).value;
            && BankOk(t) && Matched(s, t, Unmatched(s, id, |s.bankLines|))
            && forall x: nat | IsReconciled(s, x) :: Untouched(s, t, x)
  {
    UnmatchedPending(s, id, |s.bankLines|);
    MatchEachKeeps(s, id, Unmatched(s, id, |s.bankLines|));
  }

  lemma MatchStepKeeps(cfg: Config, s: State, step: Step)
    requires BankOk(s) && Try(cfg, s, step).Ok?
    requires step.MatchBankLine? || step.UnmatchBankLine? || step.AutoMatchStatement?
    ensures BankOk(Try(cfg, s, step).value)
    ensures forall id: nat | IsReconciled(s, id) :: Untouched(s, Try(cfg, s, step).value, id)
  {
    match step
    case MatchBankLine(line, r) => SetMatchKeeps(s, line, Some(r));
    case UnmatchBankLine(line) => SetMatchKeeps(s, line, None);
    case AutoMatchStatement(id) => AutoMatchKeeps(s, id);
  }

  lemma ReconcileKeeps(cfg: Config, s: State, id: nat)
    requires BankOk(s) && Reconcile(cfg, s, id).Ok?
    ensures BankOk(Reconcile(cfg, s, id).value)
    ensures forall x: nat | IsReconciled(s, x) :: Untouched(s, Reconcile(cfg, s, id).value, x)
  {
    var t := Reconcile(cfg, s, id).value;
    forall b: nat ensures LineOk(t, b) { assert LineOk(s, b); }
    forall x: nat ensures AddsUp(t, x) {
      assert AddsUp(s, x);
      if x != id && IsReconciled(s, x) { UntouchedAddsUp(s, t, x); }
    }
  }

  lemma ReopenKeeps(cfg: Config, s: State, id: nat)
    requires BankOk(s) && Banking.ReopenStatement(cfg, s, id).Ok?
    ensures BankOk(Banking.ReopenStatement(cfg, s, id).value)
    ensures forall x: nat | IsReconciled(s, x) && x != id :: Untouched(s, Banking.ReopenStatement(cfg, s, id).value, x)
  {
    var t := Banking.ReopenStatement(cfg, s, id).value;
    forall b: nat ensures LineOk(t, b) { assert LineOk(s, b); }
    OpenStepKeeps(s, t);
  }

  /** Steps outside the bank tables. */
  lemma OtherStepFrame(cfg: Config, s: State, step: Step)
    requires Try(cfg, s, step).Ok? && !IsBankStep(step)
    ensures var t := Try(cfg, s, step).value;
            s.journal <= t.journal && t.statements == s.statements && t.bankLines == s.bankLines
  {
    if IsLedgerStep(step) {
      LedgerStepFrame(cfg, s, step);
    }
  }

  /** One step: the rules hold afterwards, and only reopening a reconciled statement touches it. */
  lemma StepKeeps(cfg: Config, s: State, step: Step)
    requires BankOk(s) && Try(cfg, s, step).Ok?
    ensures BankOk(Try(cfg, s, step).value)
    ensures forall id: nat | IsReconciled(s, id) && step != ReopenStatement(id) ::
              Untouched(s, Try(cfg, s, step).value, id)
  {
    hide BankOk, Reconcile, Banking.ReopenStatement, AutoMatch, MatchLine, UnmatchLine;
    if step.ReconcileStatement? {
      ReconcileKeeps(cfg, s, step.id);
    } else if step.ReopenStatement? {
      ReopenKeeps(cfg, s, step.id);
    } else if step.CreateStatement? || step.UpdateStatement? || step.DeleteStatement? {
      StatementStepKeeps(cfg, s, step);
    } else if step.AddBankLine? || step.DeleteBankLine? {
      LineStepKeeps(cfg, s, step);
    } else if step.MatchBankLine? || step.UnmatchBankLine? || step.AutoMatchStatement? {
      MatchStepKeeps(cfg, s, step);
    } else {
      OtherStepFrame(cfg, s, step);
      LedgerGrowthKeeps(s, Try(cfg, s, step).value);
    }
  }

  lemma EmptyOk()
    ensures BankOk(EMPTY)
  {
  }

  lemma {:induction false} EveryRunKeepsBank(cfg: Config, steps: seq<Step>)
    ensures BankOk(Run(cfg, steps))
  {
    if steps == [] {
      EmptyOk();
    } else {
      EveryRunKeepsBank(cfg, steps[..|steps| - 1]);
      var s, step := Run(cfg, steps[..|steps| - 1]), steps[|steps| - 1];
      hide BankOk, Try;
      if Try(cfg, s, step).Ok? {
        StepKeeps(cfg, s, step);
      }
    }
  }

  /* ---- what a reconciled statement says about the ledger ---- */

  /** The journal amounts its lines are matched to. */
  function SumMatched(s: State, id: nat, n: nat): int
    requires n <= |s.bankLines|
  {
    if n == 0 then 0
    else
      var l := s.bankLines[n - 1];
      SumMatched(s, id, n - 1)
      + (if IsOn(l, id) && l.value.matched.Some? && IsRef(s.journal, l.value.matched.value) then
           Net(s.journal[l.value.matched.value.entry].lines[l.value.matched.value.line], false)
         else 0)
  }

  lemma {:induction false} SumLinesMatched(s: State, id: nat, n: nat)
    requires BankOk(s) && !AnyUnmatched(s, id) && n <= |s.bankLines|
    ensures SumLines(s.bankLines[..n], id) == SumMatched(s, id, n)
  {
    if n > 0 {
      SumLinesMatched(s, id, n - 1);
      assert s.bankLines[..n][..n - 1] == s.bankLines[..n - 1];
      assert LineOk(s, n - 1);
    }
  }

  /** In every reachable state a reconciled statement's closing balance is its opening balance plus
      debit minus credit over the journal lines it is matched to, no line used twice anywhere. */
  lemma ReconciledMeansLedger(cfg: Config, steps: seq<Step>, id: nat)
    requires IsReconciled(Run(cfg, steps), id)
    ensures var s := Run(cfg, steps);
            && s.statements[id].value.closing == s.statements[id].value.opening + SumMatched(s, id, |s.bankLines|)
            && !AnyUnmatched(s, id) && MatchesInjective(s.bankLines)
  {
    var s := Run(cfg, steps);
    EveryRunKeepsBank(cfg, steps);
    hide Run;
    assert AddsUp(s, id);
    SumLinesMatched(s, id, |s.bankLines|);
    assert s.bankLines[..|s.bankLines|] == s.bankLines;
  }

  /** Through any further steps but its own reopening a reconciled statement, its lines and their
      matches stay exactly as they are. */
  lemma {:induction false} ReconciledStays(cfg: Config, steps: seq<Step>, more: seq<Step>, id: nat)
    requires IsReconciled(Run(cfg, steps), id) && forall step | step in more :: step != ReopenStatement(id)
    ensures Untouched(Run(cfg, steps), Run(cfg, steps + more), id)
  {
    if more == [] {
      assert steps + more == steps;
    } else {
      var init, last := more[..|more| - 1], more[|more| - 1];
      assert (steps + more)[..|steps + more| - 1] == steps + init;
      assert forall step | step in init :: step in more;
      assert last in more;
      ReconciledStays(cfg, steps, init, id);
      EveryRunKeepsBank(cfg, steps + init);
      assert Run(cfg, steps + more) == Next(cfg, Run(cfg, steps + init), last);
      hide *;
      StaysOneMore(cfg, Run(cfg, steps), Run(cfg, steps + init), last, id);
    }
  }

  lemma StaysOneMore(cfg: Config, s: State, t: State, step: Step, id: nat)
    requires IsReconciled(s, id) && Untouched(s, t, id) && BankOk(t) && step != ReopenStatement(id)
    ensures Untouched(s, Next(cfg, t, step), id)
  {
    hide Try, BankOk;
    if Try(cfg, t, step).Ok? {
      StepKeeps(cfg, t, step);
    }
  }
}
