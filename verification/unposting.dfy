/** Unposting gives back what posting and applying took, and the subledger's rules hold in every
    reachable state. */
module Unposting {
  import opened Money
  import opened Sums
  import opened Calendar
  import opened Tables
  import opened Entries
  import opened Periods
  import opened Ledger
  import opened Settlement
  import opened YearEnd
  import opened Machine
  import opened Frames
  import opened Subledger
  import Applying

  /** Letting a settler's applications go takes back exactly what it had put on each charge. */
  lemma DropSettlerSums(apps: map<(nat, nat), App>, settler: nat, n: nat, id: nat)
    requires settler < n
    ensures Settled(WithoutSettler(apps, settler), n, id) == Settled(apps, n, id) - Amount(apps, settler, id)
    ensures Applied(WithoutSettler(apps, settler), n, id) == if id == settler then 0 else Applied(apps, n, id)
  {
    var after := WithoutSettler(apps, settler);
    forall k: nat, c: nat ensures Amount(after, k, c) == if k == settler then 0 else Amount(apps, k, c) {
      assert (k, c) in after <==> (k, c) in apps && (k, c).0 != settler;
    }
    SumToChange(n, (k: nat) => Amount(apps, k, id), (k: nat) => Amount(after, k, id), settler);
    if id == settler {
      SumToZero(n, (c: nat) => Amount(after, id, c));
    } else {
      SumToSame(n, (c: nat) => Amount(apps, id, c), (c: nat) => Amount(after, id, c));
    }
  }

  lemma DropSettlerKeeps(cfg: Config, s: State, settler: nat)
    requires SubledgerOk(cfg, s) && settler < |s.docs|
    ensures SubledgerOk(cfg, s.(apps := WithoutSettler(s.apps, settler)))
  {
    var t := s.(apps := WithoutSettler(s.apps, settler));
    forall x: nat ensures DocOk(cfg, t, x) { assert DocOk(cfg, s, x); }
    forall k: nat, c: nat ensures RowOk(t, k, c) && FxOk(cfg, t, k, c) {
      assert RowOk(s, k, c) && FxOk(cfg, s, k, c) && DocOk(cfg, s, k) && DocOk(cfg, s, c);
      DropSettlerFx(cfg, s, settler, k, c);
    }
    forall x: nat ensures CapOk(t, x) {
      assert CapOk(s, x) && RowOk(s, settler, x) && DocOk(cfg, s, x);
      DropSettlerSums(s.apps, settler, |s.docs|, x);
    }
  }

  lemma DropSettlerFx(cfg: Config, s: State, settler: nat, k: nat, c: nat)
    requires RowOk(s, k, c) && FxOk(cfg, s, k, c) && DocOk(cfg, s, k) && DocOk(cfg, s, c)
    ensures FxOk(cfg, s.(apps := WithoutSettler(s.apps, settler)), k, c)
  {
    var t := s.(apps := WithoutSettler(s.apps, settler));
    hide DocOk, FxOk;
    if (k, c) in t.apps {
      FxCarries(cfg, s, t, k, c);
    } else {
      NoFxToBook(cfg, t, k, c);
    }
  }

  /** What unposting a document leaves: its row a draft, a settling payment's applications gone. */
  lemma UnpostDocTables(cfg: Config, s: State, id: nat)
    requires UnpostDoc(cfg, s, id).Ok?
    ensures var t := UnpostDoc(cfg, s, id).value;
            && HasDoc(s, id)
            && var d := s.docs[id].value;
               && s.journal <= t.journal
               && t == s.(journal := t.journal, periods := t.periods,
                          docs := s.docs[id := Some(d.(entry := None))],
                          apps := if IsPayment(d.kind) then WithoutSettler(s.apps, id) else s.apps)
               && (IsCharge(d.kind) ==> !HasSettlers(s, id))
               && (!IsCharge(d.kind) && !IsPayment(d.kind) ==> !HasCharges(s, id))
  {
    var d := s.docs[id].value;
    if IsPayment(d.kind) {
      ReverseAllFrame(cfg, ReverseEntry(cfg, s, d.entry.value).value, FxEntries(s.apps, id, |s.docs|));
    }
  }

  /** No application touches the document that is let go. */
  lemma UnpostUntouched(cfg: Config, s: State, id: nat)
    requires SubledgerOk(cfg, s) && UnpostDoc(cfg, s, id).Ok?
    ensures var apps := UnpostDoc(cfg, s, id).value.apps;
            forall k: nat :: (k, id) !in apps && (id, k) !in apps
  {
    UnpostDocTables(cfg, s, id);
    var apps := UnpostDoc(cfg, s, id).value.apps;
    hide UnpostDoc;
    forall k: nat ensures (k, id) !in apps && (id, k) !in apps {
      assert RowOk(s, k, id) && RowOk(s, id, k);
    }
  }

  lemma UnpostDocKeeps(cfg: Config, s: State, id: nat)
    requires SubledgerOk(cfg, s) && UnpostDoc(cfg, s, id).Ok?
    ensures SubledgerOk(cfg, UnpostDoc(cfg, s, id).value)
  {
    UnpostDocTables(cfg, s, id);
    UnpostUntouched(cfg, s, id);
    var t := UnpostDoc(cfg, s, id).value;
    var s1 := s.(apps := t.apps);
    hide UnpostDoc, SubledgerOk;
    if IsPayment(s.docs[id].value.kind) {
      DropSettlerKeeps(cfg, s, id);
    } else {
      assert s1 == s;
    }
    LetGoKeeps(cfg, s1, t, id);
  }

  lemma LetGoKeeps(cfg: Config, s: State, t: State, id: nat)
    requires SubledgerOk(cfg, s) && HasDoc(s, id)
    requires s.journal <= t.journal && t.apps == s.apps
    requires t.docs == s.docs[id := Some(s.docs[id].value.(entry := None))]
    requires forall k: nat :: (k, id) !in s.apps && (id, k) !in s.apps
    ensures SubledgerOk(cfg, t)
  {
    RowsInRange(cfg, s);
    UndisturbedKeeps(cfg, s, t);
  }

  /* ---- every run ---- */

  /** Steps that touch neither documents nor applications. */
  lemma OtherStepFrame(cfg: Config, s: State, step: Step)
    requires Try(cfg, s, step).Ok?
    requires !IsLedgerStep(step) || step.CreateMovement? || step.EditMovement? || step.DeleteMovement?
             || step.PostMovement? || step.UnpostMovement?
    ensures var t := Try(cfg, s, step).value;
            s.journal <= t.journal && t.docs == s.docs && t.apps == s.apps
  {
    hide DocInputOk, MoveInputOk, MoveAccounts, TransferLines, ToSweep, ClosingLines, PeriodInputOk, YearInputOk;
    if IsBankStep(step) {
      hide Try;
      BankStepFrame(cfg, s, step);
    }
  }

  lemma StepKeeps(cfg: Config, s: State, step: Step)
    requires SubledgerOk(cfg, s) && Try(cfg, s, step).Ok?
    ensures SubledgerOk(cfg, Try(cfg, s, step).value)
  {
    hide SubledgerOk, PostDoc, AutoApply, UnpostDoc;
    match step
    case CreateDocument(_) => DraftStepKeeps(cfg, s, step);
    case EditDocument(_, _) => DraftStepKeeps(cfg, s, step);
    case DeleteDocument(_) => DraftStepKeeps(cfg, s, step);
    case PostDocument(id) => PostDocKeeps(cfg, s, id);
    case ApplyDocument(id) => Applying.AutoApplyKeeps(cfg, s, id);
    case UnpostDocument(id) => UnpostDocKeeps(cfg, s, id);
    case _ =>
      OtherStepFrame(cfg, s, step);
      DocsSameKeeps(cfg, s, Try(cfg, s, step).value);
  }

  lemma EmptyOk(cfg: Config)
    ensures SubledgerOk(cfg, EMPTY)
  {
  }

  /** In every reachable state applications join posted documents of one party and currency, no
      document is over-applied, drafts carry none, posted documents have the entry posting them
      writes, and every realized difference is booked. */
  lemma {:induction false} EveryRunKeepsSubledger(cfg: Config, steps: seq<Step>)
    ensures SubledgerOk(cfg, Run(cfg, steps))
  {
    if steps == [] {
      EmptyOk(cfg);
    } else {
      EveryRunKeepsSubledger(cfg, steps[..|steps| - 1]);
      var s, step := Run(cfg, steps[..|steps| - 1]), steps[|steps| - 1];
      hide SubledgerOk, Try;
      if Try(cfg, s, step).Ok? {
        StepKeeps(cfg, s, step);
      }
    }
  }

  /** Spelled out: what every application there is, in every reachable state, joins. */
  lemma ApplicationsJoin(cfg: Config, steps: seq<Step>, k: nat, c: nat)
    requires (k, c) in Run(cfg, steps).apps
    ensures var s := Run(cfg, steps);
            && k < |s.docs| && c < |s.docs| && s.docs[k].Some? && s.docs[c].Some?
            && var settler, charge := s.docs[k].value, s.docs[c].value;
               && settler.entry.Some? && charge.entry.Some?
               && settler.party == charge.party && settler.currency == charge.currency
               && (if charge.kind == SalesInvoice then
                     settler.kind == CustomerPayment || settler.kind == SalesCreditNote
                   else
                     charge.kind == PurchaseBill
                     && (settler.kind == SupplierPayment || settler.kind == PurchaseCreditNote))
               && 0 < s.apps[(k, c)].amount
               && Settled(s.apps, |s.docs|, c) <= Total(charge) && Applied(s.apps, |s.docs|, k) <= Total(settler)
  {
    EveryRunKeepsSubledger(cfg, steps);
    hide Run, Settled, Applied, Total;
    var s := Run(cfg, steps);
    assert RowOk(s, k, c) && CapOk(s, k) && CapOk(s, c);
  }
}
