/** What invoices, bills, credit notes, payments and their applications keep, whatever is
    posted, applied, unposted and deleted in whatever order. */
module Subledger {
  import opened Money
  import opened Sums
  import opened Calendar
  import opened Tables
  import opened Entries
  import opened Periods
  import opened Ledger
  import opened Settlement
  import opened Machine
  import opened Frames

  /** The journal entry a posted document links. */
  function EntryOf(s: State, id: nat): Entry
    requires IsPosted(s, id) && s.docs[id].value.entry.value < |s.journal|
  {
    s.journal[s.docs[id].value.entry.value]
  }

  /** A posted document's entry is exactly what posting it at that entry's rate writes. */
  ghost predicate DocOk(cfg: Config, s: State, id: nat) {
    IsPosted(s, id) ==>
      var d := s.docs[id].value;
      && Postable(d) && Control(cfg, d).Some? && d.entry.value < |s.journal|
      && var e := EntryOf(s, id);
         && e.lines == DocLines(Control(cfg, d).value, d, e.rate)
         && e.date == d.date && e.currency == d.currency && !e.isClosing
  }

  /** A positive amount, from a posted settler to a posted charge of its side, party and currency. */
  ghost predicate RowOk(s: State, k: nat, c: nat) {
    (k, c) in s.apps ==> Matches(s, k, c) && 0 < s.apps[(k, c)].amount
  }

  /** No charge is settled, and no settler applied, beyond its total. */
  ghost predicate CapOk(s: State, id: nat) {
    IsPosted(s, id) ==>
      && Settled(s.apps, |s.docs|, id) <= Total(s.docs[id].value)
      && Applied(s.apps, |s.docs|, id) <= Total(s.docs[id].value)
  }

  /** An application links an FX entry exactly when it realizes a difference, and that entry
      books the difference against the party's control account on the settlement date. */
  ghost predicate FxOk(cfg: Config, s: State, k: nat, c: nat) {
    (k, c) in s.apps && Matches(s, k, c) ==>
      match s.apps[(k, c)].fx
      case None => Difference(s, k, c) == 0
      case Some(i) =>
        && Difference(s, k, c) != 0 && i < |s.journal|
        && FxEntryOk(cfg, s.journal[i], s.docs[k].value, FxValue(s, k, c))
  }

  ghost predicate FxEntryOk(cfg: Config, e: Entry, d: Doc, v: int) {
    && e.date == d.date && e.currency == cfg.base && !e.isClosing
    && Control(cfg, d).Some?
    && exists fx: int :: e.lines == FxLines(Control(cfg, d).value, fx, v)
  }

  /** All of it but the exchange differences. */
  ghost predicate RowsOk(cfg: Config, s: State) {
    && (forall id: nat :: DocOk(cfg, s, id))
    && (forall k: nat, c: nat :: RowOk(s, k, c))
    && (forall id: nat :: CapOk(s, id))
  }

  ghost predicate SubledgerOk(cfg: Config, s: State) {
    RowsOk(cfg, s) && forall k: nat, c: nat :: FxOk(cfg, s, k, c)
  }

  /* ---- sums of applications ---- */

  /** A document no application touches is unsettled and unapplied. */
  lemma Untouched(apps: map<(nat, nat), App>, n: nat, id: nat)
    requires forall k: nat :: (k, id) !in apps && (id, k) !in apps
    ensures Settled(apps, n, id) == 0 && Applied(apps, n, id) == 0
  {
    SumToZero(n, (k: nat) => Amount(apps, k, id));
    SumToZero(n, (c: nat) => Amount(apps, id, c));
  }

  /** Counting rows that do not exist adds nothing. */
  lemma MoreRows(apps: map<(nat, nat), App>, m: nat, n: nat, id: nat)
    requires m <= n
    requires forall k: nat, c: nat | (k, c) in apps :: k < m && c < m
    ensures Settled(apps, n, id) == Settled(apps, m, id) && Applied(apps, n, id) == Applied(apps, m, id)
  {
    SumToExtend(m, n, (k: nat) => Amount(apps, k, id));
    SumToExtend(m, n, (c: nat) => Amount(apps, id, c));
  }

  /** A settler is never settled and a charge never applied. */
  lemma OneSided(cfg: Config, s: State, id: nat)
    requires RowsOk(cfg, s) && HasDoc(s, id)
    ensures IsCharge(s.docs[id].value.kind) ==> Applied(s.apps, |s.docs|, id) == 0
    ensures !IsCharge(s.docs[id].value.kind) ==> Settled(s.apps, |s.docs|, id) == 0
  {
    if IsCharge(s.docs[id].value.kind) {
      forall c: nat ensures Amount(s.apps, id, c) == 0 { assert RowOk(s, id, c); }
      SumToZero(|s.docs|, (c: nat) => Amount(s.apps, id, c));
    } else {
      forall k: nat ensures Amount(s.apps, k, id) == 0 { assert RowOk(s, k, id); }
      SumToZero(|s.docs|, (k: nat) => Amount(s.apps, k, id));
    }
  }

  lemma RowsInRange(cfg: Config, s: State)
    requires RowsOk(cfg, s)
    ensures forall k: nat, c: nat | (k, c) in s.apps :: k < |s.docs| && c < |s.docs|
  {
    forall k: nat, c: nat | (k, c) in s.apps ensures k < |s.docs| && c < |s.docs| {
      assert RowOk(s, k, c);
    }
  }

  /** Nothing touches a draft. */
  lemma DraftsUntouched(cfg: Config, s: State, id: nat)
    requires RowsOk(cfg, s) && !IsPosted(s, id)
    ensures forall k: nat :: (k, id) !in s.apps && (id, k) !in s.apps
  {
    forall k: nat ensures (k, id) !in s.apps && (id, k) !in s.apps {
      assert RowOk(s, k, id) && RowOk(s, id, k);
    }
  }

  /* ---- steps that leave the applications alone ---- */

  /** Rows may be added, and rows no application touches may change, as long as what is posted
      afterwards has the entry it should. */
  ghost predicate Undisturbed(cfg: Config, s: State, t: State) {
    && s.journal <= t.journal && |s.docs| <= |t.docs| && t.apps == s.apps
    && (forall id: nat | IsPosted(t, id) && !(id < |s.docs| && t.docs[id] == s.docs[id]) ::
          DocOk(cfg, t, id) && forall k: nat :: (k, id) !in s.apps && (id, k) !in s.apps)
    && (forall k: nat, c: nat | (k, c) in s.apps ::
          k < |s.docs| && c < |s.docs| && t.docs[k] == s.docs[k] && t.docs[c] == s.docs[c])
  }

  lemma UndisturbedKeeps(cfg: Config, s: State, t: State)
    requires SubledgerOk(cfg, s) && Undisturbed(cfg, s, t)
    ensures SubledgerOk(cfg, t)
  {
    UndisturbedRows(cfg, s, t);
    forall k: nat, c: nat ensures FxOk(cfg, t, k, c) {
      UndisturbedFx(cfg, s, t, k, c);
    }
  }

  lemma UndisturbedRows(cfg: Config, s: State, t: State)
    requires RowsOk(cfg, s) && Undisturbed(cfg, s, t)
    ensures RowsOk(cfg, t)
  {
    forall id: nat ensures DocOk(cfg, t, id) {
      if IsPosted(t, id) && id < |s.docs| && t.docs[id] == s.docs[id] {
        assert DocOk(cfg, s, id);
      }
    }
    forall k: nat, c: nat ensures RowOk(t, k, c) {
      assert RowOk(s, k, c);
    }
    forall id: nat ensures CapOk(t, id) {
      if IsPosted(t, id) {
        if id < |s.docs| && t.docs[id] == s.docs[id] {
          assert CapOk(s, id);
          RowsInRange(cfg, s);
          MoreRows(s.apps, |s.docs|, |t.docs|, id);
        } else {
          Untouched(t.apps, |t.docs|, id);
          assert DocOk(cfg, t, id);
        }
      }
    }
  }

  /** An application whose row and documents stay keeps its difference and its FX entry. */
  lemma FxCarries(cfg: Config, s: State, t: State, k: nat, c: nat)
    requires DocOk(cfg, s, k) && DocOk(cfg, s, c) && FxOk(cfg, s, k, c) && Matches(s, k, c)
    requires s.journal <= t.journal && |s.docs| <= |t.docs|
    requires t.docs[k] == s.docs[k] && t.docs[c] == s.docs[c]
    requires (k, c) in s.apps && (k, c) in t.apps && t.apps[(k, c)] == s.apps[(k, c)]
    ensures Difference(t, k, c) == Difference(s, k, c)
    ensures FxOk(cfg, t, k, c)
  {
    hide DocLines, FxLines, Postable, Control, Convert, FxEntryOk;
  }

  lemma UndisturbedFx(cfg: Config, s: State, t: State, k: nat, c: nat)
    requires RowsOk(cfg, s) && FxOk(cfg, s, k, c) && Undisturbed(cfg, s, t)
    ensures FxOk(cfg, t, k, c)
  {
    hide DocOk, FxOk;
    if (k, c) in s.apps {
      assert RowOk(s, k, c) && DocOk(cfg, s, k) && DocOk(cfg, s, c);
      FxCarries(cfg, s, t, k, c);
    } else {
      NoFxToBook(cfg, t, k, c);
    }
  }

  lemma NoFxToBook(cfg: Config, s: State, k: nat, c: nat)
    requires (k, c) !in s.apps
    ensures FxOk(cfg, s, k, c)
  {
  }

  lemma DocsSameKeeps(cfg: Config, s: State, t: State)
    requires SubledgerOk(cfg, s)
    requires s.journal <= t.journal && t.docs == s.docs && t.apps == s.apps
    ensures SubledgerOk(cfg, t)
  {
    RowsInRange(cfg, s);
    UndisturbedKeeps(cfg, s, t);
  }

  /** One draft or new row is rewritten. */
  lemma DraftKeeps(cfg: Config, s: State, t: State, id: nat)
    requires SubledgerOk(cfg, s)
    requires s.journal <= t.journal && t.apps == s.apps
    requires |s.docs| <= |t.docs| && id < |t.docs| && !IsPosted(s, id)
    requires forall i: nat | i < |t.docs| && i != id :: i < |s.docs| && t.docs[i] == s.docs[i]
    requires DocOk(cfg, t, id)
    ensures SubledgerOk(cfg, t)
  {
    RowsInRange(cfg, s);
    DraftsUntouched(cfg, s, id);
    UndisturbedKeeps(cfg, s, t);
  }

  lemma DraftStepKeeps(cfg: Config, s: State, step: Step)
    requires SubledgerOk(cfg, s) && Try(cfg, s, step).Ok?
    requires step.CreateDocument? || step.EditDocument? || step.DeleteDocument?
    ensures SubledgerOk(cfg, Try(cfg, s, step).value)
  {
    var t := Try(cfg, s, step).value;
    var id := match step case CreateDocument(_) => |s.docs| case EditDocument(i, _) => i case DeleteDocument(i) => i;
    hide SubledgerOk;
    DraftKeeps(cfg, s, t, id);
  }

  /** A document's lines do not depend on what it links. */
  lemma RelinkedSame(control: int, d: Doc, rate: Rate, entry: Option<nat>)
    ensures var e := d.(entry := entry);
            DocLines(control, e, rate) == DocLines(control, d, rate) && Postable(e) == Postable(d)
  {
    assert DetailLines(d.(entry := entry), rate) == DetailLines(d, rate);
    hide DetailLines;
  }

  /** Posting links the document to the entry that its lines make, and changes no other row. */
  lemma PostDocTables(cfg: Config, s: State, id: nat)
    requires PostDoc(cfg, s, id).Ok?
    ensures var t := PostDoc(cfg, s, id).value;
            && HasDoc(s, id) && !IsPosted(s, id) && s.journal <= t.journal
            && t == s.(journal := t.journal, periods := t.periods,
                       docs := s.docs[id := Some(s.docs[id].value.(entry := Some(|s.journal|)))])
            && DocOk(cfg, t, id)
  {
    var d := s.docs[id].value;
    var rate := EntryRate(cfg, s, d.currency, d.date).value;
    RelinkedSame(Control(cfg, d).value, d, rate, Some(|s.journal|));
    assert Postable(d);
    hide DocLines, Total, LacksAccount, PeriodForDate, Insertable, LatestRate, Postable;
  }

  lemma PostDocKeeps(cfg: Config, s: State, id: nat)
    requires SubledgerOk(cfg, s) && PostDoc(cfg, s, id).Ok?
    ensures SubledgerOk(cfg, PostDoc(cfg, s, id).value)
  {
    hide SubledgerOk;
    PostDocTables(cfg, s, id);
    hide PostDoc, DocOk;
    DraftKeeps(cfg, s, PostDoc(cfg, s, id).value, id);
  }
}
