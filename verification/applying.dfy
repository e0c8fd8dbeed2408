/** Applying a payment or credit note: what it hands out, to whom, and when it is refused. */
module Applying {
  import opened Money
  import opened Sums
  import opened Calendar
  import opened Tables
  import opened Entries
  import opened Ledger
  import opened Settlement
  import opened Subledger

  predicate Distinct(xs: seq<nat>) {
    forall i, j | 0 <= i < j < |xs| :: xs[i] != xs[j]
  }

  /* ---- inserting application rows ---- */

  /** One new row counts once for its settler and once for its charge. */
  lemma InsertOne(apps: map<(nat, nat), App>, settler: nat, c: nat, amount: int, n: nat, id: nat)
    requires (settler, c) !in apps && settler < n && c < n
    ensures var after := apps[(settler, c) := App(amount, None)];
            && Applied(after, n, id) == Applied(apps, n, id) + (if id == settler then amount else 0)
            && Settled(after, n, id) == Settled(apps, n, id) + (if id == c then amount else 0)
  {
    var after := apps[(settler, c) := App(amount, None)];
    if id == settler {
      SumToChange(n, (x: nat) => Amount(apps, id, x), (x: nat) => Amount(after, id, x), c);
    } else {
      SumToSame(n, (x: nat) => Amount(apps, id, x), (x: nat) => Amount(after, id, x));
    }
    if id == c {
      SumToChange(n, (x: nat) => Amount(apps, x, id), (x: nat) => Amount(after, x, id), settler);
    } else {
      SumToSame(n, (x: nat) => Amount(apps, x, id), (x: nat) => Amount(after, x, id));
    }
  }

  /** What the list gives a document. */
  function Received(charges: seq<nat>, amounts: seq<int>, id: nat): int
    requires |charges| == |amounts|
  {
    if charges == [] then 0
    else
      var n := |charges| - 1;
      Received(charges[..n], amounts[..n], id) + (if charges[n] == id then amounts[n] else 0)
  }

  lemma {:induction false} ReceivedAt(charges: seq<nat>, amounts: seq<int>, id: nat)
    requires |charges| == |amounts| && Distinct(charges)
    ensures id !in charges ==> Received(charges, amounts, id) == 0
    ensures forall i | 0 <= i < |charges| && charges[i] == id :: Received(charges, amounts, id) == amounts[i]
  {
    if charges != [] {
      ReceivedAt(charges[..|charges| - 1], amounts[..|charges| - 1], id);
    }
  }

  /** The settler's total grows by all that is given, each document's by what it receives. */
  lemma {:induction false} InsertAppsSums(apps: map<(nat, nat), App>, settler: nat, charges: seq<nat>,
                                          amounts: seq<int>, n: nat, id: nat)
    requires |charges| == |amounts| && InsertApps(apps, settler, charges, amounts).Ok?
    requires settler < n && (forall c | c in charges :: c < n) && (forall i | 0 <= i < |amounts| :: 0 <= amounts[i])
    ensures var after := InsertApps(apps, settler, charges, amounts).value;
            && Applied(after, n, id) == Applied(apps, n, id) + (if id == settler then SumSeq(amounts) else 0)
            && Settled(after, n, id) == Settled(apps, n, id) + Received(charges, amounts, id)
  {
    if charges != [] {
      var m := |charges| - 1;
      assert charges[m] in charges && forall c | c in charges[..m] :: c in charges;
      InsertAppsSums(apps, settler, charges[..m], amounts[..m], n, id);
      if 0 < amounts[m] {
        InsertOne(InsertApps(apps, settler, charges[..m], amounts[..m]).value, settler, charges[m], amounts[m], n, id);
      }
    }
  }

  /** Some charge that is to receive money already has a row from this settler. */
  predicate PairTaken(apps: map<(nat, nat), App>, settler: nat, charges: seq<nat>, amounts: seq<int>)
    requires |charges| == |amounts|
  {
    exists i | 0 <= i < |charges| :: 0 < amounts[i] && (settler, charges[i]) in apps
  }

  /** The unique constraint refuses the rows exactly when a pair is taken. */
  lemma {:induction false} InsertAppsSucceeds(apps: map<(nat, nat), App>, settler: nat, charges: seq<nat>,
                                              amounts: seq<int>)
    requires |charges| == |amounts| && Distinct(charges)
    ensures InsertApps(apps, settler, charges, amounts).Ok? <==> !PairTaken(apps, settler, charges, amounts)
    ensures InsertApps(apps, settler, charges, amounts).Err? ==>
              InsertApps(apps, settler, charges, amounts).error == ConstraintViolation
  {
    if charges != [] {
      var m := |charges| - 1;
      var cs, xs := charges[..m], amounts[..m];
      InsertAppsSucceeds(apps, settler, cs, xs);
      if InsertApps(apps, settler, cs, xs).Ok? {
        FreshApps(apps, settler, cs, xs);
        assert charges[m] !in cs;
        var before := InsertApps(apps, settler, cs, xs).value;
        assert (settler, charges[m]) in before <==> (settler, charges[m]) in apps;
      }
      assert forall i | 0 <= i < m :: xs[i] == amounts[i] && cs[i] == charges[i];
      assert PairTaken(apps, settler, charges, amounts)
             <==> PairTaken(apps, settler, cs, xs) || (0 < amounts[m] && (settler, charges[m]) in apps);
    }
  }

  /* ---- the rows one application inserts ---- */

  /** The settler has something left, every open charge can take something, and the amounts
      are the oldest-first ones. */
  lemma AmountsFacts(cfg: Config, s: State, id: nat)
    requires RowsOk(cfg, s) && IsPosted(s, id)
    ensures 0 <= Remaining(s, id) && AllPositive(Availables(s, Charges(s, id)))
    ensures ByDate(s, Charges(s, id)) && Distinct(Charges(s, id))
    ensures IsFifo(Availables(s, Charges(s, id)), Remaining(s, id), Amounts(s, id))
  {
    assert CapOk(s, id);
    OneSided(cfg, s, id);
    OpenChargesByDate(s, id, |s.docs|);
    hide Settled, Applied, RowsOk, CapOk;
    forall i | 0 <= i < |Charges(s, id)| ensures 0 < Availables(s, Charges(s, id))[i] {
      assert Charges(s, id)[i] in Charges(s, id);
    }
    AllocIsFifo(Availables(s, Charges(s, id)), Remaining(s, id));
  }

  lemma WithRowsSums(cfg: Config, s: State, id: nat, x: nat)
    requires RowsOk(cfg, s) && IsPosted(s, id) && !IsCharge(s.docs[id].value.kind) && WithRows(s, id).Ok?
    ensures var after := WithRows(s, id).value.apps;
            && Applied(after, |s.docs|, x) == Applied(s.apps, |s.docs|, x)
              + (if x == id then SumSeq(Amounts(s, id)) else 0)
            && Settled(after, |s.docs|, x) == Settled(s.apps, |s.docs|, x) + Received(Charges(s, id), Amounts(s, id), x)
  {
    AmountsFacts(cfg, s, id);
    InsertAppsSums(s.apps, id, Charges(s, id), Amounts(s, id), |s.docs|, x);
  }

  /** A charge receives at most what it can take, and only if it is open. */
  lemma ReceivedFits(cfg: Config, s: State, id: nat, x: nat)
    requires RowsOk(cfg, s) && IsPosted(s, id)
    ensures Received(Charges(s, id), Amounts(s, id), x) == 0
            || (HasDoc(s, x) && 0 <= Received(Charges(s, id), Amounts(s, id), x) <= Available(s, x))
    ensures 0 <= SumSeq(Amounts(s, id)) <= Remaining(s, id)
  {
    AmountsFacts(cfg, s, id);
    AllocTotal(Availables(s, Charges(s, id)), Remaining(s, id));
    hide Alloc, OpenCharges, Settled, Applied, Received, SumSeq;
    ReceivedAt(Charges(s, id), Amounts(s, id), x);
    if x in Charges(s, id) {
      var i :| 0 <= i < |Charges(s, id)| && Charges(s, id)[i] == x;
      assert Amounts(s, id)[i] <= Availables(s, Charges(s, id))[i];
    }
  }

  lemma WithRowsCap(cfg: Config, s: State, id: nat, x: nat)
    requires RowsOk(cfg, s) && IsPosted(s, id) && !IsCharge(s.docs[id].value.kind) && WithRows(s, id).Ok?
    ensures CapOk(WithRows(s, id).value, x)
  {
    hide Amounts, Charges, InsertApps, Settled, Applied, Received, SumSeq;
    if IsPosted(s, x) {
      assert CapOk(s, x);
      WithRowsSums(cfg, s, id, x);
      ReceivedFits(cfg, s, id, x);
    }
  }

  lemma WithRowsRow(cfg: Config, s: State, id: nat, k: nat, c: nat)
    requires RowsOk(cfg, s) && IsPosted(s, id) && WithRows(s, id).Ok?
    ensures var t := WithRows(s, id).value;
            && RowOk(t, k, c)
            && ((k, c) in s.apps ==> (k, c) in t.apps && t.apps[(k, c)] == s.apps[(k, c)])
            && ((k, c) in t.apps && (k, c) !in s.apps ==> k == id && t.apps[(k, c)].fx.None?)
  {
    var t := WithRows(s, id).value;
    FreshApps(s.apps, id, Charges(s, id), Amounts(s, id));
    assert RowOk(s, k, c);
    if (k, c) in t.apps && (k, c) !in s.apps {
      assert (k, c).0 == id && (k, c).1 in Charges(s, id);
    }
  }

  lemma WithRowsKeeps(cfg: Config, s: State, id: nat)
    requires RowsOk(cfg, s) && IsPosted(s, id) && !IsCharge(s.docs[id].value.kind) && WithRows(s, id).Ok?
    ensures RowsOk(cfg, WithRows(s, id).value)
  {
    hide RowOk, CapOk;
    forall x: nat ensures CapOk(WithRows(s, id).value, x) { WithRowsCap(cfg, s, id, x); }
    forall k: nat, c: nat ensures RowOk(WithRows(s, id).value, k, c) { WithRowsRow(cfg, s, id, k, c); }
    forall x: nat ensures DocOk(cfg, WithRows(s, id).value, x) { assert DocOk(cfg, s, x); }
  }

  /* ---- booking the differences ---- */

  lemma PostOneFxBooks(cfg: Config, s: State, id: nat, c: nat, fx: int)
    requires DocOk(cfg, s, id) && DocOk(cfg, s, c) && Matches(s, id, c)
    requires IsCandidate(s, id, c) && PostOneFx(cfg, s, id, c, fx).Ok?
    ensures var t := PostOneFx(cfg, s, id, c, fx).value;
            && s.journal <= t.journal && t == s.(journal := t.journal, periods := t.periods, apps := t.apps)
            && SameButFx(s.apps, t.apps, id, [c])
            && FxOk(cfg, t, id, c)
  {
    hide DocLines, Postable, Convert, LatestRate;
    var t := PostOneFx(cfg, s, id, c, fx).value;
    var d, i := s.docs[id].value, |s.journal|;
    assert Difference(t, id, c) == Difference(s, id, c);
    assert t.journal[i].lines == FxLines(Control(cfg, d).value, fx, FxValue(t, id, c));
  }

  /** Booking a list of candidates settles each of them and disturbs nothing else. */
  lemma {:induction false} PostFxBooks(cfg: Config, s: State, id: nat, charges: seq<nat>, fx: int)
    requires RowsOk(cfg, s) && Distinct(charges) && forall c | c in charges :: IsCandidate(s, id, c)
    requires PostFx(cfg, s, id, charges, fx).Ok?
    ensures var t := PostFx(cfg, s, id, charges, fx).value;
            && s.journal <= t.journal && t == s.(journal := t.journal, periods := t.periods, apps := t.apps)
            && SameButFx(s.apps, t.apps, id, charges)
            && forall c | c in charges :: FxOk(cfg, t, id, c)
  {
    if charges != [] {
      var n := |charges| - 1;
      var rest, c := charges[..n], charges[n];
      assert c in charges && c !in rest && forall x | x in rest :: x in charges;
      PostFxBooks(cfg, s, id, rest, fx);
      var t1 := PostFx(cfg, s, id, rest, fx).value;
      var t := PostFx(cfg, s, id, charges, fx).value;
      hide PostFx, PostOneFx, FxOk, RowsOk, DocOk;
      assert (id, c) in s.apps.Keys && (id, c) in t1.apps.Keys;
      SameRowsCarry(cfg, s, t1, id, c);
      PostOneFxBooks(cfg, t1, id, c, fx);
      SameButFxChain(s.apps, t1.apps, t.apps, id, charges);
      BookedStay(cfg, s, t1, t, id, rest, c);
    }
  }

  lemma BookedStay(cfg: Config, s: State, t1: State, t: State, id: nat, rest: seq<nat>, c: nat)
    requires RowsOk(cfg, s) && (forall x | x in rest :: IsCandidate(s, id, x)) && c !in rest
    requires SameButFx(s.apps, t1.apps, id, rest) && SameButFx(t1.apps, t.apps, id, [c])
    requires s.journal <= t1.journal <= t.journal && t1.docs == s.docs && t.docs == s.docs
    requires forall x | x in rest :: FxOk(cfg, t1, id, x)
    ensures forall x | x in rest :: FxOk(cfg, t, id, x)
  {
    hide FxOk, RowsOk, DocOk;
    forall x | x in rest ensures FxOk(cfg, t, id, x) {
      assert (id, x) in s.apps.Keys && (id, x) in t1.apps.Keys;
      SameRowsCarry(cfg, s, t1, id, x);
      FxCarries(cfg, t1, t, id, x);
    }
  }

  /** A candidate keeps its documents, and its difference while its row stays. */
  lemma SameRowsCarry(cfg: Config, s: State, t: State, k: nat, c: nat)
    requires RowsOk(cfg, s) && IsCandidate(s, k, c)
    requires s.journal <= t.journal && t.docs == s.docs
    requires (k, c) in t.apps && t.apps[(k, c)].amount == s.apps[(k, c)].amount
    ensures DocOk(cfg, t, k) && DocOk(cfg, t, c) && Matches(t, k, c)
    ensures t.apps[(k, c)].fx.None? ==> IsCandidate(t, k, c)
  {
    hide DocLines, Postable, Convert;
    assert RowOk(s, k, c) && DocOk(cfg, s, k) && DocOk(cfg, s, c);
  }

  /** Changing FX links alone changes no amount. */
  lemma SameAmounts(a: map<(nat, nat), App>, b: map<(nat, nat), App>, n: nat, id: nat)
    requires a.Keys == b.Keys && forall key | key in a :: b[key].amount == a[key].amount
    ensures Settled(b, n, id) == Settled(a, n, id) && Applied(b, n, id) == Applied(a, n, id)
  {
    forall k: nat, c: nat ensures Amount(b, k, c) == Amount(a, k, c) {
      assert (k, c) in a.Keys <==> (k, c) in b.Keys;
    }
    SumToSame(n, (k: nat) => Amount(a, k, id), (k: nat) => Amount(b, k, id));
    SumToSame(n, (c: nat) => Amount(a, id, c), (c: nat) => Amount(b, id, c));
  }

  /** What booking differences may change. */
  ghost predicate FxFrame(s: State, t: State) {
    && s.journal <= t.journal && t == s.(journal := t.journal, periods := t.periods, apps := t.apps)
    && s.apps.Keys == t.apps.Keys && forall key | key in s.apps :: t.apps[key].amount == s.apps[key].amount
  }

  lemma FxFrameKeepsRows(cfg: Config, s: State, t: State)
    requires RowsOk(cfg, s) && FxFrame(s, t)
    ensures RowsOk(cfg, t)
  {
    forall x: nat ensures DocOk(cfg, t, x) { assert DocOk(cfg, s, x); }
    forall k: nat, c: nat ensures RowOk(t, k, c) {
      assert RowOk(s, k, c);
      assert (k, c) in s.apps.Keys <==> (k, c) in t.apps.Keys;
    }
    forall x: nat ensures CapOk(t, x) {
      assert CapOk(s, x);
      SameAmounts(s.apps, t.apps, |s.docs|, x);
    }
  }

  lemma {:induction false} CandidatesDistinct(s: State, id: nat, n: nat)
    ensures Distinct(Candidates(s, id, n))
  {
    if n > 0 {
      CandidatesDistinct(s, id, n - 1);
    }
  }

  /** Afterwards each of the settler's differences is booked, and every other row is as it was. */
  lemma SettlementFxBooks(cfg: Config, s: State, id: nat)
    requires RowsOk(cfg, s) && PostSettlementFx(cfg, s, id).Ok?
    ensures var t := PostSettlementFx(cfg, s, id).value;
            && FxFrame(s, t)
            && (forall c: nat | IsCandidate(s, id, c) :: FxOk(cfg, t, id, c))
            && (forall k: nat, c: nat | (k, c) in s.apps && !(k == id && IsCandidate(s, id, c)) ::
                  t.apps[(k, c)] == s.apps[(k, c)])
  {
    var list := Candidates(s, id, |s.docs|);
    CandidatesDistinct(s, id, |s.docs|);
    forall c: nat | IsCandidate(s, id, c) ensures c in list { }
    hide FxOk, Candidates, IsCandidate, PostFx;
    if list != [] {
      PostFxBooks(cfg, s, id, list, s.fxAccount.value);
    }
  }

  /** Every application has its difference booked, except the settler's new candidates. */
  lemma RowsFx(cfg: Config, s: State, id: nat, k: nat, c: nat)
    requires SubledgerOk(cfg, s) && IsPosted(s, id) && !IsCharge(s.docs[id].value.kind) && WithRows(s, id).Ok?
    ensures var s1 := WithRows(s, id).value;
            (k, c) in s1.apps ==> FxOk(cfg, s1, k, c) || (k == id && IsCandidate(s1, id, c))
  {
    var s1 := WithRows(s, id).value;
    WithRowsRow(cfg, s, id, k, c);
    hide WithRows, DocLines, Postable, Convert, FxEntryOk;
    if (k, c) in s.apps {
      assert RowOk(s, k, c) && DocOk(cfg, s, k) && DocOk(cfg, s, c) && FxOk(cfg, s, k, c);
      FxCarries(cfg, s, s1, k, c);
    }
  }

  lemma AutoApplyKeeps(cfg: Config, s: State, id: nat)
    requires SubledgerOk(cfg, s) && AutoApply(cfg, s, id).Ok?
    ensures SubledgerOk(cfg, AutoApply(cfg, s, id).value)
  {
    var s1, t := WithRows(s, id).value, AutoApply(cfg, s, id).value;
    WithRowsKeeps(cfg, s, id);
    SettlementFxBooks(cfg, s1, id);
    FxFrameKeepsRows(cfg, s1, t);
    forall k: nat, c: nat ensures FxOk(cfg, t, k, c) {
      AppliedFx(cfg, s, s1, t, id, k, c);
    }
  }

  lemma AppliedFx(cfg: Config, s: State, s1: State, t: State, id: nat, k: nat, c: nat)
    requires SubledgerOk(cfg, s) && IsPosted(s, id) && !IsCharge(s.docs[id].value.kind)
    requires WithRows(s, id) == Ok(s1) && PostSettlementFx(cfg, s1, id) == Ok(t)
    ensures FxOk(cfg, t, k, c)
  {
    WithRowsKeeps(cfg, s, id);
    SettlementFxBooks(cfg, s1, id);
    RowsFx(cfg, s, id, k, c);
    hide FxOk, IsCandidate, SubledgerOk, WithRows, PostSettlementFx, DocOk;
    assert (k, c) in s1.apps.Keys <==> (k, c) in t.apps.Keys;
    if (k, c) !in t.apps {
      NoFxToBook(cfg, t, k, c);
    } else if !(k == id && IsCandidate(s1, id, c)) {
      assert RowOk(s1, k, c) && DocOk(cfg, s1, k) && DocOk(cfg, s1, c);
      FxCarries(cfg, s1, t, k, c);
    }
  }

  /* ---- what applying achieves ---- */

  /** What a charge gained. */
  function Gains(s: State, t: State, charges: seq<nat>): (r: seq<int>)
    ensures |r| == |charges|
    ensures forall i | 0 <= i < |r| ::
              r[i] == Settled(t.apps, |t.docs|, charges[i]) - Settled(s.apps, |s.docs|, charges[i])
  {
    seq(|charges|, i requires 0 <= i < |charges| =>
      Settled(t.apps, |t.docs|, charges[i]) - Settled(s.apps, |s.docs|, charges[i]))
  }

  lemma ApplySums(cfg: Config, s: State, id: nat, x: nat)
    requires SubledgerOk(cfg, s) && AutoApply(cfg, s, id).Ok?
    ensures var t := AutoApply(cfg, s, id).value;
            && FxFrame(WithRows(s, id).value, t)
            && Applied(t.apps, |t.docs|, x) == Applied(s.apps, |s.docs|, x)
              + (if x == id then SumSeq(Amounts(s, id)) else 0)
            && Settled(t.apps, |t.docs|, x) == Settled(s.apps, |s.docs|, x)
              + Received(Charges(s, id), Amounts(s, id), x)
  {
    var s1, t := WithRows(s, id).value, AutoApply(cfg, s, id).value;
    WithRowsKeeps(cfg, s, id);
    SettlementFxBooks(cfg, s1, id);
    WithRowsSums(cfg, s, id, x);
    SameAmounts(s1.apps, t.apps, |s.docs|, x);
  }

  /** The open charges of the settler's party and currency gain, in date order, exactly the
      oldest-first division of what the settler had left; nothing else is settled further, no
      other settler is drawn on, and the settler is left with the rest. */
  lemma ApplySpendsOldestFirst(cfg: Config, s: State, id: nat)
    requires SubledgerOk(cfg, s) && AutoApply(cfg, s, id).Ok?
    ensures var t := AutoApply(cfg, s, id).value;
            var charges := Charges(s, id);
            var gains := Gains(s, t, charges);
            && t.docs == s.docs && ByDate(s, charges)
            && IsFifo(Availables(s, charges), Remaining(s, id), gains)
            && Remaining(t, id) == Remaining(s, id) - SumSeq(gains)
            && (forall x: nat | x !in charges :: Settled(t.apps, |t.docs|, x) == Settled(s.apps, |s.docs|, x))
            && (forall x: nat | x != id :: Applied(t.apps, |t.docs|, x) == Applied(s.apps, |s.docs|, x))
  {
    var t := AutoApply(cfg, s, id).value;
    AmountsFacts(cfg, s, id);
    forall x: nat
      ensures x !in Charges(s, id) ==> Settled(t.apps, |t.docs|, x) == Settled(s.apps, |s.docs|, x)
      ensures x != id ==> Applied(t.apps, |t.docs|, x) == Applied(s.apps, |s.docs|, x)
    {
      ApplySums(cfg, s, id, x);
      ReceivedAt(Charges(s, id), Amounts(s, id), x);
    }
    GainsAreAmounts(cfg, s, id);
    ApplySums(cfg, s, id, id);
  }

  lemma GainsAreAmounts(cfg: Config, s: State, id: nat)
    requires SubledgerOk(cfg, s) && AutoApply(cfg, s, id).Ok?
    ensures Gains(s, AutoApply(cfg, s, id).value, Charges(s, id)) == Amounts(s, id)
  {
    AmountsFacts(cfg, s, id);
    forall i | 0 <= i < |Charges(s, id)|
      ensures Gains(s, AutoApply(cfg, s, id).value, Charges(s, id))[i] == Amounts(s, id)[i]
    {
      ApplySums(cfg, s, id, Charges(s, id)[i]);
      ReceivedAt(Charges(s, id), Amounts(s, id), Charges(s, id)[i]);
    }
  }

  /* ---- applying again ---- */

  lemma {:induction false} InsertNothing(apps: map<(nat, nat), App>, settler: nat, charges: seq<nat>, amounts: seq<int>)
    requires |charges| == |amounts| && forall i | 0 <= i < |amounts| :: amounts[i] <= 0
    ensures InsertApps(apps, settler, charges, amounts) == Ok(apps)
  {
    if charges != [] {
      InsertNothing(apps, settler, charges[..|charges| - 1], amounts[..|amounts| - 1]);
    }
  }

  lemma {:induction false} SameSum(xs: seq<int>, ys: seq<int>)
    requires |xs| == |ys| && (forall i | 0 <= i < |xs| :: xs[i] <= ys[i]) && SumSeq(xs) == SumSeq(ys)
    ensures xs == ys
  {
    if xs != [] {
      var n := |xs| - 1;
      SumBelow(xs[..n], ys[..n]);
      SameSum(xs[..n], ys[..n]);
    }
  }

  /** With nothing left there is nothing to insert. */
  lemma SpentInsertsNothing(cfg: Config, t: State, id: nat)
    requires RowsOk(cfg, t) && IsPosted(t, id) && Remaining(t, id) == 0
    ensures WithRows(t, id) == Ok(t)
  {
    AmountsFacts(cfg, t, id);
    var amounts, availables := Amounts(t, id), Availables(t, Charges(t, id));
    AllocTotal(availables, 0);
    var zeros := seq(|amounts|, i => 0);
    ZeroSum(zeros);
    SameSum(zeros, amounts);
    InsertNothing(t.apps, id, Charges(t, id), amounts);
  }

  lemma {:induction false} ZeroSum(xs: seq<int>)
    requires forall i | 0 <= i < |xs| :: xs[i] == 0
    ensures SumSeq(xs) == 0
  {
    if xs != [] {
      ZeroSum(xs[..|xs| - 1]);
    }
  }

  /** What was open has been filled and what was not open still is not. */
  lemma NoLongerOpen(cfg: Config, s: State, t: State, id: nat, x: nat)
    requires SubledgerOk(cfg, s) && AutoApply(cfg, s, id) == Ok(t) && HasDoc(s, id) && HasDoc(t, id)
    requires Gains(s, t, Charges(s, id)) == Availables(s, Charges(s, id))
    ensures !IsOpen(t, id, x)
  {
    ApplySpendsOldestFirst(cfg, s, id);
    hide SubledgerOk, AutoApply, ByDate, IsFifo, Settled, Applied;
    if Matches(t, id, x) {
      assert Matches(s, id, x);
      if x in Charges(s, id) {
        var i :| 0 <= i < |Charges(s, id)| && Charges(s, id)[i] == x;
        assert Gains(s, t, Charges(s, id))[i] == Available(s, x);
      } else {
        assert !IsOpen(s, id, x);
      }
    }
  }

  /** With something left, every charge it could go to is fully settled. */
  lemma LeftoverMeansSettled(cfg: Config, s: State, t: State, id: nat)
    requires SubledgerOk(cfg, s) && AutoApply(cfg, s, id) == Ok(t) && HasDoc(s, id) && HasDoc(t, id)
    requires 0 < Remaining(t, id)
    ensures Charges(t, id) == []
  {
    ApplySpendsOldestFirst(cfg, s, id);
    AmountsFacts(cfg, s, id);
    hide SubledgerOk, AutoApply, ByDate, Settled, Applied, OpenCharges, Alloc;
    SameSum(Gains(s, t, Charges(s, id)), Availables(s, Charges(s, id)));
    forall x: nat ensures !IsOpen(t, id, x) {
      NoLongerOpen(cfg, s, t, id, x);
    }
  }

  lemma NoCandidates(cfg: Config, t: State, id: nat)
    requires SubledgerOk(cfg, t)
    ensures PostSettlementFx(cfg, t, id) == Ok(t)
  {
    forall c: nat ensures !IsCandidate(t, id, c) {
      assert RowOk(t, id, c) && FxOk(cfg, t, id, c);
    }
  }

  /** A second application inserts no row and books no entry: it changes nothing at all. */
  lemma ApplyTwiceIsOnce(cfg: Config, s: State, id: nat)
    requires SubledgerOk(cfg, s) && AutoApply(cfg, s, id).Ok?
    ensures var t := AutoApply(cfg, s, id).value; AutoApply(cfg, t, id) == Ok(t)
  {
    var t := AutoApply(cfg, s, id).value;
    AutoApplyKeeps(cfg, s, id);
    ApplySpendsOldestFirst(cfg, s, id);
    AmountsFacts(cfg, t, id);
    if Remaining(t, id) == 0 {
      SpentInsertsNothing(cfg, t, id);
    } else {
      LeftoverMeansSettled(cfg, s, t, id);
      InsertNothing(t.apps, id, Charges(t, id), Amounts(t, id));
    }
    NoCandidates(cfg, t, id);
  }

  /* ---- when applying is refused ---- */

  /** The rows go in exactly when no open charge that would receive money already has one from
      this settler. A settler that has applied nothing yet is therefore never refused here. */
  lemma RowsSucceed(cfg: Config, s: State, id: nat)
    requires RowsOk(cfg, s) && IsPosted(s, id) && !IsCharge(s.docs[id].value.kind)
    ensures WithRows(s, id).Ok? <==> !PairTaken(s.apps, id, Charges(s, id), Amounts(s, id))
    ensures !HasCharges(s, id) ==> WithRows(s, id).Ok?
  {
    AmountsFacts(cfg, s, id);
    InsertAppsSucceeds(s.apps, id, Charges(s, id), Amounts(s, id));
    forall c | c in Charges(s, id) && (id, c) in s.apps ensures HasCharges(s, id) {
      assert c < |s.docs|;
    }
  }

  /** Topping up is refused: a settler with money left, whose oldest open charge it has already
      paid into, gets a constraint violation instead of another share of that charge. */
  lemma TopUpRefused(cfg: Config, s: State, id: nat)
    requires SubledgerOk(cfg, s) && IsPosted(s, id) && !IsCharge(s.docs[id].value.kind)
    requires 0 < Remaining(s, id) && Charges(s, id) != [] && (id, Charges(s, id)[0]) in s.apps
    ensures AutoApply(cfg, s, id) == Err(ConstraintViolation)
  {
    AmountsFacts(cfg, s, id);
    hide RowsOk, IsFifo, ByDate, AllPositive;
    InsertAppsSucceeds(s.apps, id, Charges(s, id), Amounts(s, id));
    FirstTakes(Availables(s, Charges(s, id)), Remaining(s, id));
    hide Alloc, Settled, Applied, OpenCharges, InsertApps;
    assert 0 < Amounts(s, id)[0];
  }

  lemma FirstTakes(availables: seq<int>, remaining: int)
    requires availables != [] && AllPositive(availables) && 0 < remaining
    ensures 0 < Alloc(availables, remaining)[0]
  {
    assert availables[..0] == [];
  }
}
