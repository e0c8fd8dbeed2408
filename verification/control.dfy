/** Control accounts against the open documents, for a whole account or for one party on it: at any
    mix of exchange rates the ledger agrees with the subledger up to half a unit for each rounding
    ever made, once the lines that are not control lines are set aside. */
module ControlAccounts {
  import opened Money
  import opened Sums
  import opened Calendar
  import opened Tables
  import opened Entries
  import opened Balances
  import opened Ledger
  import opened Settlement
  import opened LiveEntries
  import opened Subledger
  import opened Machine
  import LiveRuns
  import Unposting

  /** Base balance of one account, everything included. */
  function Whole(account: int): Query {
    Query({account}, None, None, None, None, true)
  }

  datatype Party = Customer(id: nat) | Supplier(id: nat)

  function PartyOf(d: Doc): Party {
    if ArSide(d.kind) then Customer(d.party) else Supplier(d.party)
  }

  /** An account, and whose part of it is meant: one party's, or everybody's. */
  datatype Slice = Slice(account: int, only: Option<Party>)

  predicate Concerns(a: Slice, s: State, id: nat) {
    HasDoc(s, id) && (a.only.Some? ==> PartyOf(s.docs[id].value) == a.only.value)
  }

  /** The entry an owner links is the slice's: that of a party's documents and their applications,
      or any at all. */
  predicate Belongs(a: Slice, s: State, o: Owner) {
    match o
    case OfDoc(id) => Concerns(a, s, id)
    case OfApp(k, _) => Concerns(a, s, k)
    case _ => a.only.None?
  }

  /** Where a linked entry has its control line: last for a document, first for a supplier payment
      and for an exchange difference, nowhere for anything else. The lines are the others. */
  function StrayLines(s: State, o: Owner): seq<Line> {
    match LinkOf(s, o)
    case None => []
    case Some(i) =>
      if |s.journal| <= i then [] else
        var lines := s.journal[i].lines;
        if lines == [] then []
        else
          match o
          case OfDoc(id) => if s.docs[id].value.kind == SupplierPayment then lines[1..] else lines[..|lines| - 1]
          case OfApp(_, _) => lines[1..]
          case _ => lines
  }

  /** What an owner's entry puts on the account. */
  function HeldBy(s: State, a: Slice, o: Owner): int {
    if Belongs(a, s, o) then Part(s, o, Whole(a.account)) else 0
  }

  /** The part of that which is not on its control line. */
  function StrayBy(s: State, a: Slice, o: Owner): int {
    if Belongs(a, s, o) then NetOf(StrayLines(s, o), {a.account}, true) else 0
  }

  /** The sum over everything that can link an entry. */
  function Over(s: State, f: Owner -> int): int {
    SumTo(|s.docs|, (i: nat) => f(OfDoc(i)))
    + SumTo(|s.moves|, (i: nat) => f(OfMove(i)))
    + SumTo(|s.docs|, (k: nat) => SumTo(|s.docs|, (c: nat) => f(OfApp(k, c))))
    + SumTo(|s.years|, (i: nat) => f(OfYear(i)))
  }

  /** What the slice's live entries put on the account. */
  function Held(s: State, a: Slice): int {
    Over(s, (o: Owner) => HeldBy(s, a, o))
  }

  /** What they put there on other lines than control lines. */
  function Stray(s: State, a: Slice): int {
    Over(s, (o: Owner) => StrayBy(s, a, o))
  }

  predicate OnControl(cfg: Config, s: State, a: Slice, id: nat) {
    IsPosted(s, id) && Concerns(a, s, id) && Control(cfg, s.docs[id].value) == Some(a.account)
  }

  function Sign(d: Doc): int { if DebitsControl(d.kind) then 1 else -1 }

  /** The document's rate, signed by the side it puts its control line on; 0 off the account. */
  function Weight(cfg: Config, s: State, a: Slice, id: nat): int {
    if OnControl(cfg, s, a, id) then Sign(s.docs[id].value) * EntryRateOf(s, id) else 0
  }

  /** What is still unsettled of a charge, or unapplied of a settler. */
  function OpenAmount(s: State, id: nat): int
    requires HasDoc(s, id)
  {
    Total(s.docs[id].value) - Settled(s.apps, |s.docs|, id) - Applied(s.apps, |s.docs|, id)
  }

  /** The open amount at the document's own rate, in 10^-12 base units. */
  function Exposure(cfg: Config, s: State, a: Slice, id: nat): int {
    if HasDoc(s, id) then Weight(cfg, s, a, id) * OpenAmount(s, id) else 0
  }

  function Inexact(rate: Rate): nat { if rate == RATE_ONE then 0 else 1 }

  /** Roundings made for a document: none at rate 1, else one for each converted line. */
  function DocSlack(cfg: Config, s: State, a: Slice, id: nat): int {
    if OnControl(cfg, s, a, id) then
      Inexact(EntryRateOf(s, id)) * Roundings(s.docs[id].value, EntryRateOf(s, id))
    else 0
  }

  /** Roundings made for an application: one for each of its documents not at rate 1. */
  function AppSlack(cfg: Config, s: State, a: Slice, k: nat, c: nat): int {
    if (k, c) in s.apps && OnControl(cfg, s, a, k) && IsPosted(s, c) then
      Inexact(EntryRateOf(s, k)) + Inexact(EntryRateOf(s, c))
    else 0
  }

  function Slack(cfg: Config, s: State, a: Slice): int {
    SumTo(|s.docs|, (i: nat) => DocSlack(cfg, s, a, i))
    + SumTo(|s.docs|, (k: nat) => SumTo(|s.docs|, (c: nat) => AppSlack(cfg, s, a, k, c)))
  }

  function TotalExposure(cfg: Config, s: State, a: Slice): int {
    SumTo(|s.docs|, (i: nat) => Exposure(cfg, s, a, i))
  }

  /* ---- one document, one application ---- */

  lemma TwoLines(l: Line, m: Line, account: int, base: bool)
    ensures NetOf([l, m], {account}, base) == NetOf([l], {account}, base) + NetOf([m], {account}, base)
  {
    NetOfConcat([l], [m], {account}, base);
    assert [l] + [m] == [l, m];
  }

  lemma DocNet(control: int, d: Doc, rate: Rate, account: int)
    ensures NetOf(DocLines(control, d, rate), {account}, true)
            == (if control == account then Sign(d) * ControlBase(d, rate) else 0)
              + NetOf(OtherLines(d, rate), {account}, true)
  {
    var line, other := ControlLine(control, d, rate), OtherLines(d, rate);
    hide OtherLines, ControlBase;
    NetOfOne(line, account, true);
    NetOfConcat([line], other, {account}, true);
    NetOfConcat(other, [line], {account}, true);
  }

  lemma DocStray(cfg: Config, s: State, id: nat)
    requires DocOk(cfg, s, id) && IsPosted(s, id)
    ensures StrayLines(s, OfDoc(id)) == OtherLines(s.docs[id].value, EntryRateOf(s, id))
  {
    hide OtherLines, ControlLine, Postable;
  }

  /** R times a rounded amount against the exact product. */
  predicate Near(base: int, exact: int, roundings: int) {
    2 * Abs(RATE_ONE * base - exact) <= RATE_ONE * roundings
  }

  /** A document's control line carries its total at its rate. */
  lemma DocBooked(cfg: Config, s: State, a: Slice, id: nat)
    requires DocOk(cfg, s, id) && HasDoc(s, id)
    ensures HeldBy(s, a, OfDoc(id)) - StrayBy(s, a, OfDoc(id))
            == if OnControl(cfg, s, a, id)
               then Sign(s.docs[id].value) * ControlBase(s.docs[id].value, EntryRateOf(s, id)) else 0
  {
    if IsPosted(s, id) {
      var d, rate := s.docs[id].value, EntryRateOf(s, id);
      DocStray(cfg, s, id);
      DocNet(Control(cfg, d).value, d, rate, a.account);
      hide StrayLines, ControlBase, OtherLines, DocLines, Postable, NetOf;
    }
  }

  lemma DocNear(cfg: Config, s: State, a: Slice, id: nat)
    requires DocOk(cfg, s, id) && HasDoc(s, id)
    ensures Near(HeldBy(s, a, OfDoc(id)) - StrayBy(s, a, OfDoc(id)),
                 Weight(cfg, s, a, id) * Total(s.docs[id].value), DocSlack(cfg, s, a, id))
  {
    DocBooked(cfg, s, a, id);
    hide HeldBy, StrayBy, ControlBase, Roundings, OtherLines, DocLines, Total;
    if OnControl(cfg, s, a, id) {
      var d, rate := s.docs[id].value, EntryRateOf(s, id);
      ControlDrift(d, rate);
      SignedNear(ControlBase(d, rate), Total(d), rate, Roundings(d, rate), Sign(d));
    }
  }

  lemma SignedNear(base: int, amount: int, rate: Rate, roundings: nat, sign: int)
    requires Within(base, amount, rate, roundings) && (rate == RATE_ONE ==> base == amount)
    requires sign == 1 || sign == -1
    ensures Near(sign * base, (sign * rate) * amount, Inexact(rate) * roundings)
  {
    assert (sign * rate) * amount == sign * (amount * rate);
  }

  /** What an application's entry should put on the account, exactly. */
  function AppExact(cfg: Config, s: State, a: Slice, k: nat, c: nat): int {
    -(Weight(cfg, s, a, k) * Amount(s.apps, k, c) + Weight(cfg, s, a, c) * Amount(s.apps, k, c))
  }

  lemma ConvertNear(amount: int, rate: Rate)
    ensures Near(Convert(amount, rate), amount * rate, Inexact(rate))
  {
    ConvertError(amount, rate);
    if rate == RATE_ONE {
      ConvertAtOne(amount);
    }
  }

  lemma DifferenceNear(amount: int, r: Rate, q: Rate)
    ensures Near(Convert(amount, r) - Convert(amount, q), amount * r - amount * q, Inexact(r) + Inexact(q))
  {
    ConvertNear(amount, r);
    ConvertNear(amount, q);
    hide Convert;
  }

  lemma AppNear(cfg: Config, s: State, a: Slice, k: nat, c: nat)
    requires RowOk(s, k, c) && FxOk(cfg, s, k, c)
    ensures Near(HeldBy(s, a, OfApp(k, c)) - StrayBy(s, a, OfApp(k, c)),
                 AppExact(cfg, s, a, k, c), AppSlack(cfg, s, a, k, c))
  {
    if (k, c) in s.apps {
      var amount := Amount(s.apps, k, c);
      AppBooked(cfg, s, a, k, c);
      DifferenceNear(amount, EntryRateOf(s, k), EntryRateOf(s, c));
      AppExactSigned(cfg, s, a, k, c);
      hide Convert, EntryRateOf, RowOk, FxOk, HeldBy, StrayBy, AppExact;
    } else {
      assert Amount(s.apps, k, c) == 0;
      assert StrayLines(s, OfApp(k, c)) == [];
    }
  }

  lemma AppExactSigned(cfg: Config, s: State, a: Slice, k: nat, c: nat)
    requires (k, c) in s.apps && RowOk(s, k, c)
    ensures var exact := Amount(s.apps, k, c) * EntryRateOf(s, k) - Amount(s.apps, k, c) * EntryRateOf(s, c);
            AppExact(cfg, s, a, k, c)
            == if !OnControl(cfg, s, a, k) then 0 else if ArSide(s.docs[k].value.kind) then exact else -exact
  {
    hide EntryRateOf;
    assert OnControl(cfg, s, a, k) <==> OnControl(cfg, s, a, c);
  }

  /** An application's control line carries the difference it realizes. */
  lemma AppBooked(cfg: Config, s: State, a: Slice, k: nat, c: nat)
    requires (k, c) in s.apps && RowOk(s, k, c) && FxOk(cfg, s, k, c)
    ensures HeldBy(s, a, OfApp(k, c)) - StrayBy(s, a, OfApp(k, c))
            == if OnControl(cfg, s, a, k) then FxValue(s, k, c) else 0
  {
    var v := FxValue(s, k, c);
    hide Convert, EntryRateOf;
    match s.apps[(k, c)].fx
    case None =>
    case Some(i) =>
      var control := Control(cfg, s.docs[k].value).value;
      var fx: int :| s.journal[i].lines == FxLines(control, fx, v);
      var l, m := DebitLine(control, v, v), CreditLine(fx, v, v);
      TwoLines(l, m, a.account, true);
      NetOfOne(l, a.account, true);
      assert StrayLines(s, OfApp(k, c)) == [m];
      hide StrayLines, Control, NetOf;
  }

  /* ---- summing up ---- */

  lemma {:induction false} NearSums(n: nat, p: nat -> int, e: nat -> int, g: nat -> int)
    requires forall i: nat | i < n :: Near(p(i), e(i), g(i))
    ensures Near(SumTo(n, p), SumTo(n, e), SumTo(n, g))
  {
    if n > 0 {
      NearSums(n - 1, p, e, g);
    }
  }

  /** What an owner's control line puts on the account. */
  function BookedBy(s: State, a: Slice, o: Owner): int {
    HeldBy(s, a, o) - StrayBy(s, a, o)
  }

  lemma DocsNear(cfg: Config, s: State, a: Slice, f: Owner -> int)
    requires SubledgerOk(cfg, s) && forall o :: f(o) == BookedBy(s, a, o)
    ensures Near(SumTo(|s.docs|, (i: nat) => f(OfDoc(i))),
                 SumTo(|s.docs|, (i: nat) => if HasDoc(s, i) then Weight(cfg, s, a, i) * Total(s.docs[i].value) else 0),
                 SumTo(|s.docs|, (i: nat) => DocSlack(cfg, s, a, i)))
  {
    var exact := (i: nat) => if HasDoc(s, i) then Weight(cfg, s, a, i) * Total(s.docs[i].value) else 0;
    forall i: nat ensures Near(f(OfDoc(i)), exact(i), DocSlack(cfg, s, a, i)) {
      assert DocOk(cfg, s, i);
      if HasDoc(s, i) { DocNear(cfg, s, a, i); }
    }
    NearSums(|s.docs|, (i: nat) => f(OfDoc(i)), exact, (i: nat) => DocSlack(cfg, s, a, i));
  }

  lemma AppRowNear(cfg: Config, s: State, a: Slice, f: Owner -> int, k: nat)
    requires SubledgerOk(cfg, s) && forall o :: f(o) == BookedBy(s, a, o)
    ensures Near(SumTo(|s.docs|, (c: nat) => f(OfApp(k, c))),
                 SumTo(|s.docs|, (c: nat) => AppExact(cfg, s, a, k, c)),
                 SumTo(|s.docs|, (c: nat) => AppSlack(cfg, s, a, k, c)))
  {
    forall c: nat ensures Near(f(OfApp(k, c)), AppExact(cfg, s, a, k, c), AppSlack(cfg, s, a, k, c)) {
      assert RowOk(s, k, c) && FxOk(cfg, s, k, c);
      AppNear(cfg, s, a, k, c);
    }
    NearSums(|s.docs|, (c: nat) => f(OfApp(k, c)), (c: nat) => AppExact(cfg, s, a, k, c),
             (c: nat) => AppSlack(cfg, s, a, k, c));
  }

  lemma AppsNear(cfg: Config, s: State, a: Slice, f: Owner -> int)
    requires SubledgerOk(cfg, s) && forall o :: f(o) == BookedBy(s, a, o)
    ensures Near(SumTo(|s.docs|, (k: nat) => SumTo(|s.docs|, (c: nat) => f(OfApp(k, c)))),
                 SumTo(|s.docs|, (k: nat) => SumTo(|s.docs|, (c: nat) => AppExact(cfg, s, a, k, c))),
                 SumTo(|s.docs|, (k: nat) => SumTo(|s.docs|, (c: nat) => AppSlack(cfg, s, a, k, c))))
  {
    var n := |s.docs|;
    var booked := (k: nat) => SumTo(n, (c: nat) => f(OfApp(k, c)));
    var exact := (k: nat) => SumTo(n, (c: nat) => AppExact(cfg, s, a, k, c));
    var slack := (k: nat) => SumTo(n, (c: nat) => AppSlack(cfg, s, a, k, c));
    forall k: nat ensures Near(booked(k), exact(k), slack(k)) {
      AppRowNear(cfg, s, a, f, k);
    }
    NearSums(n, booked, exact, slack);
  }

  lemma OthersBookNothing(s: State, a: Slice, f: Owner -> int)
    requires forall o :: f(o) == BookedBy(s, a, o)
    ensures SumTo(|s.moves|, (i: nat) => f(OfMove(i))) == 0
    ensures SumTo(|s.years|, (i: nat) => f(OfYear(i))) == 0
  {
    SumToZero(|s.moves|, (i: nat) => f(OfMove(i)));
    SumToZero(|s.years|, (i: nat) => f(OfYear(i)));
  }

  /** One settler's applications take its applied amount at its rate, and each charge's share at the charge's. */
  lemma AppExactRow(cfg: Config, s: State, a: Slice, k: nat, n: nat)
    ensures SumTo(n, (c: nat) => AppExact(cfg, s, a, k, c))
            == -(Weight(cfg, s, a, k) * Applied(s.apps, n, k))
              - SumTo(n, (c: nat) => Weight(cfg, s, a, c) * Amount(s.apps, k, c))
  {
    var w := Weight(cfg, s, a, k);
    var x, y := (c: nat) => w * Amount(s.apps, k, c), (c: nat) => Weight(cfg, s, a, c) * Amount(s.apps, k, c);
    var both := (c: nat) => x(c) + y(c);
    SumToScale(n, (c: nat) => Amount(s.apps, k, c), x, w);
    SumToAdd(n, x, y, both);
    SumToScale(n, both, (c: nat) => AppExact(cfg, s, a, k, c), -1);
  }

  lemma AppExactAll(cfg: Config, s: State, a: Slice, n: nat)
    ensures SumTo(n, (k: nat) => SumTo(n, (c: nat) => AppExact(cfg, s, a, k, c)))
            == -SumTo(n, (k: nat) => Weight(cfg, s, a, k) * Applied(s.apps, n, k))
               - SumTo(n, (c: nat) => Weight(cfg, s, a, c) * Settled(s.apps, n, c))
  {
    var x := (k: nat) => Weight(cfg, s, a, k) * Applied(s.apps, n, k);
    var cell := (k: nat, c: nat) => Weight(cfg, s, a, c) * Amount(s.apps, k, c);
    var y := (k: nat) => SumTo(n, (c: nat) => cell(k, c));
    var z := (c: nat) => Weight(cfg, s, a, c) * Settled(s.apps, n, c);
    var both := (k: nat) => x(k) + y(k);
    var whole := (k: nat) => SumTo(n, (c: nat) => AppExact(cfg, s, a, k, c));
    forall k: nat | k < n ensures whole(k) == -1 * both(k) {
      AppExactRow(cfg, s, a, k, n);
      SumToSame(n, (c: nat) => cell(k, c), (c: nat) => Weight(cfg, s, a, c) * Amount(s.apps, k, c));
    }
    forall c: nat | c < n ensures z(c) == SumTo(n, (k: nat) => cell(k, c)) {
      SumToScale(n, (k: nat) => Amount(s.apps, k, c), (k: nat) => cell(k, c), Weight(cfg, s, a, c));
    }
    SumToSwap(n, n, cell, y, z);
    SumToAdd(n, x, y, both);
    SumToScale(n, both, whole, -1);
  }

  /** Each document's total, less what its applications settle, leaves its exposure. */
  lemma ExposureSplits(cfg: Config, s: State, a: Slice)
    ensures TotalExposure(cfg, s, a)
            == SumTo(|s.docs|, (i: nat) => if HasDoc(s, i) then Weight(cfg, s, a, i) * Total(s.docs[i].value) else 0)
               + SumTo(|s.docs|, (k: nat) => SumTo(|s.docs|, (c: nat) => AppExact(cfg, s, a, k, c)))
  {
    var n := |s.docs|;
    AppExactAll(cfg, s, a, n);
    var total := (i: nat) => if HasDoc(s, i) then Weight(cfg, s, a, i) * Total(s.docs[i].value) else 0;
    var x := (k: nat) => Weight(cfg, s, a, k) * Applied(s.apps, n, k);
    var z := (c: nat) => Weight(cfg, s, a, c) * Settled(s.apps, n, c);
    var rest := (i: nat) => Exposure(cfg, s, a, i) + x(i);
    forall i: nat | i < n ensures total(i) == rest(i) + z(i) {
      ExposureAt(cfg, s, a, i);
    }
    SumToAdd(n, rest, z, total);
    SumToAdd(n, (i: nat) => Exposure(cfg, s, a, i), x, rest);
  }

  lemma ExposureAt(cfg: Config, s: State, a: Slice, i: nat)
    ensures (if HasDoc(s, i) then Weight(cfg, s, a, i) * Total(s.docs[i].value) else 0)
            == Exposure(cfg, s, a, i) + Weight(cfg, s, a, i) * Applied(s.apps, |s.docs|, i)
               + Weight(cfg, s, a, i) * Settled(s.apps, |s.docs|, i)
  {
    var w := Weight(cfg, s, a, i);
    if HasDoc(s, i) {
      Spread(w, Total(s.docs[i].value), Settled(s.apps, |s.docs|, i), Applied(s.apps, |s.docs|, i));
    } else {
      assert w == 0;
    }
  }

  lemma Spread(w: int, t: int, x: int, y: int)
    ensures w * (t - x - y) == w * t - w * x - w * y
  {
  }

  lemma OverMinus(s: State, f: Owner -> int, g: Owner -> int, h: Owner -> int)
    requires forall o :: h(o) == f(o) - g(o)
    ensures Over(s, h) == Over(s, f) - Over(s, g)
  {
    var n := |s.docs|;
    SumToAdd(n, (i: nat) => h(OfDoc(i)), (i: nat) => g(OfDoc(i)), (i: nat) => f(OfDoc(i)));
    SumToAdd(|s.moves|, (i: nat) => h(OfMove(i)), (i: nat) => g(OfMove(i)), (i: nat) => f(OfMove(i)));
    SumToAdd(|s.years|, (i: nat) => h(OfYear(i)), (i: nat) => g(OfYear(i)), (i: nat) => f(OfYear(i)));
    var rows := (e: Owner -> int) => (k: nat) => SumTo(n, (c: nat) => e(OfApp(k, c)));
    forall k: nat ensures rows(f)(k) == rows(h)(k) + rows(g)(k) {
      SumToAdd(n, (c: nat) => h(OfApp(k, c)), (c: nat) => g(OfApp(k, c)), (c: nat) => f(OfApp(k, c)));
    }
    SumToAdd(n, rows(h), rows(g), rows(f));
  }

  lemma NearAdds(p: int, e: int, g: int, q: int, f: int, h: int)
    requires Near(p, e, g) && Near(q, f, h)
    ensures Near(p + q, e + f, g + h)
  {
  }

  /** The control lines of the slice add up to its open documents, each at the rate it was booked
      at, to within half a unit per rounding. */
  lemma ControlReconciles(cfg: Config, s: State, a: Slice)
    requires SubledgerOk(cfg, s)
    ensures Near(Held(s, a) - Stray(s, a), TotalExposure(cfg, s, a), Slack(cfg, s, a))
  {
    var n := |s.docs|;
    var f := (o: Owner) => BookedBy(s, a, o);
    OverMinus(s, (o: Owner) => HeldBy(s, a, o), (o: Owner) => StrayBy(s, a, o), f);
    DocsNear(cfg, s, a, f);
    AppsNear(cfg, s, a, f);
    OthersBookNothing(s, a, f);
    ExposureSplits(cfg, s, a);
    hide SubledgerOk, BookedBy, HeldBy, StrayBy, TotalExposure, Near, SumTo;
    NearAdds(SumTo(n, (i: nat) => f(OfDoc(i))),
             SumTo(n, (i: nat) => if HasDoc(s, i) then Weight(cfg, s, a, i) * Total(s.docs[i].value) else 0),
             SumTo(n, (i: nat) => DocSlack(cfg, s, a, i)),
             SumTo(n, (k: nat) => SumTo(n, (c: nat) => f(OfApp(k, c)))),
             SumTo(n, (k: nat) => SumTo(n, (c: nat) => AppExact(cfg, s, a, k, c))),
             SumTo(n, (k: nat) => SumTo(n, (c: nat) => AppSlack(cfg, s, a, k, c))));
  }

  /** Everybody's part of an account is its balance. */
  lemma HeldIsBalance(cfg: Config, s: State, account: int)
    requires Agrees(s) && SubledgerOk(cfg, s)
    ensures Held(s, Slice(account, None)) == Balance(s.journal, Whole(account))
  {
    var a, q, n := Slice(account, None), Whole(account), |s.docs|;
    var f := (o: Owner) => HeldBy(s, a, o);
    forall o: Owner ensures f(o) == Part(s, o, q) {
      if o.OfApp? { assert RowOk(s, o.settler, o.charge); }
    }
    SumToSame(n, (i: nat) => Part(s, OfDoc(i), q), (i: nat) => f(OfDoc(i)));
    SumToSame(|s.moves|, (i: nat) => Part(s, OfMove(i), q), (i: nat) => f(OfMove(i)));
    SumToSame(|s.years|, (i: nat) => Part(s, OfYear(i), q), (i: nat) => f(OfYear(i)));
    var rows := (k: nat) => SumTo(n, (c: nat) => f(OfApp(k, c)));
    forall k: nat ensures rows(k) == AppRow(s, q, n, k) {
      SumToSame(n, (c: nat) => Part(s, OfApp(k, c), q), (c: nat) => f(OfApp(k, c)));
    }
    SumToSame(n, (k: nat) => AppRow(s, q, n, k), rows);
    assert Balance(s.journal, q) == Live(s, q);
  }

  /* ---- what follows ---- */

  /** Everything on the account is settled and applied in full. */
  predicate Exhausted(cfg: Config, s: State, a: Slice) {
    forall id: nat | id < |s.docs| && OnControl(cfg, s, a, id) :: OpenAmount(s, id) == 0
  }

  predicate AllAtOne(cfg: Config, s: State, a: Slice) {
    forall id: nat | id < |s.docs| && OnControl(cfg, s, a, id) :: EntryRateOf(s, id) == RATE_ONE
  }

  /** Signed open amounts: what the subledger says the account should hold. */
  function OpenBalance(cfg: Config, s: State, a: Slice): int {
    SumTo(|s.docs|, (i: nat) => if OnControl(cfg, s, a, i) then Sign(s.docs[i].value) * OpenAmount(s, i) else 0)
  }

  /** In every reachable state, for an account or any one party's part of it: what its live
      entries hold there, without the lines that are not control lines, is its open documents at
      the rates they were booked at, to within half a unit per rounding. */
  lemma EveryRunReconciles(cfg: Config, steps: seq<Step>, a: Slice)
    ensures var s := Run(cfg, steps);
            && Near(Held(s, a) - Stray(s, a), TotalExposure(cfg, s, a), Slack(cfg, s, a))
            && (a.only.None? ==> Held(s, a) == Balance(s.journal, Whole(a.account)))
  {
    hide Run, SubledgerOk, Near, Held, Stray, TotalExposure, Slack, Agrees;
    LiveRuns.EveryRunAgrees(cfg, steps);
    Unposting.EveryRunKeepsSubledger(cfg, steps);
    ControlReconciles(cfg, Run(cfg, steps), a);
    HeldIsBalance(cfg, Run(cfg, steps), a.account);
  }

  /** Once all of it is settled and applied only rounding is left: at most half a unit for each. */
  lemma ResidueBound(cfg: Config, steps: seq<Step>, a: Slice)
    requires Exhausted(cfg, Run(cfg, steps), a)
    ensures var s := Run(cfg, steps); 2 * Abs(Held(s, a) - Stray(s, a)) <= Slack(cfg, s, a)
  {
    hide *;
    EveryRunReconciles(cfg, steps, a);
    NoExposure(cfg, Run(cfg, steps), a);
    NearZero(Held(Run(cfg, steps), a) - Stray(Run(cfg, steps), a), Slack(cfg, Run(cfg, steps), a));
  }

  lemma NearZero(base: int, roundings: int)
    requires Near(base, 0, roundings)
    ensures 2 * Abs(base) <= roundings
  {
  }

  lemma NoExposure(cfg: Config, s: State, a: Slice)
    requires Exhausted(cfg, s, a)
    ensures TotalExposure(cfg, s, a) == 0
  {
    SumToZero(|s.docs|, (i: nat) => Exposure(cfg, s, a, i));
  }

  /** With every document of the slice at rate 1, it holds exactly its open documents, settled or not. */
  lemma ExactAtOne(cfg: Config, steps: seq<Step>, a: Slice)
    requires AllAtOne(cfg, Run(cfg, steps), a)
    ensures var s := Run(cfg, steps); Held(s, a) - Stray(s, a) == OpenBalance(cfg, s, a)
  {
    EveryRunReconciles(cfg, steps, a);
    Unposting.EveryRunKeepsSubledger(cfg, steps);
    var s := Run(cfg, steps);
    hide *;
    NoSlackAtOne(cfg, s, a);
    ExposureAtOne(cfg, s, a);
    NearExact(Held(s, a) - Stray(s, a), OpenBalance(cfg, s, a));
  }

  lemma NearExact(base: int, amount: int)
    requires Near(base, RATE_ONE * amount, 0)
    ensures base == amount
  {
  }

  lemma ExposureAtOne(cfg: Config, s: State, a: Slice)
    requires AllAtOne(cfg, s, a)
    ensures TotalExposure(cfg, s, a) == RATE_ONE * OpenBalance(cfg, s, a)
  {
    var open := (i: nat) => if OnControl(cfg, s, a, i) then Sign(s.docs[i].value) * OpenAmount(s, i) else 0;
    forall i: nat | i < |s.docs| ensures Exposure(cfg, s, a, i) == RATE_ONE * open(i) {
      if OnControl(cfg, s, a, i) { }
    }
    SumToScale(|s.docs|, open, (i: nat) => Exposure(cfg, s, a, i), RATE_ONE);
  }

  lemma NoSlackAtOne(cfg: Config, s: State, a: Slice)
    requires SubledgerOk(cfg, s) && AllAtOne(cfg, s, a)
    ensures Slack(cfg, s, a) == 0
  {
    forall k: nat, c: nat | k < |s.docs| && c < |s.docs| ensures AppSlack(cfg, s, a, k, c) == 0 {
      assert RowOk(s, k, c);
      if (k, c) in s.apps && OnControl(cfg, s, a, k) {
        assert OnControl(cfg, s, a, c);
      }
    }
    var row := (k: nat) => SumTo(|s.docs|, (c: nat) => AppSlack(cfg, s, a, k, c));
    forall k: nat | k < |s.docs| ensures row(k) == 0 {
      SumToZero(|s.docs|, (c: nat) => AppSlack(cfg, s, a, k, c));
    }
    SumToZero(|s.docs|, row);
    SumToZero(|s.docs|, (i: nat) => DocSlack(cfg, s, a, i));
  }

  /** No live entry puts any other line than a control line on the account. */
  ghost predicate UsedOnlyAsControl(s: State, a: Slice) {
    forall o: Owner, l: Line | Belongs(a, s, o) && l in StrayLines(s, o) :: l.account != a.account
  }

  /** Then there is nothing to set aside. */
  lemma NothingStray(s: State, a: Slice)
    requires UsedOnlyAsControl(s, a)
    ensures Stray(s, a) == 0
  {
    var f, n := (o: Owner) => StrayBy(s, a, o), |s.docs|;
    forall o: Owner ensures f(o) == 0 {
      if Belongs(a, s, o) { NetOfNothing(StrayLines(s, o), {a.account}, true); }
    }
    SumToZero(n, (i: nat) => f(OfDoc(i)));
    SumToZero(|s.moves|, (i: nat) => f(OfMove(i)));
    SumToZero(|s.years|, (i: nat) => f(OfYear(i)));
    var rows := (k: nat) => SumTo(n, (c: nat) => f(OfApp(k, c)));
    forall k: nat ensures rows(k) == 0 {
      SumToZero(n, (c: nat) => f(OfApp(k, c)));
    }
    SumToZero(n, rows);
  }

  /** An account that carries nothing but control lines is left with roundings once it is exhausted,
      and holds exactly its open documents when all of them are at rate 1. */
  lemma PureAccount(cfg: Config, steps: seq<Step>, account: int)
    requires UsedOnlyAsControl(Run(cfg, steps), Slice(account, None))
    ensures var s, a := Run(cfg, steps), Slice(account, None);
            && (Exhausted(cfg, s, a) ==> 2 * Abs(Balance(s.journal, Whole(account))) <= Slack(cfg, s, a))
            && (AllAtOne(cfg, s, a) ==> Balance(s.journal, Whole(account)) == OpenBalance(cfg, s, a))
  {
    hide *;
    var s, a := Run(cfg, steps), Slice(account, None);
    EveryRunReconciles(cfg, steps, a);
    NothingStray(s, a);
    if Exhausted(cfg, s, a) {
      ResidueBound(cfg, steps, a);
    }
    if AllAtOne(cfg, s, a) {
      ExactAtOne(cfg, steps, a);
    }
  }
}
