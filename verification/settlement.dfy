/** Oldest-first allocation of payments and credit notes, and the exchange differences it realizes. */
module Settlement {
  import opened Money
  import opened Sums
  import opened Calendar
  import opened Tables
  import opened Entries
  import opened Periods
  import opened Ledger

  function Amount(apps: map<(nat, nat), App>, settler: nat, charge: nat): int {
    if (settler, charge) in apps then apps[(settler, charge)].amount else 0
  }

  /** What settlers below n have put against a charge: payments and credit notes together. */
  function Settled(apps: map<(nat, nat), App>, n: nat, charge: nat): int {
    SumTo(n, (k: nat) => Amount(apps, k, charge))
  }

  /** What a settler has put against charges below n. */
  function Applied(apps: map<(nat, nat), App>, n: nat, settler: nat): int {
    SumTo(n, (c: nat) => Amount(apps, settler, c))
  }

  function Available(s: State, charge: nat): int
    requires HasDoc(s, charge)
  {
    Total(s.docs[charge].value) - Settled(s.apps, |s.docs|, charge)
  }

  function Remaining(s: State, settler: nat): int
    requires HasDoc(s, settler)
  {
    Total(s.docs[settler].value) - Applied(s.apps, |s.docs|, settler)
  }

  /** The charge may receive from the settler: posted, same side, party and currency. */
  predicate Matches(s: State, settler: nat, charge: nat) {
    && IsPosted(s, settler) && IsPosted(s, charge)
    && var d, c := s.docs[settler].value, s.docs[charge].value;
       && !IsCharge(d.kind) && IsCharge(c.kind) && ArSide(c.kind) == ArSide(d.kind)
       && c.party == d.party && c.currency == d.currency
  }

  predicate IsOpen(s: State, settler: nat, charge: nat) {
    Matches(s, settler, charge) && 0 < Available(s, charge)
  }

  predicate Before(s: State, c1: nat, c2: nat)
    requires HasDoc(s, c1) && HasDoc(s, c2)
  {
    var d1, d2 := s.docs[c1].value.date, s.docs[c2].value.date;
    d1 < d2 || (d1 == d2 && c1 < c2)
  }

  /** Adds a charge to a list kept by date, then id. */
  function InsertByDate(s: State, charges: seq<nat>, c: nat): (r: seq<nat>)
    requires HasDoc(s, c) && forall x | x in charges :: HasDoc(s, x)
    ensures forall x: nat :: x in r <==> x == c || x in charges
    ensures |r| == |charges| + 1
  {
    if charges == [] || Before(s, c, charges[0]) then [c] + charges
    else [charges[0]] + InsertByDate(s, charges[1..], c)
  }

  /** The settler's open charges below n, oldest first. */
  function OpenCharges(s: State, settler: nat, n: nat): (r: seq<nat>)
    ensures forall x: nat :: x in r <==> x < n && IsOpen(s, settler, x)
    ensures r != [] ==> IsOpen(s, settler, r[0])
  {
    if n == 0 then []
    else
      var rest := OpenCharges(s, settler, n - 1);
      if IsOpen(s, settler, n - 1) then InsertByDate(s, rest, n - 1) else rest
  }

  function Availables(s: State, charges: seq<nat>): (r: seq<int>)
    requires forall x | x in charges :: HasDoc(s, x)
    ensures |r| == |charges| && forall i | 0 <= i < |r| :: r[i] == Available(s, charges[i])
  {
    if charges == [] then [] else [Available(s, charges[0])] + Availables(s, charges[1..])
  }

  function SumSeq(xs: seq<int>): int {
    if xs == [] then 0 else SumSeq(xs[..|xs| - 1]) + xs[|xs| - 1]
  }

  /** The window-function form: each charge takes LEAST(available, GREATEST(remaining - prior, 0)),
      where prior is the sum of the availables before it. */
  function Alloc(availables: seq<int>, remaining: int): seq<int> {
    seq(|availables|, i requires 0 <= i < |availables| =>
      Min(availables[i], Max(remaining - SumSeq(availables[..i]), 0)))
  }

  /** One row per positive amount; a second row for the same pair breaks the unique constraint. */
  function InsertApps(apps: map<(nat, nat), App>, settler: nat, charges: seq<nat>, amounts: seq<int>)
    : Result<map<(nat, nat), App>>
    requires |charges| == |amounts|
  {
    if charges == [] then Ok(apps)
    else
      var n := |charges| - 1;
      var before :- InsertApps(apps, settler, charges[..n], amounts[..n]);
      if amounts[n] <= 0 then Ok(before)
      else if (settler, charges[n]) in before then Err(ConstraintViolation)
      else Ok(before[(settler, charges[n]) := App(amounts[n], None)])
  }

  /* ---- realized exchange differences ---- */

  function EntryRateOf(s: State, id: nat): Rate
    requires IsPosted(s, id)
  {
    var i := s.docs[id].value.entry.value;
    if i < |s.journal| then s.journal[i].rate else RATE_ONE
  }

  /** round(applied x settler rate) - round(applied x document rate). */
  function Difference(s: State, settler: nat, charge: nat): int
    requires IsPosted(s, settler) && IsPosted(s, charge)
  {
    var a := Amount(s.apps, settler, charge);
    Convert(a, EntryRateOf(s, settler)) - Convert(a, EntryRateOf(s, charge))
  }

  predicate IsCandidate(s: State, settler: nat, charge: nat) {
    && (settler, charge) in s.apps && s.apps[(settler, charge)].fx.None?
    && IsPosted(s, settler) && IsPosted(s, charge)
    && Difference(s, settler, charge) != 0
  }

  /** The settler's applications to charges below n that still need an FX entry. */
  function Candidates(s: State, settler: nat, n: nat): (r: seq<nat>)
    ensures forall c: nat :: c in r <==> c < n && IsCandidate(s, settler, c)
    ensures r != [] ==> IsCandidate(s, settler, r[0])
  {
    if n == 0 then []
    else if IsCandidate(s, settler, n - 1) then Candidates(s, settler, n - 1) + [n - 1]
    else Candidates(s, settler, n - 1)
  }

  /** The difference oriented so that a positive value debits the control account. */
  function FxValue(s: State, settler: nat, charge: nat): int
    requires IsPosted(s, settler) && IsPosted(s, charge)
  {
    if ArSide(s.docs[settler].value.kind) then Difference(s, settler, charge) else -Difference(s, settler, charge)
  }

  /** Books one application's difference on the settlement date and links it. */
  function PostOneFx(cfg: Config, s: State, settler: nat, charge: nat, fxAccount: int): Result<State> {
    if !(IsPosted(s, settler) && IsPosted(s, charge) && (settler, charge) in s.apps) then Err(NotFound)
    else
      var d := s.docs[settler].value;
      if Control(cfg, d).None? then Err(MissingAccount)
      else
        var rate :- EntryRate(cfg, s, cfg.base, d.date);
        var lines := FxLines(Control(cfg, d).value, fxAccount, FxValue(s, settler, charge));
        var s1 :- AddEntry(cfg, s, Entry(d.date, 0, cfg.base, rate, lines, None, false));
        Ok(s1.(apps := s1.apps[(settler, charge) := s1.apps[(settler, charge)].(fx := Some(|s.journal|))]))
  }

  function PostFx(cfg: Config, s: State, settler: nat, charges: seq<nat>, fxAccount: int): Result<State> {
    if charges == [] then Ok(s)
    else
      var n := |charges| - 1;
      var s1 :- PostFx(cfg, s, settler, charges[..n], fxAccount);
      PostOneFx(cfg, s1, settler, charges[n], fxAccount)
  }

  function PostSettlementFx(cfg: Config, s: State, settler: nat): Result<State> {
    var candidates := Candidates(s, settler, |s.docs|);
    if candidates == [] then Ok(s)
    else if s.fxAccount.None? then Err(MissingAccount)
    else PostFx(cfg, s, settler, candidates, s.fxAccount.value)
  }

  function Charges(s: State, settler: nat): seq<nat> {
    OpenCharges(s, settler, |s.docs|)
  }

  function Amounts(s: State, settler: nat): (r: seq<int>)
    requires HasDoc(s, settler)
    ensures |r| == |Charges(s, settler)|
  {
    Alloc(Availables(s, Charges(s, settler)), Remaining(s, settler))
  }

  /** Inserts the application rows. */
  function WithRows(s: State, settler: nat): Result<State>
    requires HasDoc(s, settler)
  {
    var apps :- InsertApps(s.apps, settler, Charges(s, settler), Amounts(s, settler));
    Ok(s.(apps := apps))
  }

  /** Allocates a posted payment's or credit note's remainder over the party's open charges,
      then books the exchange differences. */
  function AutoApply(cfg: Config, s: State, settler: nat): Result<State> {
    if !HasDoc(s, settler) || IsCharge(s.docs[settler].value.kind) then Err(NotFound)
    else if s.docs[settler].value.entry.None? then Err(NotPosted)
    else
      var s1 :- WithRows(s, settler);
      PostSettlementFx(cfg, s1, settler)
  }

  /* ---- the closed form is the greedy loop ---- */

  /** Takes the charges in turn, giving each as much as it can take of what is left. */
  method Greedy(availables: seq<int>, remaining: int) returns (amounts: seq<int>, left: int)
    requires 0 <= remaining && AllPositive(availables)
    ensures amounts == Alloc(availables, remaining)
    ensures left == remaining - SumSeq(amounts) && 0 <= left
    ensures left == Max(remaining - SumSeq(availables), 0)
  {
    amounts, left := [], remaining;
    for i := 0 to |availables|
      invariant IsGreedy(availables[..i], remaining, amounts, left)
    {
      var amount := Min(availables[i], left);
      GreedyNext(availables, remaining, i, amounts, left);
      amounts, left := amounts + [amount], left - amount;
    }
    assert availables[..|availables|] == availables;
  }

  ghost predicate IsGreedy(availables: seq<int>, remaining: int, amounts: seq<int>, left: int) {
    && amounts == Alloc(availables, remaining)
    && left == remaining - SumSeq(amounts) == Max(remaining - SumSeq(availables), 0)
  }

  lemma GreedyNext(availables: seq<int>, remaining: int, i: nat, amounts: seq<int>, left: int)
    requires i < |availables| && 0 < availables[i] && IsGreedy(availables[..i], remaining, amounts, left)
    ensures var amount := Min(availables[i], left);
            IsGreedy(availables[..i + 1], remaining, amounts + [amount], left - amount)
  {
    hide Alloc, SumSeq;
    AllocNext(availables, remaining, i);
    AppendSum(amounts, Min(availables[i], left));
    AppendSum(availables[..i], availables[i]);
    assert availables[..i + 1] == availables[..i] + [availables[i]];
  }

  lemma AppendSum(xs: seq<int>, x: int)
    ensures SumSeq(xs + [x]) == SumSeq(xs) + x
  {
    assert (xs + [x])[..|xs|] == xs;
  }

  /** One more charge is offered what the ones before it leave. */
  lemma AllocNext(availables: seq<int>, remaining: int, i: nat)
    requires i < |availables|
    ensures Alloc(availables[..i + 1], remaining)
            == Alloc(availables[..i], remaining) + [Min(availables[i], Max(remaining - SumSeq(availables[..i]), 0))]
  {
    assert forall j | 0 <= j <= i :: availables[..i + 1][..j] == availables[..j];
    assert forall j | 0 <= j < i :: availables[..i][..j] == availables[..j];
  }

  predicate AllPositive(xs: seq<int>) {
    forall i | 0 <= i < |xs| :: 0 < xs[i]
  }

  /** Allocating over a prefix is the prefix of the allocation. */
  lemma AllocPrefix(availables: seq<int>, remaining: int, n: nat)
    requires n <= |availables|
    ensures Alloc(availables[..n], remaining) == Alloc(availables, remaining)[..n]
  {
    assert forall i | 0 <= i < n :: availables[..n][..i] == availables[..i];
  }

  lemma {:induction false} AllocTotal(availables: seq<int>, remaining: int)
    requires 0 <= remaining && AllPositive(availables)
    ensures SumSeq(Alloc(availables, remaining)) == Min(remaining, SumSeq(availables))
    ensures 0 <= SumSeq(availables)
  {
    if availables != [] {
      var n := |availables| - 1;
      AllocTotal(availables[..n], remaining);
      AllocPrefix(availables, remaining, n);
    }
  }

  lemma {:induction false} SumSeqPrefix(xs: seq<int>, i: nat, j: nat)
    requires i < j <= |xs| && AllPositive(xs)
    ensures SumSeq(xs[..i]) + xs[i] <= SumSeq(xs[..j])
  {
    assert xs[..j][..j - 1] == xs[..j - 1];
    if i < j - 1 {
      SumSeqPrefix(xs, i, j - 1);
    }
  }

  /** Oldest first: exactly min(remaining, all that is available) is handed out, never more than
      a charge can take, and nothing to a charge while an older one is short. */
  predicate IsFifo(availables: seq<int>, remaining: int, amounts: seq<int>) {
    && |amounts| == |availables|
    && SumSeq(amounts) == Min(remaining, SumSeq(availables))
    && (forall i | 0 <= i < |amounts| :: 0 <= amounts[i] <= availables[i])
    && (forall i, j | 0 <= i < j < |amounts| && 0 < amounts[j] :: amounts[i] == availables[i])
  }

  lemma AllocIsFifo(availables: seq<int>, remaining: int)
    requires 0 <= remaining && AllPositive(availables)
    ensures IsFifo(availables, remaining, Alloc(availables, remaining))
  {
    AllocTotal(availables, remaining);
    var amounts := Alloc(availables, remaining);
    forall i, j | 0 <= i < j < |amounts| && 0 < amounts[j] ensures amounts[i] == availables[i] {
      SumSeqPrefix(availables, i, j);
    }
  }

  lemma {:induction false} SumBelow(xs: seq<int>, ys: seq<int>)
    requires |xs| == |ys| && forall i | 0 <= i < |xs| :: xs[i] <= ys[i]
    ensures SumSeq(xs) <= SumSeq(ys)
  {
    if xs != [] {
      var n := |xs| - 1;
      SumBelow(xs[..n], ys[..n]);
    }
  }

  lemma FifoPrefix(availables: seq<int>, remaining: int, amounts: seq<int>)
    requires 0 <= remaining && AllPositive(availables) && availables != []
    requires IsFifo(availables, remaining, amounts)
    ensures var n := |availables| - 1; IsFifo(availables[..n], remaining, amounts[..n])
    ensures var n := |availables| - 1; amounts[n] == Min(availables[n], Max(remaining - SumSeq(availables[..n]), 0))
  {
    var n := |availables| - 1;
    var xs, ys := amounts[..n], availables[..n];
    SumBelow(xs, ys);
    if amounts[n] > 0 {
      assert xs == ys;
    }
    assert SumSeq(amounts) == SumSeq(xs) + amounts[n];
    assert SumSeq(availables) == SumSeq(ys) + availables[n];
    assert SumSeq(xs) == Min(remaining, SumSeq(ys));
  }

  /** Oldest-first leaves only one way to spend an amount: the closed form. */
  lemma {:induction false} FifoIsUnique(availables: seq<int>, remaining: int, amounts: seq<int>)
    requires 0 <= remaining && AllPositive(availables)
    requires IsFifo(availables, remaining, amounts)
    ensures amounts == Alloc(availables, remaining)
  {
    if availables != [] {
      var n := |availables| - 1;
      FifoPrefix(availables, remaining, amounts);
      FifoIsUnique(availables[..n], remaining, amounts[..n]);
      AllocPrefix(availables, remaining, n);
      forall i | 0 <= i < n ensures amounts[i] == Alloc(availables, remaining)[i] {
        assert amounts[i] == amounts[..n][i];
        assert Alloc(availables, remaining)[i] == Alloc(availables, remaining)[..n][i];
      }
    }
  }

  /** Charges come out strictly by date, then id. */
  ghost predicate ByDate(s: State, charges: seq<nat>) {
    && (forall x | x in charges :: HasDoc(s, x))
    && (forall i, j | 0 <= i < j < |charges| :: Before(s, charges[i], charges[j]))
  }

  lemma {:induction false} InsertByDateSorted(s: State, charges: seq<nat>, c: nat)
    requires ByDate(s, charges) && HasDoc(s, c) && c !in charges
    ensures ByDate(s, InsertByDate(s, charges, c))
  {
    if charges != [] && !Before(s, c, charges[0]) {
      assert charges[0] in charges;
      InsertByDateSorted(s, charges[1..], c);
      var rest := InsertByDate(s, charges[1..], c);
      forall j | 0 <= j < |rest| ensures Before(s, charges[0], rest[j]) {
        assert rest[j] in rest;
      }
    }
  }

  lemma {:induction false} OpenChargesByDate(s: State, settler: nat, n: nat)
    ensures ByDate(s, OpenCharges(s, settler, n))
  {
    if n > 0 {
      OpenChargesByDate(s, settler, n - 1);
      if IsOpen(s, settler, n - 1) {
        InsertByDateSorted(s, OpenCharges(s, settler, n - 1), n - 1);
      }
    }
  }

  /* ---- rows and their exchange differences ---- */

  /** Every new row is the settler's, to one of the charges, for a positive amount, without an FX entry. */
  lemma {:induction false} FreshApps(apps: map<(nat, nat), App>, settler: nat, charges: seq<nat>, amounts: seq<int>)
    requires |charges| == |amounts| && InsertApps(apps, settler, charges, amounts).Ok?
    ensures var after := InsertApps(apps, settler, charges, amounts).value;
            && (forall key | key in apps :: key in after && after[key] == apps[key])
            && (forall key | key in after && key !in apps ::
                  key.0 == settler && key.1 in charges && 0 < after[key].amount && after[key].fx.None?)
  {
    if charges != [] {
      var n := |charges| - 1;
      FreshApps(apps, settler, charges[..n], amounts[..n]);
    }
  }

  ghost predicate Pending(s: State, settler: nat, charges: seq<nat>) {
    && (forall i, j | 0 <= i < j < |charges| :: charges[i] != charges[j])
    && (forall c | c in charges :: (settler, c) in s.apps && s.apps[(settler, c)].fx.None?)
  }

  /** The same rows with the same amounts; only the FX links of the given charges may differ. */
  ghost predicate SameButFx(a: map<(nat, nat), App>, b: map<(nat, nat), App>, settler: nat, charges: seq<nat>) {
    && a.Keys == b.Keys
    && (forall key | key in a :: b[key].amount == a[key].amount)
    && (forall key | key in a && !(key.0 == settler && key.1 in charges) :: b[key] == a[key])
  }

  lemma SameButFxChain(a: map<(nat, nat), App>, b: map<(nat, nat), App>, c: map<(nat, nat), App>, settler: nat,
                       charges: seq<nat>)
    requires charges != []
    requires SameButFx(a, b, settler, charges[..|charges| - 1]) && SameButFx(b, c, settler, [charges[|charges| - 1]])
    ensures SameButFx(a, c, settler, charges)
  {
    var rest, last := charges[..|charges| - 1], charges[|charges| - 1];
    assert charges == rest + [last];
    forall key | key in a ensures c[key].amount == a[key].amount {
      assert key in a.Keys && key in b.Keys;
    }
    forall key | key in a && !(key.0 == settler && key.1 in charges) ensures c[key] == a[key] {
      assert key in a.Keys && key in b.Keys;
    }
  }

  lemma {:induction false} CandidatesPending(s: State, settler: nat, n: nat)
    ensures Pending(s, settler, Candidates(s, settler, n))
  {
    if n > 0 {
      CandidatesPending(s, settler, n - 1);
    }
  }
}
