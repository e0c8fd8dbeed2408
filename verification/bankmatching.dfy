/** Offering each line its nearest candidate in turn matches as many lines as any matching could. */
module BankMatching {
  import opened Money
  import opened Calendar
  import opened Tables
  import opened Entries
  import opened Banking
  import opened BankRuns

  /* ---- injections bound sizes ---- */

  lemma {:induction false} InjectionBound<A, B>(g: map<A, B>, ys: set<B>)
    requires forall a | a in g :: g[a] in ys
    requires forall a, b | a in g && b in g && g[a] == g[b] :: a == b
    ensures |g| <= |ys|
    decreases |g|
  {
    if |g| > 0 {
      var a :| a in g;
      var rest := g - {a};
      assert rest.Keys == g.Keys - {a};
      InjectionBound(rest, ys - {g[a]});
    }
  }

  /* ---- what a matching is ---- */

  /** The statement's unmatched lines. */
  function Wanting(s: State, id: nat): set<nat> {
    set b | 0 <= b < |s.bankLines| && IsOn(s.bankLines[b], id) && s.bankLines[b].value.matched.None?
  }

  function AmountOf(s: State, b: nat): int {
    if HasLine(s, b) then s.bankLines[b].value.amount else 0
  }

  function AccountOf(s: State, id: nat): int
    requires HasStatement(s, id)
  {
    s.statements[id].value.account
  }

  /** Unused journal lines on the statement's account with the amount. */
  function FreeRefs(s: State, id: nat, amount: int): set<LineRef>
    requires HasStatement(s, id)
  {
    set r | r in AllRefs(s.journal) && Pairs(s.journal, AccountOf(s, id), amount, r) && !IsUsed(s.bankLines, r)
  }

  /** A way of matching some of the statement's unmatched lines to unused journal lines. */
  ghost predicate IsMatching(s: State, id: nat, m: map<nat, LineRef>)
    requires HasStatement(s, id)
  {
    && (forall b | b in m :: b in Wanting(s, id) && m[b] in FreeRefs(s, id, AmountOf(s, b)))
    && (forall b, c | b in m && c in m && m[b] == m[c] :: b == c)
  }

  /** The matches one state has and an earlier one lacks. */
  function Made(s: State, t: State, id: nat): map<nat, LineRef> {
    map b | b in Wanting(s, id) && b < |t.bankLines| && t.bankLines[b].Some? && t.bankLines[b].value.matched.Some?
      :: t.bankLines[b].value.matched.value
  }

  /* ---- what matching line by line achieves ---- */

  /** Lines of the list are matched to what was free, or nothing free is left for them. */
  ghost predicate Exhaustive(s: State, t: State, account: int, lines: seq<nat>) {
    && (forall r | IsUsed(s.bankLines, r) :: IsUsed(t.bankLines, r))
    && (forall b | b in lines :: HasLine(t, b) && HasLine(s, b))
    && (forall b | b in lines && t.bankLines[b].value.matched.Some? ::
          var r := t.bankLines[b].value.matched.value;
          Pairs(s.journal, account, AmountOf(s, b), r) && !IsUsed(s.bankLines, r))
    && (forall b, r | b in lines && t.bankLines[b].value.matched.None?
        && Pairs(s.journal, account, AmountOf(s, b), r) ::
          IsUsed(t.bankLines, r))
  }

  lemma SetMatchUses(s: State, line: nat, r: LineRef)
    requires HasLine(s, line) && s.bankLines[line].value.matched.None?
    ensures forall x :: IsUsed(SetMatch(s, line, Some(r)).bankLines, x) <==> IsUsed(s.bankLines, x) || x == r
  {
    var t := SetMatch(s, line, Some(r));
    forall x ensures IsUsed(t.bankLines, x) <==> IsUsed(s.bankLines, x) || x == r {
      if x == r { assert t.bankLines[line].value.matched == Some(x); }
      if IsUsed(s.bankLines, x) {
        var b :| 0 <= b < |s.bankLines| && s.bankLines[b].Some? && s.bankLines[b].value.matched == Some(x);
        assert t.bankLines[b] == s.bankLines[b];
      }
    }
  }

  lemma MatchOneExhausts(s: State, account: int, line: nat)
    requires HasLine(s, line) && s.bankLines[line].value.matched.None?
    ensures Exhaustive(s, MatchOne(s, account, line), account, [line])
  {
    match Nearest(s, account, s.bankLines[line].value, AllRefs(s.journal))
    case None =>
      forall r | Pairs(s.journal, account, AmountOf(s, line), r) ensures IsUsed(s.bankLines, r) {
        AllRefsComplete(s.journal, r);
      }
    case Some(r) => SetMatchUses(s, line, r);
  }

  lemma ExhaustiveChain(s: State, u: State, t: State, account: int, rest: seq<nat>, line: nat)
    requires Exhaustive(s, u, account, rest) && Exhaustive(u, t, account, [line])
    requires Matched(s, u, rest) && Matched(u, t, [line]) && line !in rest
    ensures Exhaustive(s, t, account, rest + [line])
  {
    assert line in [line];
    assert AmountOf(u, line) == AmountOf(s, line);
    forall b | b in rest + [line]
      ensures HasLine(t, b) && HasLine(s, b) && (b in rest ==> t.bankLines[b] == u.bankLines[b])
    {
      if b in rest { assert b !in [line]; }
    }
  }

  lemma {:induction false} MatchEachExhausts(s: State, id: nat, lines: seq<nat>)
    requires BankOk(s) && BankRuns.Pending(s, id, lines)
    ensures Exhaustive(s, MatchEach(s, AccountOf(s, id), lines), AccountOf(s, id), lines)
  {
    if lines != [] {
      var n, account := |lines| - 1, AccountOf(s, id);
      var rest, line := lines[..n], lines[n];
      assert line in lines && line !in rest && BankRuns.Pending(s, id, rest);
      MatchEachExhausts(s, id, rest);
      MatchEachKeeps(s, id, rest);
      var u := MatchEach(s, account, rest);
      assert u.bankLines[line] == s.bankLines[line];
      MatchOneExhausts(u, account, line);
      MatchOneKeeps(u, id, line);
      ExhaustiveChain(s, u, MatchOne(u, account, line), account, rest, line);
      assert rest + [line] == lines;
    }
  }

  /** Everything later proofs need of a state s auto-matched into t. */
  ghost predicate AutoMatched(s: State, t: State, id: nat) {
    && HasStatement(s, id) && BankOk(t)
    && Matched(s, t, Unmatched(s, id, |s.bankLines|))
    && Exhaustive(s, t, AccountOf(s, id), Unmatched(s, id, |s.bankLines|))
  }

  lemma AutoMatchFacts(s: State, id: nat)
    requires BankOk(s) && AutoMatch(s, id).Ok?
    ensures AutoMatched(s, AutoMatch(s, id).value, id)
  {
    AutoMatchKeeps(s, id);
    UnmatchedPending(s, id, |s.bankLines|);
    MatchEachExhausts(s, id, Unmatched(s, id, |s.bankLines|));
  }

  /* ---- it is maximum ---- */

  lemma MadeIsMatching(s: State, t: State, id: nat)
    requires AutoMatched(s, t, id)
    ensures IsMatching(s, id, Made(s, t, id))
  {
    forall b | b in Made(s, t, id) ensures Made(s, t, id)[b] in FreeRefs(s, id, AmountOf(s, b)) {
      assert b in Unmatched(s, id, |s.bankLines|);
      AllRefsComplete(s.journal, Made(s, t, id)[b]);
    }
  }

  /** The line that uses a journal line afterwards. */
  ghost function UserOf(t: State, r: LineRef): nat
    requires IsUsed(t.bankLines, r)
  {
    var b :| 0 <= b < |t.bankLines| && t.bankLines[b].Some? && t.bankLines[b].value.matched == Some(r);
    b
  }

  /** Some unmatched line with the amount is left over. */
  ghost predicate LeftOver(s: State, t: State, id: nat, amount: int) {
    exists b | b in Wanting(s, id) :: b !in Made(s, t, id) && AmountOf(s, b) == amount
  }

  /** Where a line is left over, every journal line that was free has been used, by a line of the
      same amount. */
  lemma UserFacts(s: State, t: State, id: nat, amount: int, r: LineRef)
    requires AutoMatched(s, t, id) && LeftOver(s, t, id, amount) && r in FreeRefs(s, id, amount)
    ensures IsUsed(t.bankLines, r) && UserOf(t, r) in Made(s, t, id)
    ensures Made(s, t, id)[UserOf(t, r)] == r && AmountOf(s, UserOf(t, r)) == amount
  {
    var lines := Unmatched(s, id, |s.bankLines|);
    var b :| b in Wanting(s, id) && b !in Made(s, t, id) && AmountOf(s, b) == amount;
    assert b in lines;
    assert IsUsed(t.bankLines, r);
    var u := UserOf(t, r);
    if u !in lines {
      assert false;
    }
  }

  /** Where one line goes in the proof that auto-match has at least as many: itself when all lines
      of its amount were matched, else whichever line uses its journal line. */
  ghost function Image(s: State, t: State, id: nat, b: nat, r: LineRef): nat
    requires HasStatement(s, id)
    requires AutoMatched(s, t, id) && b in Wanting(s, id) && r in FreeRefs(s, id, AmountOf(s, b))
    ensures Image(s, t, id, b, r) in Made(s, t, id) && AmountOf(s, Image(s, t, id, b, r)) == AmountOf(s, b)
    ensures LeftOver(s, t, id, AmountOf(s, b)) ==> Made(s, t, id)[Image(s, t, id, b, r)] == r
    ensures !LeftOver(s, t, id, AmountOf(s, b)) ==> Image(s, t, id, b, r) == b
  {
    if LeftOver(s, t, id, AmountOf(s, b)) then
      UserFacts(s, t, id, AmountOf(s, b), r);
      UserOf(t, r)
    else b
  }

  lemma ImageInjective(s: State, t: State, id: nat, m: map<nat, LineRef>, b: nat, c: nat)
    requires HasStatement(s, id) && AutoMatched(s, t, id) && IsMatching(s, id, m) && b in m && c in m
    requires Image(s, t, id, b, m[b]) == Image(s, t, id, c, m[c])
    ensures b == c
  {
    hide AutoMatched, FreeRefs, Wanting, Made, LeftOver, AmountOf;
    assert AmountOf(s, b) == AmountOf(s, c);
  }

  lemma AtLeastAsMany(s: State, t: State, id: nat, m: map<nat, LineRef>)
    requires HasStatement(s, id) && AutoMatched(s, t, id) && IsMatching(s, id, m)
    ensures |m| <= |Made(s, t, id)|
  {
    hide AutoMatched, FreeRefs, Wanting, Made, LeftOver, AmountOf, Image;
    var g := map b | b in m :: Image(s, t, id, b, m[b]);
    forall b, c | b in g && c in g && g[b] == g[c] ensures b == c {
      ImageInjective(s, t, id, m, b, c);
    }
    InjectionBound(g, Made(s, t, id).Keys);
    assert g.Keys == m.Keys;
    assert |g| == |g.Keys| && |m| == |m.Keys|;
  }

  /** No way of matching the statement's lines matches more of them. */
  lemma AutoMatchIsMaximum(s: State, id: nat, m: map<nat, LineRef>)
    requires BankOk(s) && AutoMatch(s, id).Ok? && HasStatement(s, id) && IsMatching(s, id, m)
    ensures IsMatching(s, id, Made(s, AutoMatch(s, id).value, id))
    ensures |m| <= |Made(s, AutoMatch(s, id).value, id)|
  {
    AutoMatchFacts(s, id);
    MadeIsMatching(s, AutoMatch(s, id).value, id);
    AtLeastAsMany(s, AutoMatch(s, id).value, id, m);
  }

  /* ---- how many, amount by amount ---- */

  function LinesOf(s: State, lines: set<nat>, amount: int): set<nat> {
    set b | b in lines && AmountOf(s, b) == amount
  }

  lemma DoneBound(s: State, t: State, id: nat, amount: int)
    requires AutoMatched(s, t, id)
    ensures LinesOf(s, Made(s, t, id).Keys, amount) <= LinesOf(s, Wanting(s, id), amount)
    ensures |LinesOf(s, Made(s, t, id).Keys, amount)| <= |FreeRefs(s, id, amount)|
  {
    MadeIsMatching(s, t, id);
    var made := Made(s, t, id);
    var done := LinesOf(s, made.Keys, amount);
    var forth := map b | b in done :: made[b];
    hide AutoMatched, FreeRefs, Wanting, Made;
    InjectionBound(forth, FreeRefs(s, id, amount));
    assert forth.Keys == done;
  }

  lemma AllDone(s: State, t: State, id: nat, amount: int)
    requires AutoMatched(s, t, id) && !LeftOver(s, t, id, amount)
    ensures LinesOf(s, Made(s, t, id).Keys, amount) == LinesOf(s, Wanting(s, id), amount)
  {
    DoneBound(s, t, id, amount);
    hide AutoMatched, FreeRefs, Wanting, Made;
  }

  lemma UsersBound(s: State, t: State, id: nat, amount: int)
    requires AutoMatched(s, t, id) && LeftOver(s, t, id, amount)
    ensures |FreeRefs(s, id, amount)| <= |LinesOf(s, Made(s, t, id).Keys, amount)|
  {
    var made, free := Made(s, t, id), FreeRefs(s, id, amount);
    forall r | r in free
      ensures IsUsed(t.bankLines, r) && UserOf(t, r) in LinesOf(s, made.Keys, amount) && made[UserOf(t, r)] == r
    {
      UserFacts(s, t, id, amount, r);
    }
    var back := map r | r in free :: UserOf(t, r);
    InjectionBound(back, LinesOf(s, made.Keys, amount));
    assert back.Keys == free;
  }

  lemma {:induction false} SubsetSize<T>(a: set<T>, b: set<T>)
    requires a <= b
    ensures |a| <= |b|
    decreases |a|
  {
    if a != {} {
      var x :| x in a;
      SubsetSize(a - {x}, b - {x});
    }
  }

  /** For each amount, as many lines as there are lines and free journal lines to pair. */
  lemma CountPerAmount(s: State, id: nat, amount: int)
    requires BankOk(s) && AutoMatch(s, id).Ok? && HasStatement(s, id)
    ensures |LinesOf(s, Made(s, AutoMatch(s, id).value, id).Keys, amount)|
            == Min(|LinesOf(s, Wanting(s, id), amount)|, |FreeRefs(s, id, amount)|)
  {
    var t := AutoMatch(s, id).value;
    AutoMatchFacts(s, id);
    hide AutoMatched, AutoMatch, FreeRefs, Wanting, Made, LeftOver, LinesOf;
    DoneBound(s, t, id, amount);
    SubsetSize(LinesOf(s, Made(s, t, id).Keys, amount), LinesOf(s, Wanting(s, id), amount));
    if LeftOver(s, t, id, amount) {
      UsersBound(s, t, id, amount);
    } else {
      AllDone(s, t, id, amount);
    }
  }
}
