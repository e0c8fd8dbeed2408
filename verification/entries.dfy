/** Journal lines: how each kind of document turns into them, and why they balance. */
module Entries {
  import opened Money
  import opened Tables

  /** The checks the journal_lines table makes of one row. */
  predicate LineOk(l: Line) {
    && 0 <= l.debit && 0 <= l.credit && (l.debit == 0) != (l.credit == 0)
    && 0 <= l.baseDebit && 0 <= l.baseCredit
    && (l.baseDebit == 0 || 0 < l.debit) && (l.baseCredit == 0 || 0 < l.credit)
  }

  /** Debit minus credit, in base or in transaction currency. */
  function Net(l: Line, base: bool): int {
    if base then l.baseDebit - l.baseCredit else l.debit - l.credit
  }

  /** Net of the lines whose account is one of accounts. */
  function NetOf(lines: seq<Line>, accounts: set<int>, base: bool): int {
    if lines == [] then 0
    else (if lines[0].account in accounts then Net(lines[0], base) else 0) + NetOf(lines[1..], accounts, base)
  }

  function NetAll(lines: seq<Line>, base: bool): int {
    if lines == [] then 0 else Net(lines[0], base) + NetAll(lines[1..], base)
  }

  predicate Balanced(lines: seq<Line>) {
    NetAll(lines, false) == 0 && NetAll(lines, true) == 0
  }

  lemma NetAllOne(l: Line, base: bool)
    ensures NetAll([l], base) == Net(l, base)
  {
    assert [l][1..] == [];
    assert NetAll([l][1..], base) == 0;
  }

  lemma {:induction false} NetAllConcat(a: seq<Line>, b: seq<Line>, base: bool)
    ensures NetAll(a + b, base) == NetAll(a, base) + NetAll(b, base)
  {
    if a == [] {
      assert a + b == b;
    } else {
      assert (a + b)[1..] == a[1..] + b;
      NetAllConcat(a[1..], b, base);
    }
  }

  /** Disjoint sets of accounts split a net. */
  lemma {:induction false} NetOfUnion(lines: seq<Line>, a: set<int>, b: set<int>, base: bool)
    requires a !! b
    ensures NetOf(lines, a + b, base) == NetOf(lines, a, base) + NetOf(lines, b, base)
  {
    if lines != [] {
      NetOfUnion(lines[1..], a, b, base);
    }
  }

  lemma {:induction false} NetOfEverything(lines: seq<Line>, accounts: set<int>, base: bool)
    requires forall l | l in lines :: l.account in accounts
    ensures NetOf(lines, accounts, base) == NetAll(lines, base)
  {
    if lines != [] {
      NetOfEverything(lines[1..], accounts, base);
    }
  }

  lemma {:induction false} NetOfNothing(lines: seq<Line>, accounts: set<int>, base: bool)
    requires forall l | l in lines :: l.account !in accounts
    ensures NetOf(lines, accounts, base) == 0
  {
    if lines != [] {
      NetOfNothing(lines[1..], accounts, base);
    }
  }

  lemma {:induction false} NetOfConcat(a: seq<Line>, b: seq<Line>, accounts: set<int>, base: bool)
    ensures NetOf(a + b, accounts, base) == NetOf(a, accounts, base) + NetOf(b, accounts, base)
  {
    if a == [] {
      assert a + b == b;
    } else {
      assert (a + b)[1..] == a[1..] + b;
      NetOfConcat(a[1..], b, accounts, base);
    }
  }

  /* ---- GROUP BY account ---- */

  datatype Item = Item(account: int, amount: int)

  function AmountFor(items: seq<Item>, account: int): int {
    if items == [] then 0
    else (if items[0].account == account then items[0].amount else 0) + AmountFor(items[1..], account)
  }

  function SumItems(items: seq<Item>): int {
    if items == [] then 0 else items[0].amount + SumItems(items[1..])
  }

  lemma {:induction false} ItemsConcat(a: seq<Item>, b: seq<Item>, account: int)
    ensures AmountFor(a + b, account) == AmountFor(a, account) + AmountFor(b, account)
    ensures SumItems(a + b) == SumItems(a) + SumItems(b)
  {
    if a == [] {
      assert a + b == b;
    } else {
      assert (a + b)[1..] == a[1..] + b;
      ItemsConcat(a[1..], b, account);
    }
  }

  function AddToGroups(groups: seq<Item>, it: Item): seq<Item> {
    if groups == [] || it.account < groups[0].account then [it] + groups
    else if it.account == groups[0].account then [Item(it.account, it.amount + groups[0].amount)] + groups[1..]
    else [groups[0]] + AddToGroups(groups[1..], it)
  }

  function DropZeros(groups: seq<Item>): seq<Item> {
    if groups == [] then []
    else if groups[0].amount == 0 then DropZeros(groups[1..])
    else [groups[0]] + DropZeros(groups[1..])
  }

  function Grouped(items: seq<Item>): seq<Item> {
    if items == [] then [] else AddToGroups(Grouped(items[1..]), items[0])
  }

  /** One item per account with a non-zero sum, in account order. */
  function GroupBy(items: seq<Item>): seq<Item> {
    DropZeros(Grouped(items))
  }

  predicate Ascending(items: seq<Item>) {
    forall i, j | 0 <= i < j < |items| :: items[i].account < items[j].account
  }

  lemma {:induction false} AddToGroupsSums(groups: seq<Item>, it: Item, account: int)
    ensures AmountFor(AddToGroups(groups, it), account) == AmountFor(groups, account) + AmountFor([it], account)
    ensures SumItems(AddToGroups(groups, it)) == SumItems(groups) + it.amount
  {
    assert AmountFor([it], account) == if it.account == account then it.amount else 0;
    if groups == [] || it.account < groups[0].account {
      assert ([it] + groups)[1..] == groups;
    } else if it.account == groups[0].account {
      var g := [Item(it.account, it.amount + groups[0].amount)];
      assert (g + groups[1..])[1..] == groups[1..];
    } else {
      AddToGroupsSums(groups[1..], it, account);
      var rest := AddToGroups(groups[1..], it);
      assert ([groups[0]] + rest)[1..] == rest;
    }
  }

  lemma {:induction false} AddToGroupsAscends(groups: seq<Item>, it: Item)
    requires Ascending(groups)
    ensures Ascending(AddToGroups(groups, it))
    ensures forall g | g in AddToGroups(groups, it) ::
              g.account == it.account || exists h :: h in groups && h.account == g.account
  {
    if groups != [] && groups[0].account < it.account {
      AddToGroupsAscends(groups[1..], it);
      var rest := AddToGroups(groups[1..], it);
      hide AddToGroups;
      forall g | g in rest ensures g.account == it.account || exists h :: h in groups && h.account == g.account {
        if g.account != it.account {
          var h :| h in groups[1..] && h.account == g.account;
          assert h in groups;
        }
      }
      forall j | 0 <= j < |rest| ensures groups[0].account < rest[j].account {
        assert rest[j] in rest;
      }
    }
  }

  lemma {:induction false} DropZerosKeeps(groups: seq<Item>, account: int)
    ensures AmountFor(DropZeros(groups), account) == AmountFor(groups, account)
    ensures SumItems(DropZeros(groups)) == SumItems(groups)
  {
    if groups != [] {
      DropZerosKeeps(groups[1..], account);
      var rest := DropZeros(groups[1..]);
      assert ([groups[0]] + rest)[1..] == rest;
    }
  }

  lemma {:induction false} DropZerosIn(groups: seq<Item>)
    ensures forall g | g in DropZeros(groups) :: g in groups && g.amount != 0
  {
    if groups != [] {
      DropZerosIn(groups[1..]);
      assert forall g | g in groups[1..] :: g in groups;
    }
  }

  lemma {:induction false} DropZerosAscends(groups: seq<Item>)
    requires Ascending(groups)
    ensures Ascending(DropZeros(groups))
  {
    if groups != [] {
      var tail, rest := groups[1..], DropZeros(groups[1..]);
      DropZerosAscends(tail);
      DropZerosIn(tail);
      forall j | 0 <= j < |rest| ensures groups[0].account < rest[j].account {
        assert rest[j] in tail;
      }
    }
  }

  lemma {:induction false} GroupedFacts(items: seq<Item>, account: int)
    ensures Ascending(Grouped(items))
    ensures AmountFor(Grouped(items), account) == AmountFor(items, account)
    ensures SumItems(Grouped(items)) == SumItems(items)
  {
    if items != [] {
      GroupedFacts(items[1..], account);
      AddToGroupsAscends(Grouped(items[1..]), items[0]);
      AddToGroupsSums(Grouped(items[1..]), items[0], account);
      assert items == [items[0]] + items[1..];
    }
  }

  /** In a sequence with distinct accounts each item is its account's whole amount. */
  lemma {:induction false} AscendingAmount(items: seq<Item>, g: Item)
    requires Ascending(items) && g in items
    ensures AmountFor(items, g.account) == g.amount
  {
    var rest := items[1..];
    if g == items[0] {
      AbsentAmount(rest, g.account);
    } else {
      AscendingAmount(rest, g);
    }
  }

  lemma {:induction false} AbsentAmount(items: seq<Item>, account: int)
    requires forall g | g in items :: g.account != account
    ensures AmountFor(items, account) == 0
  {
    if items != [] {
      AbsentAmount(items[1..], account);
    }
  }

  /** GROUP BY partitions: it keeps each account's amount and the total, has one row per
      account, in order, and exactly the accounts whose amount is not zero. */
  lemma GroupByPartitions(items: seq<Item>)
    ensures Ascending(GroupBy(items))
    ensures SumItems(GroupBy(items)) == SumItems(items)
    ensures forall account :: AmountFor(GroupBy(items), account) == AmountFor(items, account)
    ensures forall g | g in GroupBy(items) :: g.amount != 0 && g.amount == AmountFor(items, g.account)
    ensures forall account | AmountFor(items, account) != 0 :: exists g :: g in GroupBy(items) && g.account == account
  {
    GroupedFacts(items, 0);
    DropZerosKeeps(Grouped(items), 0);
    DropZerosIn(Grouped(items));
    DropZerosAscends(Grouped(items));
    forall account ensures AmountFor(GroupBy(items), account) == AmountFor(items, account) {
      GroupedFacts(items, account);
      DropZerosKeeps(Grouped(items), account);
    }
    forall g | g in GroupBy(items) ensures g.amount != 0 && g.amount == AmountFor(items, g.account) {
      AscendingAmount(GroupBy(items), g);
    }
    forall account | AmountFor(items, account) != 0 ensures exists g :: g in GroupBy(items) && g.account == account {
      if forall g | g in GroupBy(items) :: g.account != account {
        AbsentAmount(GroupBy(items), account);
      }
    }
  }

  /* ---- the lines a document posts ---- */

  function RevenueItems(lines: seq<DetailLine>): seq<Item> {
    if lines == [] then []
    else if lines[0].account.None? then RevenueItems(lines[1..])
    else [Item(lines[0].account.value, lines[0].subtotal)] + RevenueItems(lines[1..])
  }

  function TaxItems(lines: seq<DetailLine>): seq<Item> {
    if lines == [] then []
    else if lines[0].tax == 0 || lines[0].taxAccount.None? then TaxItems(lines[1..])
    else [Item(lines[0].taxAccount.value, lines[0].tax)] + TaxItems(lines[1..])
  }

  /** Some line with money has no account to put it on. */
  predicate LacksAccount(lines: seq<DetailLine>) {
    exists l | l in lines ::
      (l.subtotal != 0 && l.account.None?) || (l.tax != 0 && l.taxAccount.None?)
  }

  function CreditLine(account: int, amount: int, base: int): Line {
    Line(account, Max(-amount, 0), Max(amount, 0), Max(-base, 0), Max(base, 0))
  }

  function DebitLine(account: int, amount: int, base: int): Line {
    Line(account, Max(amount, 0), Max(-amount, 0), Max(base, 0), Max(-base, 0))
  }

  /** A group on its natural side; one that nets negative lands on the other. */
  function GroupLine(g: Item, rate: Rate, credit: bool): Line {
    if credit then CreditLine(g.account, g.amount, Convert(g.amount, rate))
    else DebitLine(g.account, g.amount, Convert(g.amount, rate))
  }

  function GroupLines(groups: seq<Item>, rate: Rate, credit: bool): seq<Line> {
    if groups == [] then []
    else [GroupLine(groups[0], rate, credit)] + GroupLines(groups[1..], rate, credit)
  }

  /** Detail lines of an invoice and of a purchase credit note are credits. */
  predicate CreditsDetails(k: Kind) { k == SalesInvoice || k == PurchaseCreditNote }

  function DetailLines(d: Doc, rate: Rate): seq<Line> {
    GroupLines(GroupBy(RevenueItems(d.lines)), rate, CreditsDetails(d.kind))
    + GroupLines(GroupBy(TaxItems(d.lines)), rate, CreditsDetails(d.kind))
  }

  /** The base amount on the control line, positive on the document's own side. */
  function ControlBase(d: Doc, rate: Rate): int {
    if IsPayment(d.kind) then Convert(d.amount, rate)
    else if CreditsDetails(d.kind) then -NetAll(DetailLines(d, rate), true)
    else NetAll(DetailLines(d, rate), true)
  }

  /** The control line debits the party's account for these kinds. */
  predicate DebitsControl(k: Kind) { k == SalesInvoice || k == PurchaseCreditNote || k == SupplierPayment }

  function ControlLine(control: int, d: Doc, rate: Rate): Line {
    if DebitsControl(d.kind) then Line(control, Total(d), 0, ControlBase(d, rate), 0)
    else Line(control, 0, Total(d), 0, ControlBase(d, rate))
  }

  /** The lines other than the control line. */
  function OtherLines(d: Doc, rate: Rate): seq<Line> {
    if IsPayment(d.kind) then
      if d.cash.None? then []
      else if d.kind == CustomerPayment then [Line(d.cash.value, d.amount, 0, Convert(d.amount, rate), 0)]
      else [Line(d.cash.value, 0, d.amount, 0, Convert(d.amount, rate))]
    else DetailLines(d, rate)
  }

  /** A document's journal lines in the order they are inserted. */
  function DocLines(control: int, d: Doc, rate: Rate): seq<Line> {
    if d.kind == SupplierPayment then [ControlLine(control, d, rate)] + OtherLines(d, rate)
    else OtherLines(d, rate) + [ControlLine(control, d, rate)]
  }

  /** Everything the posting functions check before they write. */
  predicate Postable(d: Doc) {
    && 0 < Total(d)
    && (IsPayment(d.kind) ==> d.cash.Some?)
    && (!IsPayment(d.kind) ==> !LacksAccount(d.lines))
  }

  lemma {:induction false} ItemsKeepTotals(lines: seq<DetailLine>)
    requires !LacksAccount(lines)
    ensures SumItems(RevenueItems(lines)) == SumSubtotals(lines)
    ensures SumItems(TaxItems(lines)) == SumTaxes(lines)
  {
    if lines != [] {
      forall l | l in lines[1..] ensures l in lines { }
      ItemsKeepTotals(lines[1..]);
      var r, t := RevenueItems(lines[1..]), TaxItems(lines[1..]);
      var l := lines[0];
      assert l in lines;
      if l.account.Some? {
        assert ([Item(l.account.value, l.subtotal)] + r)[1..] == r;
      }
      if l.tax != 0 && l.taxAccount.Some? {
        assert ([Item(l.taxAccount.value, l.tax)] + t)[1..] == t;
      }
    }
  }

  function Oriented(net: int, credit: bool): int { if credit then -net else net }

  lemma GroupLineFacts(g: Item, rate: Rate, credit: bool)
    ensures Oriented(Net(GroupLine(g, rate, credit), false), credit) == g.amount
    ensures Oriented(Net(GroupLine(g, rate, credit), true), credit) == Convert(g.amount, rate)
    ensures g.amount != 0 ==> LineOk(GroupLine(g, rate, credit))
  {
    ConvertSign(g.amount, rate);
  }

  lemma Distribute(a: int, b: int, c: int)
    ensures (a + b) * c == a * c + b * c
  {
  }

  /** Each group line carries exactly its amount. */
  lemma {:induction false} GroupLinesExact(groups: seq<Item>, rate: Rate, credit: bool)
    requires forall g | g in groups :: g.amount != 0
    ensures forall l | l in GroupLines(groups, rate, credit) :: LineOk(l)
    ensures Oriented(NetAll(GroupLines(groups, rate, credit), false), credit) == SumItems(groups)
  {
    if groups != [] {
      var g, rest := groups[0], groups[1..];
      GroupLinesExact(rest, rate, credit);
      GroupLineFacts(g, rate, credit);
      var lines := GroupLines(groups, rate, credit);
      assert lines[1..] == GroupLines(rest, rate, credit);
    }
  }

  /** Each conversion drifts by at most half a unit. */
  lemma {:induction false} GroupLinesDrift(groups: seq<Item>, rate: Rate, credit: bool)
    ensures Within(Oriented(NetAll(GroupLines(groups, rate, credit), true), credit), SumItems(groups), rate, |groups|)
    ensures rate == RATE_ONE ==> Oriented(NetAll(GroupLines(groups, rate, credit), true), credit) == SumItems(groups)
    ensures |GroupLines(groups, rate, credit)| == |groups|
  {
    if groups != [] {
      var g, rest := groups[0], groups[1..];
      GroupLinesDrift(rest, rate, credit);
      GroupLineFacts(g, rate, credit);
      var lines := GroupLines(groups, rate, credit);
      assert lines[1..] == GroupLines(rest, rate, credit);
      var c, s := Convert(g.amount, rate), Oriented(NetAll(lines[1..], true), credit);
      assert Oriented(NetAll(lines, true), credit) == c + s;
      ConvertError(g.amount, rate);
      WithinAdds(c, g.amount, 1, s, SumItems(rest), |rest|, rate);
      if rate == RATE_ONE {
        ConvertAtOne(g.amount);
      }
    }
  }

  /** base is amount x rate, give or take half a unit per rounding. */
  predicate Within(base: int, amount: int, rate: Rate, roundings: nat) {
    2 * Abs(RATE_ONE * base - amount * rate) <= RATE_ONE * roundings
  }

  lemma WithinAdds(c: int, x: int, m: nat, s: int, y: int, n: nat, rate: Rate)
    requires Within(c, x, rate, m) && Within(s, y, rate, n)
    ensures Within(c + s, x + y, rate, m + n)
  {
    Distribute(x, y, rate);
  }

  lemma DetailLinesExact(d: Doc, rate: Rate)
    requires !IsPayment(d.kind) && !LacksAccount(d.lines)
    ensures forall l | l in DetailLines(d, rate) :: LineOk(l)
    ensures Oriented(NetAll(DetailLines(d, rate), false), CreditsDetails(d.kind)) == Total(d)
  {
    var rev, tax := GroupBy(RevenueItems(d.lines)), GroupBy(TaxItems(d.lines));
    var credit := CreditsDetails(d.kind);
    ItemsKeepTotals(d.lines);
    GroupByPartitions(RevenueItems(d.lines));
    GroupByPartitions(TaxItems(d.lines));
    GroupLinesExact(rev, rate, credit);
    GroupLinesExact(tax, rate, credit);
    NetAllConcat(GroupLines(rev, rate, credit), GroupLines(tax, rate, credit), false);
  }

  lemma DetailLinesDrift(d: Doc, rate: Rate)
    requires !IsPayment(d.kind) && !LacksAccount(d.lines)
    ensures Within(ControlBase(d, rate), Total(d), rate, |DetailLines(d, rate)|)
    ensures rate == RATE_ONE ==> ControlBase(d, rate) == Total(d)
  {
    var rev, tax := GroupBy(RevenueItems(d.lines)), GroupBy(TaxItems(d.lines));
    var credit := CreditsDetails(d.kind);
    var a, b := GroupLines(rev, rate, credit), GroupLines(tax, rate, credit);
    var x, y := SumItems(rev), SumItems(tax);
    assert Total(d) == x + y by {
      ItemsKeepTotals(d.lines);
      GroupByPartitions(RevenueItems(d.lines));
      GroupByPartitions(TaxItems(d.lines));
    }
    assert ControlBase(d, rate) == Oriented(NetAll(a, true), credit) + Oriented(NetAll(b, true), credit) by {
      NetAllConcat(a, b, true);
    }
    GroupLinesDrift(rev, rate, credit);
    GroupLinesDrift(tax, rate, credit);
    WithinAdds(Oriented(NetAll(a, true), credit), x, |a|, Oriented(NetAll(b, true), credit), y, |b|, rate);
  }

  /** Every document entry balances exactly, in both currencies. */
  lemma DocLinesBalance(control: int, d: Doc, rate: Rate)
    requires Postable(d)
    ensures Balanced(DocLines(control, d, rate))
  {
    var line, other := ControlLine(control, d, rate), OtherLines(d, rate);
    if IsPayment(d.kind) {
      NetAllOne(other[0], false);
      NetAllOne(other[0], true);
    } else {
      DetailLinesExact(d, rate);
    }
    forall base: bool
      ensures NetAll(DocLines(control, d, rate), base) == Net(line, base) + NetAll(other, base)
    {
      NetAllOne(line, base);
      NetAllConcat([line], other, base);
      NetAllConcat(other, [line], base);
    }
  }

  /* ---- account by account ---- */

  /** What a document's lines put on an account: its revenue or cost, and its tax, each converted once. */
  function DetailShare(d: Doc, rate: Rate, a: int, base: bool): int {
    var revenue, tax := AmountFor(RevenueItems(d.lines), a), AmountFor(TaxItems(d.lines), a);
    if base then Convert(revenue, rate) + Convert(tax, rate) else revenue + tax
  }

  lemma {:induction false} GroupLinesOf(groups: seq<Item>, rate: Rate, credit: bool, a: int, base: bool)
    requires Ascending(groups)
    ensures Oriented(NetOf(GroupLines(groups, rate, credit), {a}, base), credit)
            == if base then Convert(AmountFor(groups, a), rate) else AmountFor(groups, a)
  {
    if groups == [] {
      ConvertSign(0, rate);
    } else {
      var g, rest := groups[0], groups[1..];
      GroupLinesOf(rest, rate, credit, a, base);
      GroupLineFacts(g, rate, credit);
      assert GroupLines(groups, rate, credit)[1..] == GroupLines(rest, rate, credit);
      if g.account == a {
        assert forall h | h in rest :: h.account != a;
        AbsentAmount(rest, a);
        ConvertSign(0, rate);
      }
    }
  }

  lemma DetailLinesOf(d: Doc, rate: Rate, a: int, base: bool)
    ensures Oriented(NetOf(DetailLines(d, rate), {a}, base), CreditsDetails(d.kind)) == DetailShare(d, rate, a, base)
  {
    var credit := CreditsDetails(d.kind);
    GroupByPartitions(RevenueItems(d.lines));
    GroupByPartitions(TaxItems(d.lines));
    var rev, tax := GroupBy(RevenueItems(d.lines)), GroupBy(TaxItems(d.lines));
    hide GroupBy, RevenueItems, TaxItems, Ascending;
    GroupLinesOf(rev, rate, credit, a, base);
    GroupLinesOf(tax, rate, credit, a, base);
    NetOfConcat(GroupLines(rev, rate, credit), GroupLines(tax, rate, credit), {a}, base);
  }

  /** What the lines other than the control line put on an account. */
  function OtherShare(d: Doc, rate: Rate, a: int, base: bool): int {
    if IsPayment(d.kind) then
      if d.cash == Some(a) then (if base then Convert(d.amount, rate) else d.amount) else 0
    else DetailShare(d, rate, a, base)
  }

  function ControlShare(control: int, d: Doc, rate: Rate, a: int, base: bool): int {
    if control != a then 0 else if base then ControlBase(d, rate) else Total(d)
  }

  lemma NetOfOne(l: Line, a: int, base: bool)
    ensures NetOf([l], {a}, base) == if l.account == a then Net(l, base) else 0
  {
    assert [l][1..] == [];
    assert NetOf([l][1..], {a}, base) == 0;
  }

  /** A document's entry moves exactly this on each account: the total on the control account, on
      the side its kind says, and on the other side each line's amount on the line's own account. */
  lemma DocLinesOf(control: int, d: Doc, rate: Rate, a: int, base: bool)
    requires Postable(d)
    ensures NetOf(DocLines(control, d, rate), {a}, base)
            == (if DebitsControl(d.kind) then 1 else -1)
               * (ControlShare(control, d, rate, a, base) - OtherShare(d, rate, a, base))
  {
    var line, other := ControlLine(control, d, rate), OtherLines(d, rate);
    NetOfOne(line, a, base);
    if IsPayment(d.kind) {
      NetOfOne(other[0], a, base);
    } else {
      DetailLinesOf(d, rate, a, base);
    }
    hide GroupBy, DetailLines, RevenueItems, TaxItems, ControlBase;
    NetOfConcat([line], other, {a}, base);
    NetOfConcat(other, [line], {a}, base);
  }

  /** How many conversions a document's entry makes. */
  function Roundings(d: Doc, rate: Rate): nat {
    if IsPayment(d.kind) then 1 else |DetailLines(d, rate)|
  }

  /** The control line's base amount is within half a unit per rounded line of total x rate. */
  lemma ControlDrift(d: Doc, rate: Rate)
    requires Postable(d)
    ensures Within(ControlBase(d, rate), Total(d), rate, Roundings(d, rate))
    ensures rate == RATE_ONE ==> ControlBase(d, rate) == Total(d)
  {
    if IsPayment(d.kind) {
      ConvertError(d.amount, rate);
      if rate == RATE_ONE {
        ConvertAtOne(d.amount);
      }
    } else {
      DetailLinesDrift(d, rate);
    }
  }

  /** The table accepts the lines exactly when the control line's base amount is not negative. */
  lemma DocLinesAccepted(control: int, d: Doc, rate: Rate)
    requires Postable(d)
    ensures (forall l | l in DocLines(control, d, rate) :: LineOk(l)) <==> 0 <= ControlBase(d, rate)
  {
    var line, other := ControlLine(control, d, rate), OtherLines(d, rate);
    if IsPayment(d.kind) {
      ConvertSign(d.amount, rate);
    } else {
      DetailLinesExact(d, rate);
    }
    assert line in DocLines(control, d, rate);
    forall l | l in DocLines(control, d, rate) ensures l == line || l in other { }
  }

  /** A discount on its own revenue account can out-round the sale it discounts. */
  lemma ControlBaseCanBeNegative()
    ensures exists d: Doc, rate: Rate :: Postable(d) && ControlBase(d, rate) < 0
  {
    // 5 sold on one account, 2 discounted on each of two others, at rate 1/4: round(1.25) = 1
    // in, round(0.5) = 1 out, twice.
    var lines := [DetailLine(Some(1), 5, None, 0), DetailLine(Some(2), -2, None, 0), DetailLine(Some(3), -2, None, 0)];
    var d := Doc(SalesInvoice, 0, 0, "EUR", lines, 0, None, false, None);
    var rate: Rate := 2500_0000;
    assert lines[1..] == [lines[1], lines[2]] && lines[1..][1..] == [lines[2]];
    var i1, i2, i3 := Item(1, 5), Item(2, -2), Item(3, -2);
    calc {
      RevenueItems(lines);
      [i1] + RevenueItems(lines[1..]);
      { assert RevenueItems(lines[1..]) == [i2] + RevenueItems([lines[2]]); assert RevenueItems([lines[2]]) == [i3]; }
      [i1, i2, i3];
    }
    assert TaxItems(lines) == [] by {
      assert TaxItems(lines[1..]) == TaxItems([lines[2]]);
    }
    var all := [i1, i2, i3];
    assert all[1..] == [i2, i3] && [i2, i3][1..] == [i3];
    assert Grouped([i3]) == [i3];
    assert Grouped([i2, i3]) == [i2, i3];
    assert Grouped(all) == all;
    assert DropZeros([i3]) == [i3];
    assert DropZeros([i2, i3]) == [i2, i3];
    assert GroupBy(all) == all;
    var l1, l2, l3 := CreditLine(1, 5, 1), CreditLine(2, -2, -1), CreditLine(3, -2, -1);
    assert GroupLines([i3], rate, true) == [l3];
    assert GroupLines([i2, i3], rate, true) == [l2, l3];
    assert GroupLines(all, rate, true) == [l1, l2, l3];
    assert GroupBy(TaxItems(lines)) == [];
    assert DetailLines(d, rate) == [l1, l2, l3];
    assert [l1, l2, l3][1..] == [l2, l3] && [l2, l3][1..] == [l3];
    assert NetAll([l3], true) == 1;
    assert NetAll([l2, l3], true) == 2;
    assert NetAll([l1, l2, l3], true) == 1;
    assert SumSubtotals(lines) == 1 && SumTaxes(lines) == 0 by {
      assert SumSubtotals([lines[2]]) == -2;
      assert SumSubtotals(lines[1..]) == -4;
    }
    assert Postable(d) && ControlBase(d, rate) < 0;
  }

  /* ---- settlement, stock and reversal lines ---- */

  /** A realized exchange difference v, oriented so that a positive v debits the control account. */
  function FxLines(control: int, fx: int, v: int): seq<Line> {
    [DebitLine(control, v, v), CreditLine(fx, v, v)]
  }

  /** A base-currency transfer of cost between two accounts. */
  function TransferLines(debit: int, credit: int, cost: int): seq<Line> {
    [Line(debit, cost, 0, cost, 0), Line(credit, 0, cost, 0, cost)]
  }

  lemma PairNet(l: Line, m: Line, base: bool)
    ensures NetAll([l, m], base) == Net(l, base) + Net(m, base)
  {
    NetAllOne(l, base);
    NetAllOne(m, base);
    NetAllConcat([l], [m], base);
    assert [l] + [m] == [l, m];
  }

  lemma PairsBalance(a: int, b: int, v: int)
    ensures Balanced(FxLines(a, b, v)) && Balanced(TransferLines(a, b, v))
  {
    forall base: bool
      ensures NetAll(FxLines(a, b, v), base) == 0 && NetAll(TransferLines(a, b, v), base) == 0
    {
      PairNet(DebitLine(a, v, v), CreditLine(b, v, v), base);
      PairNet(Line(a, v, 0, v, 0), Line(b, 0, v, 0, v), base);
    }
  }

  function MirrorLine(l: Line): Line {
    Line(l.account, l.credit, l.debit, l.baseCredit, l.baseDebit)
  }

  function Mirror(lines: seq<Line>): seq<Line> {
    seq(|lines|, i requires 0 <= i < |lines| => MirrorLine(lines[i]))
  }

  /** A mirror cancels its original on every account, in both currencies. */
  lemma {:induction false} MirrorCancels(lines: seq<Line>, accounts: set<int>, base: bool)
    ensures NetOf(Mirror(lines), accounts, base) == -NetOf(lines, accounts, base)
    ensures NetAll(Mirror(lines), base) == -NetAll(lines, base)
    ensures forall l | l in Mirror(lines) :: MirrorLine(l) in lines
  {
    if lines != [] {
      MirrorCancels(lines[1..], accounts, base);
      assert Mirror(lines)[1..] == Mirror(lines[1..]);
    }
  }
}
