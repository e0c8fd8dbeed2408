/** A small shop for examples: one customer, base-currency sales and payments. */
module Shop {
  import opened Money
  import opened Calendar
  import opened Tables
  import opened Entries
  import opened Periods
  import opened Ledger

  /** Accounts: 1 receivables, 2 sales, 3 bank, 4 retained earnings. */
  const SHOP: Config :=
    Config(
      map[1 := Account(Asset, false), 2 := Account(Revenue, false), 3 := Account(Asset, true),
          4 := Account(Equity, false)],
      map[0 := 1], map[], "USD")

  function Sale(date: Date, entry: Option<nat>): Doc {
    Doc(SalesInvoice, 0, date, "USD", [DetailLine(Some(2), 100, None, 0)], 0, None, false, entry)
  }

  function Paid(amount: int, entry: Option<nat>): Doc {
    Doc(CustomerPayment, 0, 0, "USD", [], amount, Some(3), false, entry)
  }

  const SALE_LINES: seq<Line> := [CreditLine(2, 100, 100), Line(1, 100, 0, 100, 0)]

  function PaidLines(amount: int): seq<Line> {
    [Line(3, amount, 0, amount, 0), Line(1, 0, amount, 0, amount)]
  }

  lemma GroupByOne(it: Item)
    requires it.amount != 0
    ensures GroupBy([it]) == [it] && GroupBy([]) == []
  {
    assert [it][1..] == [];
    assert Grouped([]) == [] && DropZeros([]) == [];
    assert Grouped([it]) == AddToGroups([], it) == [it];
    assert DropZeros([it]) == [it] + DropZeros([it][1..]);
  }

  lemma SaleDetails(date: Date, entry: Option<nat>)
    ensures DetailLines(Sale(date, entry), RATE_ONE) == [CreditLine(2, 100, 100)]
  {
    var d, it := Sale(date, entry), Item(2, 100);
    assert d.lines[1..] == [];
    assert RevenueItems(d.lines[1..]) == [] && TaxItems(d.lines[1..]) == [];
    assert RevenueItems(d.lines) == [it] && TaxItems(d.lines) == [];
    GroupByOne(it);
    ConvertAtOne(100);
    assert [it][1..] == [];
    assert GroupLines([it][1..], RATE_ONE, true) == [];
    assert GroupLines([it], RATE_ONE, true) == [CreditLine(2, 100, 100)];
  }

  /** A sale is worth 100 and posts a receivable against the sale. */
  lemma SaleIsPosted(date: Date, entry: Option<nat>)
    ensures Total(Sale(date, entry)) == 100 && Postable(Sale(date, entry))
    ensures DocLines(1, Sale(date, entry), RATE_ONE) == SALE_LINES
  {
    var d := Sale(date, entry);
    SaleDetails(date, entry);
    assert d.lines[1..] == [];
    assert SumSubtotals(d.lines[1..]) == 0 && SumTaxes(d.lines[1..]) == 0;
    hide DetailLines;
    NetAllOne(CreditLine(2, 100, 100), true);
  }

  lemma PaidIsPosted(amount: int, entry: Option<nat>)
    requires 0 < amount
    ensures Postable(Paid(amount, entry)) && DocLines(1, Paid(amount, entry), RATE_ONE) == PaidLines(amount)
  {
    ConvertAtOne(amount);
  }

  /** Posting a document into a period that is there or can be made. */
  lemma DocPosts(s: State, id: nat, d: Doc, lines: seq<Line>, periods: seq<Period>, p: nat)
    requires id < |s.docs| && s.docs[id] == Some(d) && d.entry.None? && Postable(d)
    requires d.currency == "USD" && ArSide(d.kind) && d.party == 0
    requires DocLines(1, d, RATE_ONE) == lines && Insertable(SHOP, s.writable, lines)
    requires PeriodForDate(s.periods, s.years, d.date) == Ok((periods, p))
    ensures PostDoc(SHOP, s, id)
            == Ok(s.(periods := periods,
                     journal := s.journal + [Entry(d.date, p, "USD", RATE_ONE, lines, None, false)],
                     docs := s.docs[id := Some(d.(entry := Some(|s.journal|)))]))
  {
    hide DocLines, Total, PeriodForDate, Insertable, LacksAccount;
  }
}
