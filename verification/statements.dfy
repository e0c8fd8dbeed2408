/** The balance sheet and the cash-flow statement, and the identities that tie them together on
    every reachable journal. */
module Statements {
  import opened Money
  import opened Sums
  import opened Calendar
  import opened Tables
  import opened Entries
  import opened Periods
  import opened Balances
  import opened YearEnd
  import opened LiveEntries
  import opened Machine
  import opened Ledger
  import opened Subledger
  import LiveRuns
  import Unposting
  import Linked

  /* ---- report rows ---- */

  function LineItems(lines: seq<Line>, q: Query): seq<Item> {
    if lines == [] then []
    else if lines[0].account in q.accounts then
      [Item(lines[0].account, Net(lines[0], q.base))] + LineItems(lines[1..], q)
    else LineItems(lines[1..], q)
  }

  function ReportItems(journal: seq<Entry>, q: Query): seq<Item> {
    if journal == [] then []
    else
      var last := journal[|journal| - 1];
      ReportItems(journal[..|journal| - 1], q) + (if InScope(q, last) then LineItems(last.lines, q) else [])
  }

  /** One row for each account with a line in scope, debit-positive; offsetting lines leave a zero row. */
  function Rows(journal: seq<Entry>, q: Query): seq<Item> {
    Grouped(ReportItems(journal, q))
  }

  lemma {:induction false} LineItemsNet(lines: seq<Line>, q: Query, a: int)
    ensures SumItems(LineItems(lines, q)) == NetOf(lines, q.accounts, q.base)
    ensures a in q.accounts ==> AmountFor(LineItems(lines, q), a) == NetOf(lines, {a}, q.base)
  {
    if lines != [] {
      LineItemsNet(lines[1..], q, a);
      var it := Item(lines[0].account, Net(lines[0], q.base));
      assert ([it] + LineItems(lines[1..], q))[1..] == LineItems(lines[1..], q);
    }
  }

  lemma {:induction false} ReportItemsNet(journal: seq<Entry>, q: Query, a: int)
    ensures SumItems(ReportItems(journal, q)) == Balance(journal, q)
    ensures a in q.accounts ==> AmountFor(ReportItems(journal, q), a) == Balance(journal, q.(accounts := {a}))
  {
    if journal != [] {
      var init, last := journal[..|journal| - 1], journal[|journal| - 1];
      ReportItemsNet(init, q, a);
      LineItemsNet(last.lines, q, a);
      ItemsConcat(ReportItems(init, q), if InScope(q, last) then LineItems(last.lines, q) else [], a);
    }
  }

  /** Rows have distinct accounts, each with its own balance, and add up to the whole. */
  lemma RowsAddUp(journal: seq<Entry>, q: Query)
    ensures Ascending(Rows(journal, q))
    ensures SumItems(Rows(journal, q)) == Balance(journal, q)
    ensures forall a | a in q.accounts :: AmountFor(Rows(journal, q), a) == Balance(journal, q.(accounts := {a}))
  {
    GroupedFacts(ReportItems(journal, q), 0);
    ReportItemsNet(journal, q, 0);
    forall a | a in q.accounts ensures AmountFor(Rows(journal, q), a) == Balance(journal, q.(accounts := {a})) {
      GroupedFacts(ReportItems(journal, q), a);
      ReportItemsNet(journal, q, a);
    }
  }

  /* ---- classes of accounts ---- */

  function OfKinds(cfg: Config, kinds: set<AccountType>): set<int> {
    set a | a in cfg.chart && cfg.chart[a].kind in kinds
  }

  function CashAccounts(cfg: Config): set<int> {
    set a | a in cfg.chart && cfg.chart[a].isCash
  }

  function NonCash(cfg: Config): set<int> {
    set a | a in cfg.chart && cfg.chart[a].kind in {Asset, Liability, Equity} && !cfg.chart[a].isCash
  }

  /** Over all accounts any selection of entries nets to zero. */
  lemma {:induction false} EverythingNetsToZero(cfg: Config, journal: seq<Entry>, q: Query)
    requires forall i | 0 <= i < |journal| :: EntryOk(cfg, journal[i])
    requires q.accounts == cfg.chart.Keys
    ensures Balance(journal, q) == 0
  {
    if journal != [] {
      EverythingNetsToZero(cfg, journal[..|journal| - 1], q);
      assert EntryOk(cfg, journal[|journal| - 1]);
      NetOfEverything(journal[|journal| - 1].lines, q.accounts, q.base);
    }
  }

  /* ---- balance sheet ---- */

  /** Assets debit-positive; the rest credit-positive, as printed. */
  datatype BalanceSheet = BalanceSheet(assets: int, liabilities: int, equity: int, currentEarnings: int)

  function AsOf(cfg: Config, kinds: set<AccountType>, asOf: Option<Date>): Query {
    Query(OfKinds(cfg, kinds), None, asOf, None, None, true)
  }

  function BalanceSheetAsOf(cfg: Config, journal: seq<Entry>, asOf: Option<Date>): BalanceSheet {
    BalanceSheet(
      SumItems(Rows(journal, AsOf(cfg, {Asset}, asOf))),
      -SumItems(Rows(journal, AsOf(cfg, {Liability}, asOf))),
      -SumItems(Rows(journal, AsOf(cfg, {Equity}, asOf))),
      -Balance(journal, AsOf(cfg, {Revenue, Expense}, asOf)))
  }

  lemma KindsPartition(cfg: Config)
    ensures OfKinds(cfg, {Asset}) + OfKinds(cfg, {Liability}) + OfKinds(cfg, {Equity})
            + OfKinds(cfg, {Revenue, Expense}) == cfg.chart.Keys
  {
    forall a | a in cfg.chart.Keys
      ensures a in OfKinds(cfg, {Asset}) + OfKinds(cfg, {Liability}) + OfKinds(cfg, {Equity})
              + OfKinds(cfg, {Revenue, Expense})
    {
      match cfg.chart[a].kind
      case Asset => assert a in OfKinds(cfg, {Asset});
      case Liability => assert a in OfKinds(cfg, {Liability});
      case Equity => assert a in OfKinds(cfg, {Equity});
      case Revenue => assert a in OfKinds(cfg, {Revenue, Expense});
      case Expense => assert a in OfKinds(cfg, {Revenue, Expense});
    }
  }

  /** Assets = liabilities + equity + current earnings, as of any date. */
  lemma BalanceSheetBalances(cfg: Config, steps: seq<Step>, asOf: Option<Date>)
    ensures var b := BalanceSheetAsOf(cfg, Run(cfg, steps).journal, asOf);
            b.assets == b.liabilities + b.equity + b.currentEarnings
  {
    var journal := Run(cfg, steps).journal;
    LiveRuns.EveryRunAgrees(cfg, steps);
    assert JournalOk(cfg, journal);
    hide Run, LiveRuns.RunOk;
    SheetBalances(cfg, journal, asOf);
  }

  lemma SheetBalances(cfg: Config, journal: seq<Entry>, asOf: Option<Date>)
    requires JournalOk(cfg, journal)
    ensures var b := BalanceSheetAsOf(cfg, journal, asOf);
            b.assets == b.liabilities + b.equity + b.currentEarnings
  {
    var q := AsOf(cfg, {Asset}, asOf);
    var a, l, e, i := OfKinds(cfg, {Asset}), OfKinds(cfg, {Liability}), OfKinds(cfg, {Equity}),
      OfKinds(cfg, {Revenue, Expense});
    KindsPartition(cfg);
    EverythingNetsToZero(cfg, journal, q.(accounts := cfg.chart.Keys));
    BalanceUnion(journal, q, a + l + e, i);
    BalanceUnion(journal, q, a + l, e);
    BalanceUnion(journal, q, a, l);
    RowsAddUp(journal, AsOf(cfg, {Asset}, asOf));
    RowsAddUp(journal, AsOf(cfg, {Liability}, asOf));
    RowsAddUp(journal, AsOf(cfg, {Equity}, asOf));
  }

  /* ---- cash flow ---- */

  datatype CashFlow = CashFlow(netIncome: int, rows: seq<Item>, netCashFlow: int, openingCash: int, closingCash: int)

  /** The query for entries before a date. */
  function Before(accounts: set<int>, date: Date): Query {
    if date == 0 then Query({}, None, None, None, None, true)
    else Query(accounts, None, Some(date - 1), None, None, true)
  }

  function Ranged(accounts: set<int>, from: Option<Date>, to: Option<Date>, closing: Option<bool>): Query {
    Query(accounts, from, to, None, closing, true)
  }

  /** Net income and the rows leave closing entries out; the three cash figures count every entry.
      Rows are debit-positive here, so a source of cash is negative. */
  function CashFlowStatement(cfg: Config, journal: seq<Entry>, from: Option<Date>, to: Option<Date>): CashFlow {
    CashFlow(
      -Balance(journal, Ranged(OfKinds(cfg, {Revenue, Expense}), from, to, Some(false))),
      Rows(journal, Ranged(NonCash(cfg), from, to, Some(false))),
      Balance(journal, Ranged(CashAccounts(cfg), from, to, None)),
      if from.None? then 0 else Balance(journal, Before(CashAccounts(cfg), from.value)),
      Balance(journal, Ranged(CashAccounts(cfg), None, to, None)))
  }

  lemma CashPartition(cfg: Config)
    requires ConfigOk(cfg)
    ensures OfKinds(cfg, {Revenue, Expense}) + NonCash(cfg) + CashAccounts(cfg) == cfg.chart.Keys
    ensures OfKinds(cfg, {Revenue, Expense}) !! NonCash(cfg)
            && (OfKinds(cfg, {Revenue, Expense}) + NonCash(cfg)) !! CashAccounts(cfg)
  {
    var income, rest, cash := OfKinds(cfg, {Revenue, Expense}), NonCash(cfg), CashAccounts(cfg);
    forall a | a in income ensures a !in rest && a !in cash {
      var kind := cfg.chart[a].kind;
      assert kind in {Revenue, Expense};
      assert kind != Asset && kind != Liability && kind != Equity;
    }
    forall a | a in cfg.chart.Keys ensures a in income + rest + cash {
      if !cfg.chart[a].isCash {
        match cfg.chart[a].kind
        case Asset => assert a in rest;
        case Liability => assert a in rest;
        case Equity => assert a in rest;
        case Revenue => assert a in income;
        case Expense => assert a in income;
      }
    }
  }

  /** Closing entries never touch cash. */
  lemma NoCashInClosing(cfg: Config, s: State, from: Option<Date>, to: Option<Date>)
    requires ConfigOk(cfg) && Agrees(s) && SubledgerOk(cfg, s) && Linked.LinkedOk(cfg, s)
    ensures Balance(s.journal, Ranged(CashAccounts(cfg), from, to, Some(true))) == 0
  {
    var q := Ranged(CashAccounts(cfg), from, to, Some(true));
    forall o: Owner ensures Part(s, o, q) == 0 {
      NoCashPart(cfg, s, from, to, o);
    }
    SumToZero(|s.docs|, (i: nat) => Part(s, OfDoc(i), q));
    SumToZero(|s.moves|, (i: nat) => Part(s, OfMove(i), q));
    SumToZero(|s.years|, (i: nat) => Part(s, OfYear(i), q));
    forall k: nat ensures AppRow(s, q, |s.docs|, k) == 0 {
      SumToZero(|s.docs|, (c: nat) => Part(s, OfApp(k, c), q));
    }
    SumToZero(|s.docs|, (k: nat) => AppRow(s, q, |s.docs|, k));
    assert Balance(s.journal, q) == Live(s, q);
  }

  lemma NoCashPart(cfg: Config, s: State, from: Option<Date>, to: Option<Date>, o: Owner)
    requires ConfigOk(cfg) && SubledgerOk(cfg, s) && Linked.LinkedOk(cfg, s)
    ensures Part(s, o, Ranged(CashAccounts(cfg), from, to, Some(true))) == 0
  {
    if LinkOf(s, o).Some? && LinkOf(s, o).value < |s.journal| {
      Linked.OnlyYearsClose(cfg, s, o);
      if o.OfYear? {
        assert Linked.YearOk(cfg, s, o.id);
        NetOfNothing(s.journal[LinkOf(s, o).value].lines, CashAccounts(cfg), true);
      }
    }
  }

  /** Net income plus the cash impact of every other account is the change in cash, over any
      range, although only some of the figures leave closing entries out. */
  lemma CashFlowAddsUp(cfg: Config, steps: seq<Step>, from: Option<Date>, to: Option<Date>)
    requires ConfigOk(cfg)
    ensures var c := CashFlowStatement(cfg, Run(cfg, steps).journal, from, to);
            c.netIncome - SumItems(c.rows) == c.netCashFlow
  {
    LiveRuns.EveryRunAgrees(cfg, steps);
    Unposting.EveryRunKeepsSubledger(cfg, steps);
    Linked.EveryRunLinked(cfg, steps);
    hide Run, SubledgerOk, Linked.LinkedOk;
    FlowAddsUp(cfg, Run(cfg, steps), from, to);
  }

  lemma FlowAddsUp(cfg: Config, s: State, from: Option<Date>, to: Option<Date>)
    requires ConfigOk(cfg) && LedgerOk(cfg, s) && SubledgerOk(cfg, s) && Linked.LinkedOk(cfg, s)
    ensures var c := CashFlowStatement(cfg, s.journal, from, to);
            c.netIncome - SumItems(c.rows) == c.netCashFlow
  {
    var income, rest, cash := OfKinds(cfg, {Revenue, Expense}), NonCash(cfg), CashAccounts(cfg);
    var q := Ranged(cash, from, to, Some(false));
    NoCashInClosing(cfg, s, from, to);
    EverythingNetsToZero(cfg, s.journal, q.(accounts := cfg.chart.Keys));
    hide SubledgerOk, Linked.LinkedOk, LedgerOk;
    CashPartition(cfg);
    BalanceUnion(s.journal, q, income + rest, cash);
    BalanceUnion(s.journal, q, income, rest);
    RowsAddUp(s.journal, Ranged(rest, from, to, Some(false)));
    forall e | e in s.journal
      ensures EntryNet(e, Ranged(cash, from, to, None))
              == EntryNet(e, q) + EntryNet(e, Ranged(cash, from, to, Some(true))) { }
    BalanceSplit(s.journal, Ranged(cash, from, to, None), q, Ranged(cash, from, to, Some(true)));
  }

  /* ---- opening + movement = closing ---- */

  /** No day is both after the range and before it. */
  predicate InOrder(from: Option<Date>, to: Option<Date>) {
    from.Some? && to.Some? ==> from.value <= to.value + 1
  }

  predicate Articulates(cfg: Config, journal: seq<Entry>, from: Option<Date>, to: Option<Date>) {
    var c := CashFlowStatement(cfg, journal, from, to);
    c.openingCash + c.netCashFlow == c.closingCash
  }

  /** Opening cash plus the movement is closing cash when the bounds are in order. */
  lemma CashArticulates(cfg: Config, journal: seq<Entry>, from: Option<Date>, to: Option<Date>)
    requires InOrder(from, to)
    ensures Articulates(cfg, journal, from, to)
  {
    var cash := CashAccounts(cfg);
    if from.Some? {
      var before, range, through := Before(cash, from.value), Ranged(cash, from, to, None),
        Ranged(cash, None, to, None);
      forall e | e in journal ensures EntryNet(e, through) == EntryNet(e, before) + EntryNet(e, range) {
        NetOfNothing(e.lines, {}, true);
      }
      BalanceSplit(journal, through, before, range);
    }
  }

  /** Out of order, the statement is off by exactly the cash moved strictly between the bounds. */
  lemma CashGap(cfg: Config, journal: seq<Entry>, from: Date, to: Date)
    requires !InOrder(Some(from), Some(to))
    ensures var c := CashFlowStatement(cfg, journal, Some(from), Some(to));
            c.openingCash + c.netCashFlow
            == c.closingCash + Balance(journal, Ranged(CashAccounts(cfg), Some(to + 1), Some(from - 1), None))
  {
    var cash := CashAccounts(cfg);
    var before, through := Before(cash, from), Ranged(cash, None, Some(to), None);
    var between, range := Ranged(cash, Some(to + 1), Some(from - 1), None), Ranged(cash, Some(from), Some(to), None);
    BalanceZero(journal, range);
    BalanceSplit(journal, before, through, between);
  }

  /** One cash receipt dated in the gap. */
  function Receipt(cash: int, other: int, date: Date, base: string): Entry {
    Entry(date, 0, base, RATE_ONE, [Line(cash, 1, 0, 1, 0), Line(other, 0, 1, 0, 1)], None, false)
  }

  /** So the identity holds for every journal exactly when the bounds are in order. */
  lemma ArticulatesIffInOrder(cfg: Config, cash: int, other: int, from: Option<Date>, to: Option<Date>)
    requires cash in cfg.chart && cfg.chart[cash].isCash && other in cfg.chart && !cfg.chart[other].isCash
    ensures InOrder(from, to) <==> forall journal | JournalOk(cfg, journal) :: Articulates(cfg, journal, from, to)
  {
    if InOrder(from, to) {
      forall journal | JournalOk(cfg, journal) ensures Articulates(cfg, journal, from, to) {
        CashArticulates(cfg, journal, from, to);
      }
    } else {
      var e := Receipt(cash, other, to.value + 1, cfg.base);
      var journal := [e];
      PairNet(e.lines[0], e.lines[1], false);
      PairNet(e.lines[0], e.lines[1], true);
      assert JournalOk(cfg, journal);
      CashGap(cfg, journal, from.value, to.value);
      OneReceipt(cfg, cash, other, to.value + 1,
                 Ranged(CashAccounts(cfg), Some(to.value + 1), Some(from.value - 1), None));
    }
  }

  lemma OneReceipt(cfg: Config, cash: int, other: int, date: Date, q: Query)
    requires cash in q.accounts && other !in q.accounts && q.base && q.currency.None? && q.closing.None?
             && InRange(q.from, q.to, date)
    ensures Balance([Receipt(cash, other, date, cfg.base)], q) == 1
  {
    var e := Receipt(cash, other, date, cfg.base);
    assert [e][..0] == [];
    assert e.lines[1..] == [e.lines[1]] && e.lines[1..][1..] == [];
    assert NetOf(e.lines[1..], q.accounts, true) == 0;
    assert EntryNet(e, q) == 1;
  }
}
