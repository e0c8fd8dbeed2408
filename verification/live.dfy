/** The journal only ever grows, yet every balance equals the sum over just the entries that
    something posted still links: each entry is linked by one owner, or reversed once, or is
    itself a reversal. */
module LiveEntries {
  import opened Money
  import opened Sums
  import opened Calendar
  import opened Tables
  import opened Entries
  import opened Balances
  import opened Ledger

  /** A row that can link a journal entry: a posted document, a posted stock movement, an
      application's exchange difference, a closed year's closing entry. */
  datatype Owner = OfDoc(id: nat) | OfMove(id: nat) | OfApp(settler: nat, charge: nat) | OfYear(id: nat)

  function LinkOf(s: State, o: Owner): Option<nat> {
    match o
    case OfDoc(id) => if HasDoc(s, id) then s.docs[id].value.entry else None
    case OfMove(id) => if HasMove(s, id) then s.moves[id].value.entry else None
    case OfApp(k, c) => if (k, c) in s.apps then s.apps[(k, c)].fx else None
    case OfYear(id) => if id < |s.years| then s.years[id].closing else None
  }

  /* ---- the journal ---- */

  ghost predicate EntryOk(cfg: Config, e: Entry) {
    && e.lines != [] && Balanced(e.lines)
    && forall l | l in e.lines :: LineOk(l) && l.account in cfg.chart
  }

  /** m undoes e exactly: mirrored lines, same date, currency, rate and closing flag. */
  ghost predicate Undoes(m: Entry, e: Entry) {
    && m.lines == Mirror(e.lines)
    && m.date == e.date && m.currency == e.currency && m.rate == e.rate && m.isClosing == e.isClosing
  }

  ghost predicate JournalOk(cfg: Config, journal: seq<Entry>) {
    && (forall i | 0 <= i < |journal| :: EntryOk(cfg, journal[i]))
    && (forall i | 0 <= i < |journal| && journal[i].reverses.Some? ::
          journal[i].reverses.value < i && Undoes(journal[i], journal[journal[i].reverses.value]))
    && (forall i, j | 0 <= i < j < |journal| && journal[i].reverses.Some? :: journal[i].reverses != journal[j].reverses)
  }

  /** Neither a reversal nor reversed. */
  predicate Unreversed(journal: seq<Entry>, i: nat) {
    i < |journal| && journal[i].reverses.None? && !IsReversed(journal, i)
  }

  /** The links pick out exactly the unreversed entries, each of them once. */
  ghost predicate LinksOk(s: State) {
    && (forall o :: LinkOf(s, o).Some? ==> Unreversed(s.journal, LinkOf(s, o).value))
    && (forall o, p :: LinkOf(s, o).Some? && LinkOf(s, o) == LinkOf(s, p) ==> o == p)
    && (forall i: nat | Unreversed(s.journal, i) :: exists o :: LinkOf(s, o) == Some(i))
  }

  ghost predicate AppsInRange(s: State) {
    forall k, c | (k, c) in s.apps :: k < |s.docs| && c < |s.docs|
  }

  /* ---- sums over the live entries ---- */

  function Part(s: State, o: Owner, q: Query): int {
    match LinkOf(s, o)
    case None => 0
    case Some(i) => if i < |s.journal| then EntryNet(s.journal[i], q) else 0
  }

  function AppRow(s: State, q: Query, n: nat, k: nat): int {
    SumTo(n, (c: nat) => Part(s, OfApp(k, c), q))
  }

  /** The sum over the entries currently linked. */
  function Live(s: State, q: Query): int {
    SumTo(|s.docs|, (i: nat) => Part(s, OfDoc(i), q))
    + SumTo(|s.moves|, (i: nat) => Part(s, OfMove(i), q))
    + SumTo(|s.docs|, (k: nat) => AppRow(s, q, |s.docs|, k))
    + SumTo(|s.years|, (i: nat) => Part(s, OfYear(i), q))
  }

  ghost predicate Agrees(s: State) {
    forall q :: Balance(s.journal, q) == Live(s, q)
  }

  ghost predicate LedgerOk(cfg: Config, s: State) {
    JournalOk(cfg, s.journal) && LinksOk(s) && AppsInRange(s) && Agrees(s)
  }

  /* ---- the three moves every operation is made of ---- */

  ghost predicate Grows(s: State, t: State) {
    && s.journal <= t.journal
    && |s.docs| <= |t.docs| && |s.moves| <= |t.moves| && |s.years| <= |t.years|
    && AppsInRange(t)
  }

  /** No entry is added and no link changes. */
  ghost predicate Quiet(s: State, t: State) {
    Grows(s, t) && t.journal == s.journal && forall o :: LinkOf(t, o) == LinkOf(s, o)
  }

  /** A new entry is added and o, which linked nothing, links it. */
  ghost predicate Claims(cfg: Config, s: State, t: State, o: Owner) {
    && Grows(s, t) && |t.journal| == |s.journal| + 1
    && EntryOk(cfg, t.journal[|s.journal|]) && t.journal[|s.journal|].reverses.None?
    && LinkOf(s, o).None? && LinkOf(t, o) == Some(|s.journal|)
    && forall p | p != o :: LinkOf(t, p) == LinkOf(s, p)
  }

  /** The entry o links is reversed by a new one, and o lets go of it. */
  ghost predicate Releases(s: State, t: State, o: Owner) {
    && Grows(s, t) && |t.journal| == |s.journal| + 1
    && LinkOf(s, o).Some? && LinkOf(s, o).value < |s.journal|
    && t.journal[|s.journal|].reverses == LinkOf(s, o)
    && Undoes(t.journal[|s.journal|], s.journal[LinkOf(s, o).value])
    && LinkOf(t, o).None?
    && forall p | p != o :: LinkOf(t, p) == LinkOf(s, p)
  }

  /* ---- each move keeps the journal in order ---- */

  lemma MirrorOk(cfg: Config, e: Entry, m: Entry)
    requires EntryOk(cfg, e) && Undoes(m, e)
    ensures EntryOk(cfg, m)
  {
    MirrorCancels(e.lines, {}, false);
    MirrorCancels(e.lines, {}, true);
    forall l | l in m.lines ensures LineOk(l) && l.account in cfg.chart {
      assert MirrorLine(l) in e.lines;
    }
  }

  lemma ReversedAfter(journal: seq<Entry>, e: Entry, i: nat)
    ensures IsReversed(journal + [e], i) <==> IsReversed(journal, i) || e.reverses == Some(i)
  {
    var after := journal + [e];
    assert after[|journal|] == e;
    if IsReversed(journal, i) {
      var k :| 0 <= k < |journal| && journal[k].reverses == Some(i);
      assert after[k].reverses == Some(i);
    }
  }

  lemma JournalGrows(cfg: Config, journal: seq<Entry>, e: Entry)
    requires JournalOk(cfg, journal) && EntryOk(cfg, e)
    requires e.reverses.Some? ==>
               var i := e.reverses.value; i < |journal| && Undoes(e, journal[i]) && !IsReversed(journal, i)
    ensures JournalOk(cfg, journal + [e])
  {
    var after := journal + [e];
    forall i | 0 <= i < |after| ensures EntryOk(cfg, after[i]) {
      if i < |journal| { assert after[i] == journal[i]; }
    }
  }

  lemma ClaimLinks(cfg: Config, s: State, t: State, o: Owner)
    requires JournalOk(cfg, s.journal) && LinksOk(s) && Claims(cfg, s, t, o)
    ensures JournalOk(cfg, t.journal) && LinksOk(t)
  {
    var n := |s.journal|;
    var e := t.journal[n];
    assert t.journal == s.journal + [e];
    JournalGrows(cfg, s.journal, e);
    forall i: nat ensures Unreversed(t.journal, i) <==> Unreversed(s.journal, i) || i == n {
      ReversedAfter(s.journal, e, i);
    }
    forall p | LinkOf(t, p).Some? ensures Unreversed(t.journal, LinkOf(t, p).value) {
      if p != o { assert LinkOf(t, p) == LinkOf(s, p); }
    }
    forall p, r | LinkOf(t, p).Some? && LinkOf(t, p) == LinkOf(t, r) ensures p == r {
      if p != o { assert LinkOf(t, p) == LinkOf(s, p); }
      if r != o { assert LinkOf(t, r) == LinkOf(s, r); }
    }
    forall i: nat | Unreversed(t.journal, i) ensures exists p :: LinkOf(t, p) == Some(i) {
      if i == n {
        assert LinkOf(t, o) == Some(i);
      } else {
        var p :| LinkOf(s, p) == Some(i);
        assert LinkOf(t, p) == Some(i);
      }
    }
  }

  lemma ReleaseLinks(cfg: Config, s: State, t: State, o: Owner)
    requires JournalOk(cfg, s.journal) && LinksOk(s) && Releases(s, t, o)
    ensures JournalOk(cfg, t.journal) && LinksOk(t)
  {
    var n := |s.journal|;
    var e := t.journal[n];
    var gone := LinkOf(s, o).value;
    assert t.journal == s.journal + [e];
    MirrorOk(cfg, s.journal[gone], e);
    assert Unreversed(s.journal, gone);
    JournalGrows(cfg, s.journal, e);
    forall i: nat ensures Unreversed(t.journal, i) <==> Unreversed(s.journal, i) && i != gone {
      ReversedAfter(s.journal, e, i);
    }
    forall p | LinkOf(t, p).Some? ensures Unreversed(t.journal, LinkOf(t, p).value) {
      assert LinkOf(t, p) == LinkOf(s, p);
    }
    forall p, r | LinkOf(t, p).Some? && LinkOf(t, p) == LinkOf(t, r) ensures p == r {
      assert LinkOf(t, p) == LinkOf(s, p) && LinkOf(t, r) == LinkOf(s, r);
    }
    forall i: nat | Unreversed(t.journal, i) ensures exists p :: LinkOf(t, p) == Some(i) {
      var p :| LinkOf(s, p) == Some(i);
      assert LinkOf(t, p) == Some(i);
    }
  }

  /* ---- each move changes the live sum as it changes the balance ---- */

  /** Measuring s with larger tables gives the same sum. */
  lemma LiveExtends(s: State, docs: nat, moves: nat, years: nat, q: Query)
    requires AppsInRange(s) && |s.docs| <= docs && |s.moves| <= moves && |s.years| <= years
    ensures Live(s, q) == SumTo(docs, (i: nat) => Part(s, OfDoc(i), q))
                          + SumTo(moves, (i: nat) => Part(s, OfMove(i), q))
                          + SumTo(docs, (k: nat) => AppRow(s, q, docs, k))
                          + SumTo(years, (i: nat) => Part(s, OfYear(i), q))
  {
    SumToExtend(|s.docs|, docs, (i: nat) => Part(s, OfDoc(i), q));
    SumToExtend(|s.moves|, moves, (i: nat) => Part(s, OfMove(i), q));
    SumToExtend(|s.years|, years, (i: nat) => Part(s, OfYear(i), q));
    forall k: nat ensures AppRow(s, q, docs, k) == AppRow(s, q, |s.docs|, k) {
      SumToExtend(|s.docs|, docs, (c: nat) => Part(s, OfApp(k, c), q));
    }
    forall k: nat | |s.docs| <= k ensures AppRow(s, q, docs, k) == 0 {
      SumToZero(docs, (c: nat) => Part(s, OfApp(k, c), q));
    }
    SumToSame(|s.docs|, (k: nat) => AppRow(s, q, |s.docs|, k), (k: nat) => AppRow(s, q, docs, k));
    SumToExtend(|s.docs|, docs, (k: nat) => AppRow(s, q, docs, k));
  }

  ghost predicate InTables(s: State, o: Owner) {
    match o
    case OfDoc(i) => i < |s.docs|
    case OfMove(i) => i < |s.moves|
    case OfApp(k, c) => k < |s.docs| && c < |s.docs|
    case OfYear(i) => i < |s.years|
  }

  lemma RowsSame(s: State, t: State, q: Query, n: nat, k: nat)
    requires forall c: nat | c < n :: Part(t, OfApp(k, c), q) == Part(s, OfApp(k, c), q)
    ensures AppRow(t, q, n, k) == AppRow(s, q, n, k)
  {
    SumToSame(n, (c: nat) => Part(s, OfApp(k, c), q), (c: nat) => Part(t, OfApp(k, c), q));
  }

  /** The application sums differ just by the one application that changed, if any did. */
  lemma AppSumChanges(s: State, t: State, o: Owner, q: Query, n: nat)
    requires forall p | p != o :: Part(t, p, q) == Part(s, p, q)
    requires o.OfApp? ==> o.settler < n && o.charge < n
    ensures SumTo(n, (k: nat) => AppRow(t, q, n, k))
            == SumTo(n, (k: nat) => AppRow(s, q, n, k)) + (if o.OfApp? then Part(t, o, q) - Part(s, o, q) else 0)
  {
    var before, after := (k: nat) => AppRow(s, q, n, k), (k: nat) => AppRow(t, q, n, k);
    forall k: nat | !(o.OfApp? && o.settler == k) ensures after(k) == before(k) {
      RowsSame(s, t, q, n, k);
    }
    if o.OfApp? {
      SumToChange(n, (c: nat) => Part(s, OfApp(o.settler, c), q), (c: nat) => Part(t, OfApp(o.settler, c), q),
                  o.charge);
      SumToChange(n, before, after, o.settler);
    } else {
      SumToSame(n, before, after);
    }
  }

  lemma DocSumChanges(s: State, t: State, o: Owner, q: Query, n: nat)
    requires forall p | p != o :: Part(t, p, q) == Part(s, p, q)
    requires o.OfDoc? ==> o.id < n
    ensures SumTo(n, (i: nat) => Part(t, OfDoc(i), q))
            == SumTo(n, (i: nat) => Part(s, OfDoc(i), q)) + (if o.OfDoc? then Part(t, o, q) - Part(s, o, q) else 0)
  {
    var before, after := (i: nat) => Part(s, OfDoc(i), q), (i: nat) => Part(t, OfDoc(i), q);
    if o.OfDoc? { SumToChange(n, before, after, o.id); } else { SumToSame(n, before, after); }
  }

  lemma MoveSumChanges(s: State, t: State, o: Owner, q: Query, n: nat)
    requires forall p | p != o :: Part(t, p, q) == Part(s, p, q)
    requires o.OfMove? ==> o.id < n
    ensures SumTo(n, (i: nat) => Part(t, OfMove(i), q))
            == SumTo(n, (i: nat) => Part(s, OfMove(i), q)) + (if o.OfMove? then Part(t, o, q) - Part(s, o, q) else 0)
  {
    var before, after := (i: nat) => Part(s, OfMove(i), q), (i: nat) => Part(t, OfMove(i), q);
    if o.OfMove? { SumToChange(n, before, after, o.id); } else { SumToSame(n, before, after); }
  }

  lemma YearSumChanges(s: State, t: State, o: Owner, q: Query, n: nat)
    requires forall p | p != o :: Part(t, p, q) == Part(s, p, q)
    requires o.OfYear? ==> o.id < n
    ensures SumTo(n, (i: nat) => Part(t, OfYear(i), q))
            == SumTo(n, (i: nat) => Part(s, OfYear(i), q)) + (if o.OfYear? then Part(t, o, q) - Part(s, o, q) else 0)
  {
    var before, after := (i: nat) => Part(s, OfYear(i), q), (i: nat) => Part(t, OfYear(i), q);
    if o.OfYear? { SumToChange(n, before, after, o.id); } else { SumToSame(n, before, after); }
  }

  /** When only o's link changes, the live sum changes by o's part. */
  lemma LiveChanges(s: State, t: State, o: Owner, q: Query)
    requires AppsInRange(s) && Grows(s, t) && InTables(t, o)
    requires forall p :: LinkOf(s, p).Some? ==> LinkOf(s, p).value < |s.journal|
    requires forall p | p != o :: LinkOf(t, p) == LinkOf(s, p)
    ensures Live(t, q) == Live(s, q) - Part(s, o, q) + Part(t, o, q)
  {
    forall p | p != o ensures Part(t, p, q) == Part(s, p, q) { }
    LiveExtends(s, |t.docs|, |t.moves|, |t.years|, q);
    DocSumChanges(s, t, o, q, |t.docs|);
    MoveSumChanges(s, t, o, q, |t.moves|);
    AppSumChanges(s, t, o, q, |t.docs|);
    YearSumChanges(s, t, o, q, |t.years|);
  }

  lemma LinkedIsInTables(t: State, o: Owner)
    requires AppsInRange(t) && LinkOf(t, o).Some?
    ensures InTables(t, o)
  {
  }

  /* ---- the moves keep the whole invariant ---- */

  lemma SameParts(s: State, t: State, q: Query)
    requires AppsInRange(s) && |s.docs| <= |t.docs| && |s.moves| <= |t.moves| && |s.years| <= |t.years|
    requires forall p :: Part(t, p, q) == Part(s, p, q)
    ensures Live(t, q) == Live(s, q)
  {
    LiveExtends(s, |t.docs|, |t.moves|, |t.years|, q);
    SumToSame(|t.docs|, (i: nat) => Part(s, OfDoc(i), q), (i: nat) => Part(t, OfDoc(i), q));
    SumToSame(|t.moves|, (i: nat) => Part(s, OfMove(i), q), (i: nat) => Part(t, OfMove(i), q));
    SumToSame(|t.years|, (i: nat) => Part(s, OfYear(i), q), (i: nat) => Part(t, OfYear(i), q));
    forall k: nat ensures AppRow(t, q, |t.docs|, k) == AppRow(s, q, |t.docs|, k) {
      RowsSame(s, t, q, |t.docs|, k);
    }
    SumToSame(|t.docs|, (k: nat) => AppRow(s, q, |t.docs|, k), (k: nat) => AppRow(t, q, |t.docs|, k));
  }

  lemma QuietKeeps(cfg: Config, s: State, t: State)
    requires LedgerOk(cfg, s) && Quiet(s, t)
    ensures LedgerOk(cfg, t)
  {
    forall i: nat | Unreversed(t.journal, i) ensures exists p :: LinkOf(t, p) == Some(i) {
      var p :| LinkOf(s, p) == Some(i);
      assert LinkOf(t, p) == Some(i);
    }
    forall q ensures Balance(t.journal, q) == Live(t, q) {
      forall p ensures Part(t, p, q) == Part(s, p, q) { }
      SameParts(s, t, q);
    }
  }

  lemma ClaimKeeps(cfg: Config, s: State, t: State, o: Owner)
    requires LedgerOk(cfg, s) && Claims(cfg, s, t, o)
    ensures LedgerOk(cfg, t)
  {
    ClaimLinks(cfg, s, t, o);
    LinkedIsInTables(t, o);
    forall q ensures Balance(t.journal, q) == Live(t, q) {
      assert t.journal == s.journal + [t.journal[|s.journal|]];
      BalanceAppend(s.journal, t.journal[|s.journal|], q);
      LiveChanges(s, t, o, q);
    }
  }

  lemma ReleaseKeeps(cfg: Config, s: State, t: State, o: Owner)
    requires LedgerOk(cfg, s) && Releases(s, t, o)
    ensures LedgerOk(cfg, t)
  {
    ReleaseLinks(cfg, s, t, o);
    LinkedIsInTables(s, o);
    forall q ensures Balance(t.journal, q) == Live(t, q) {
      assert t.journal == s.journal + [t.journal[|s.journal|]];
      BalanceAppend(s.journal, t.journal[|s.journal|], q);
      MirrorNet(s.journal[LinkOf(s, o).value], t.journal[|s.journal|], q);
      LiveChanges(s, t, o, q);
    }
  }
}
