/** Sums over the journal: the one question every report and every sweep asks. */
module Balances {
  import opened Calendar
  import opened Tables
  import opened Entries

  /** Which lines to add up: their accounts, and the date, currency and closing flag of their entry. */
  datatype Query = Query(
    accounts: set<int>, from: Option<Date>, to: Option<Date>, currency: Option<string>,
    closing: Option<bool>, base: bool)

  predicate InRange(from: Option<Date>, to: Option<Date>, date: Date) {
    (from.Some? ==> from.value <= date) && (to.Some? ==> date <= to.value)
  }

  predicate InScope(q: Query, e: Entry) {
    && InRange(q.from, q.to, e.date)
    && (q.currency.Some? ==> e.currency == q.currency.value)
    && (q.closing.Some? ==> e.isClosing == q.closing.value)
  }

  function EntryNet(e: Entry, q: Query): int {
    if InScope(q, e) then NetOf(e.lines, q.accounts, q.base) else 0
  }

  /** Debit minus credit over the whole journal. */
  function Balance(journal: seq<Entry>, q: Query): int {
    if journal == [] then 0
    else Balance(journal[..|journal| - 1], q) + EntryNet(journal[|journal| - 1], q)
  }

  /** Base balance of some accounts through a date. */
  function Through(accounts: set<int>, date: Date): Query {
    Query(accounts, None, Some(date), None, None, true)
  }

  lemma BalanceAppend(journal: seq<Entry>, e: Entry, q: Query)
    ensures Balance(journal + [e], q) == Balance(journal, q) + EntryNet(e, q)
  {
    assert (journal + [e])[..|journal|] == journal;
  }

  /** A mirror entry of the same scope takes its original's net away again. */
  lemma MirrorNet(e: Entry, m: Entry, q: Query)
    requires m.lines == Mirror(e.lines)
    requires m.date == e.date && m.currency == e.currency && m.isClosing == e.isClosing
    ensures EntryNet(m, q) == -EntryNet(e, q)
  {
    MirrorCancels(e.lines, q.accounts, q.base);
  }

  lemma {:induction false} BalanceUnion(journal: seq<Entry>, q: Query, a: set<int>, b: set<int>)
    requires a !! b
    ensures Balance(journal, q.(accounts := a + b))
            == Balance(journal, q.(accounts := a)) + Balance(journal, q.(accounts := b))
  {
    if journal != [] {
      BalanceUnion(journal[..|journal| - 1], q, a, b);
      NetOfUnion(journal[|journal| - 1].lines, a, b, q.base);
    }
  }

  /** When the two queries see the same nets, entry by entry, they have the same balance. */
  lemma {:induction false} BalanceSame(journal: seq<Entry>, q: Query, r: Query)
    requires forall e | e in journal :: EntryNet(e, q) == EntryNet(e, r)
    ensures Balance(journal, q) == Balance(journal, r)
  {
    if journal != [] {
      BalanceSame(journal[..|journal| - 1], q, r);
    }
  }

  lemma {:induction false} BalanceZero(journal: seq<Entry>, q: Query)
    requires forall e | e in journal :: EntryNet(e, q) == 0
    ensures Balance(journal, q) == 0
  {
    if journal != [] {
      BalanceZero(journal[..|journal| - 1], q);
    }
  }

  /** Entries each belonging to one of two scopes split the balance. */
  lemma {:induction false} BalanceSplit(journal: seq<Entry>, q: Query, r: Query, t: Query)
    requires forall e | e in journal :: EntryNet(e, q) == EntryNet(e, r) + EntryNet(e, t)
    ensures Balance(journal, q) == Balance(journal, r) + Balance(journal, t)
  {
    if journal != [] {
      BalanceSplit(journal[..|journal| - 1], q, r, t);
    }
  }
}
