/** What each ledger operation does to the tables. An operation that fails returns an error
    and the transaction it ran in is rolled back, so only success carries a new state. */
module Ledger {
  import opened Money
  import opened Sums
  import opened Calendar
  import opened Tables
  import opened Entries
  import opened Periods

  /* ---- journal entries ---- */

  /** The latest stored rate on or before the date. */
  function LatestRate(rates: map<(string, Date), Rate>, currency: string, date: Date): Option<Rate> {
    if (currency, date) in rates then Some(rates[(currency, date)])
    else if date == 0 then None
    else LatestRate(rates, currency, date - 1)
  }

  function RateFor(cfg: Config, rates: map<(string, Date), Rate>, currency: string, date: Date): Option<Rate> {
    if currency == cfg.base then Some(RATE_ONE) else LatestRate(rates, currency, date)
  }

  /** The constraints and triggers on journal lines accept these rows. */
  predicate Insertable(cfg: Config, writable: set<int>, lines: seq<Line>) {
    forall l | l in lines :: LineOk(l) && l.account in cfg.chart && l.account in writable
  }

  /** Finds or makes the period, then inserts a posted entry with its lines. */
  function AddEntry(cfg: Config, s: State, e: Entry): Result<State> {
    var (periods, id) :- PeriodForDate(s.periods, s.years, e.date);
    if !Insertable(cfg, s.writable, e.lines) then Err(ConstraintViolation)
    else Ok(s.(periods := periods, journal := s.journal + [e.(period := id)]))
  }

  /** The rate a new entry would carry; the period is looked up first. */
  function EntryRate(cfg: Config, s: State, currency: string, date: Date): Result<Rate> {
    var _ :- PeriodForDate(s.periods, s.years, date);
    match RateFor(cfg, s.rates, currency, date)
    case None => Err(NoExchangeRate)
    case Some(rate) => Ok(rate)
  }

  predicate IsReversed(journal: seq<Entry>, i: nat) {
    exists k | 0 <= k < |journal| :: journal[k].reverses == Some(i)
  }

  /** Some line of the entry backs a bank statement line. */
  predicate IsBankMatched(bankLines: seq<Option<BankLine>>, i: nat) {
    exists b | 0 <= b < |bankLines| ::
      bankLines[b].Some? && bankLines[b].value.matched.Some? && bankLines[b].value.matched.value.entry == i
  }

  /** Posts the mirror of an entry, at the entry's own rate. */
  function ReverseEntry(cfg: Config, s: State, i: nat): Result<State> {
    if |s.journal| <= i then Err(NotFound)
    else if IsReversed(s.journal, i) then Err(AlreadyReversed)
    else if IsBankMatched(s.bankLines, i) then Err(BankMatched)
    else
      var e := s.journal[i];
      AddEntry(cfg, s, e.(lines := Mirror(e.lines), reverses := Some(i)))
  }

  /* ---- documents ---- */

  function PostDoc(cfg: Config, s: State, id: nat): Result<State> {
    if !HasDoc(s, id) then Err(NotFound)
    else
      var d := s.docs[id].value;
      if d.entry.Some? then Err(NotDraft)
      else if Total(d) <= 0 then Err(NothingToPost)
      else if IsPayment(d.kind) && d.cash.None? then Err(MissingAccount)
      else if Control(cfg, d).None? then Err(MissingAccount)
      else if !IsPayment(d.kind) && LacksAccount(d.lines) then Err(MissingAccount)
      else
        var control := Control(cfg, d).value;
        var rate :- EntryRate(cfg, s, d.currency, d.date);
        var s1 :- AddEntry(cfg, s, Entry(d.date, 0, d.currency, rate, DocLines(control, d, rate), None, false));
        Ok(s1.(docs := s1.docs[id := Some(d.(entry := Some(|s.journal|)))]))
  }

  /** Some application touches the document as a charge. */
  predicate HasSettlers(s: State, id: nat) {
    exists k | 0 <= k < |s.docs| :: (k, id) in s.apps
  }

  /** Some application draws on the document as a settler. */
  predicate HasCharges(s: State, id: nat) {
    exists c | 0 <= c < |s.docs| :: (id, c) in s.apps
  }

  /** The FX entries linked by a settler's applications to charges below n, in charge order. */
  function FxEntries(apps: map<(nat, nat), App>, id: nat, n: nat): seq<nat> {
    if n == 0 then []
    else if (id, n - 1) in apps && apps[(id, n - 1)].fx.Some? then
      FxEntries(apps, id, n - 1) + [apps[(id, n - 1)].fx.value]
    else FxEntries(apps, id, n - 1)
  }

  function ReverseAll(cfg: Config, s: State, entries: seq<nat>): Result<State> {
    if entries == [] then Ok(s)
    else
      var s1 :- ReverseAll(cfg, s, entries[..|entries| - 1]);
      ReverseEntry(cfg, s1, entries[|entries| - 1])
  }

  function WithoutSettler(apps: map<(nat, nat), App>, id: nat): map<(nat, nat), App> {
    map key | key in apps && key.0 != id :: apps[key]
  }

  function UnpostDoc(cfg: Config, s: State, id: nat): Result<State> {
    if !HasDoc(s, id) then Err(NotFound)
    else
      var d := s.docs[id].value;
      if d.entry.None? then Err(NotPosted)
      else if IsCharge(d.kind) && HasSettlers(s, id) then Err(HasApplications)
      else if !IsCharge(d.kind) && !IsPayment(d.kind) && HasCharges(s, id) then Err(HasApplications)
      else
        var s1 :- ReverseEntry(cfg, s, d.entry.value);
        var draft := Some(d.(entry := None));
        if IsPayment(d.kind) then
          var s2 :- ReverseAll(cfg, s1, FxEntries(s.apps, id, |s.docs|));
          Ok(s2.(apps := WithoutSettler(s.apps, id), docs := s.docs[id := draft]))
        else Ok(s1.(docs := s.docs[id := draft]))
  }

  /** The line set of an edit or a new document: a draft, with a payment's amount positive. */
  predicate DocInputOk(d: Doc) {
    && d.entry.None?
    && (IsPayment(d.kind) ==> 0 < d.amount && d.lines == [])
    && (d.linked ==> IsCharge(d.kind))
  }

  function CreateDoc(s: State, d: Doc): Result<State> {
    if !DocInputOk(d) then Err(ConstraintViolation)
    else Ok(s.(docs := s.docs + [Some(d)]))
  }

  /** Rewrites a draft; one made from an order is refused. */
  function EditDoc(s: State, id: nat, d: Doc): Result<State> {
    if !HasDoc(s, id) then Err(NotFound)
    else if s.docs[id].value.linked then Err(OrderLinked)
    else if s.docs[id].value.entry.Some? then Err(NotDraft)
    else if !DocInputOk(d) || d.linked || d.kind != s.docs[id].value.kind then Err(ConstraintViolation)
    else Ok(s.(docs := s.docs[id := Some(d)]))
  }

  function DeleteDoc(s: State, id: nat): Result<State> {
    if !HasDoc(s, id) then Err(NotFound)
    else if s.docs[id].value.entry.Some? then Err(NotDraft)
    else Ok(s.(docs := s.docs[id := None]))
  }

  /* ---- stock movements ---- */

  predicate HasMove(s: State, id: nat) {
    id < |s.moves| && s.moves[id].Some?
  }

  /** A movement's sign agrees with its type. */
  predicate MoveInputOk(m: Move) {
    && m.entry.None?
    && (m.kind == Receipt ==> 0 <= m.cost)
    && (m.kind == Issue ==> m.cost <= 0)
  }

  function CreateMove(s: State, m: Move): Result<State> {
    if !MoveInputOk(m) then Err(ConstraintViolation) else Ok(s.(moves := s.moves + [Some(m)]))
  }

  function EditMove(s: State, id: nat, m: Move): Result<State> {
    if !HasMove(s, id) then Err(NotFound)
    else if s.moves[id].value.entry.Some? then Err(NotDraft)
    else if s.moves[id].value.linked then Err(OrderLinked)
    else if !MoveInputOk(m) then Err(ConstraintViolation)
    else Ok(s.(moves := s.moves[id := Some(m)]))
  }

  function DeleteMove(s: State, id: nat): Result<State> {
    if !HasMove(s, id) then Err(NotFound)
    else if s.moves[id].value.entry.Some? then Err(NotDraft)
    else Ok(s.(moves := s.moves[id := None]))
  }

  /** The accounts a movement's cost moves between: debit, credit. */
  function MoveAccounts(s: State, m: Move, credit: Option<int>): Result<(int, int)> {
    match m.kind
    case Issue =>
      if m.cost == 0 then Err(NothingToPost)
      else if m.cogs.None? || m.inventory.None? then Err(MissingAccount)
      else Ok((m.cogs.value, m.inventory.value))
    case Receipt =>
      if credit.None? then Err(MissingAccount)
      else if m.cost == 0 then Err(NothingToPost)
      else if m.inventory.None? then Err(MissingAccount)
      else if credit.value !in s.writable then Err(MissingAccount)
      else Ok((m.inventory.value, credit.value))
    case OtherMove => Err(NotPostable)
  }

  function PostMove(cfg: Config, s: State, id: nat, credit: Option<int>): Result<State> {
    if !HasMove(s, id) then Err(NotFound)
    else
      var m := s.moves[id].value;
      if m.kind == OtherMove then Err(NotPostable)
      else if m.kind == Receipt && credit.None? then Err(MissingAccount)
      else if m.entry.Some? then Err(AlreadyPosted)
      else
        var (debit, creditAccount) :- MoveAccounts(s, m, credit);
        var rate :- EntryRate(cfg, s, cfg.base, m.date);
        var lines := TransferLines(debit, creditAccount, Abs(m.cost));
        var s1 :- AddEntry(cfg, s, Entry(m.date, 0, cfg.base, rate, lines, None, false));
        Ok(s1.(moves := s1.moves[id := Some(m.(entry := Some(|s.journal|)))]))
  }

  function UnpostMove(cfg: Config, s: State, id: nat): Result<State> {
    if !HasMove(s, id) then Err(NotFound)
    else
      var m := s.moves[id].value;
      if m.entry.None? then Err(NotPosted)
      else
        var s1 :- ReverseEntry(cfg, s, m.entry.value);
        Ok(s1.(moves := s1.moves[id := Some(m.(entry := None))]))
  }
}
