/** Bank statements and their matching against the journal. */
module Banking {
  import opened Money
  import opened Calendar
  import opened Tables
  import opened Entries

  predicate HasStatement(s: State, id: nat) {
    id < |s.statements| && s.statements[id].Some?
  }

  predicate HasLine(s: State, id: nat) {
    id < |s.bankLines| && s.bankLines[id].Some?
  }

  /** Statements are drawn on a postable, active cash account. */
  predicate CashAccount(cfg: Config, s: State, account: int) {
    account in cfg.chart && cfg.chart[account].isCash && account in s.writable
  }

  function RequireOpen(s: State, id: nat): Result<Statement> {
    if !HasStatement(s, id) then Err(NotFound)
    else if s.statements[id].value.reconciled then Err(NotOpen)
    else Ok(s.statements[id].value)
  }

  /** The line, provided its statement is open. */
  function OpenLine(s: State, id: nat): Result<BankLine> {
    if !HasLine(s, id) || !HasStatement(s, s.bankLines[id].value.statement) then Err(NotFound)
    else if s.statements[s.bankLines[id].value.statement].value.reconciled then Err(NotOpen)
    else Ok(s.bankLines[id].value)
  }

  predicate HasMatch(s: State, id: nat) {
    exists b | 0 <= b < |s.bankLines| ::
      s.bankLines[b].Some? && s.bankLines[b].value.statement == id && s.bankLines[b].value.matched.Some?
  }

  function CreateStatement(cfg: Config, s: State, account: int, opening: int, closing: int): Result<State> {
    if !CashAccount(cfg, s, account) then Err(ConstraintViolation)
    else Ok(s.(statements := s.statements + [Some(Statement(account, opening, closing, false))]))
  }

  function UpdateStatement(cfg: Config, s: State, id: nat, account: int, opening: int, closing: int): Result<State> {
    var st :- RequireOpen(s, id);
    if !CashAccount(cfg, s, account) || (account != st.account && HasMatch(s, id)) then Err(ConstraintViolation)
    else Ok(s.(statements := s.statements[id := Some(Statement(account, opening, closing, false))]))
  }

  /** Removes an open statement; its lines go with it. */
  function DeleteStatement(s: State, id: nat): Result<State> {
    var _ :- RequireOpen(s, id);
    Ok(s.(statements := s.statements[id := None],
          bankLines := seq(|s.bankLines|, b requires 0 <= b < |s.bankLines| =>
            if s.bankLines[b].Some? && s.bankLines[b].value.statement == id then None else s.bankLines[b])))
  }

  function AddLine(s: State, id: nat, date: Date, amount: int): Result<State> {
    var _ :- RequireOpen(s, id);
    if amount == 0 then Err(ConstraintViolation)
    else Ok(s.(bankLines := s.bankLines + [Some(BankLine(id, date, amount, None))]))
  }

  function DeleteLine(s: State, line: nat): Result<State> {
    var _ :- OpenLine(s, line);
    Ok(s.(bankLines := s.bankLines[line := None]))
  }

  predicate IsRef(journal: seq<Entry>, r: LineRef) {
    r.entry < |journal| && r.line < |journal[r.entry].lines|
  }

  predicate IsUsed(bankLines: seq<Option<BankLine>>, r: LineRef) {
    exists b | 0 <= b < |bankLines| :: bankLines[b].Some? && bankLines[b].value.matched == Some(r)
  }

  /** A journal line on the account with the signed transaction amount. */
  predicate Pairs(journal: seq<Entry>, account: int, amount: int, r: LineRef) {
    && IsRef(journal, r)
    && journal[r.entry].lines[r.line].account == account
    && Net(journal[r.entry].lines[r.line], false) == amount
  }

  function SetMatch(s: State, line: nat, matched: Option<LineRef>): State
    requires HasLine(s, line)
  {
    s.(bankLines := s.bankLines[line := Some(s.bankLines[line].value.(matched := matched))])
  }

  function MatchLine(s: State, line: nat, r: LineRef): Result<State> {
    var b :- OpenLine(s, line);
    if b.matched.Some? then Err(AlreadyMatched)
    else if !Pairs(s.journal, s.statements[b.statement].value.account, b.amount, r) || IsUsed(s.bankLines, r) then
      Err(ConstraintViolation)
    else Ok(SetMatch(s, line, Some(r)))
  }

  function UnmatchLine(s: State, line: nat): Result<State> {
    var _ :- OpenLine(s, line);
    Ok(SetMatch(s, line, None))
  }

  /* ---- automatic matching ---- */

  /** All journal lines, in insertion order. */
  function AllRefs(journal: seq<Entry>): seq<LineRef> {
    if journal == [] then []
    else
      var n := |journal| - 1;
      AllRefs(journal[..n]) + seq(|journal[n].lines|, i requires 0 <= i => LineRef(n, i))
  }

  function DayGap(journal: seq<Entry>, r: LineRef, date: Date): nat
    requires IsRef(journal, r)
  {
    Abs(journal[r.entry].date - date)
  }

  /** An unused journal line that pairs with the statement line. */
  predicate IsCandidate(s: State, account: int, b: BankLine, r: LineRef) {
    Pairs(s.journal, account, b.amount, r) && !IsUsed(s.bankLines, r)
  }

  /** The candidate dated nearest to the line, the first of those. */
  function Nearest(s: State, account: int, b: BankLine, refs: seq<LineRef>): (r: Option<LineRef>)
    ensures r.Some? ==> r.value in refs && IsCandidate(s, account, b, r.value)
    ensures r.None? ==> forall x | x in refs :: !IsCandidate(s, account, b, x)
    ensures r.Some? ==> forall x | x in refs && IsCandidate(s, account, b, x) ::
                          DayGap(s.journal, r.value, b.date) <= DayGap(s.journal, x, b.date)
  {
    if refs == [] then None
    else
      var n := |refs| - 1;
      var hit := IsCandidate(s, account, b, refs[n]);
      match Nearest(s, account, b, refs[..n])
      case None => if hit then Some(refs[n]) else None
      case Some(x) =>
        if hit && DayGap(s.journal, refs[n], b.date) < DayGap(s.journal, x, b.date) then Some(refs[n]) else Some(x)
  }

  /** The statement's unmatched lines below n, in line order. */
  function Unmatched(s: State, id: nat, n: nat): (r: seq<nat>)
    requires n <= |s.bankLines|
    ensures forall b: nat ::
              b in r <==> b < n && s.bankLines[b].Some? && s.bankLines[b].value.statement == id
                          && s.bankLines[b].value.matched.None?
  {
    if n == 0 then []
    else
      var b := s.bankLines[n - 1];
      if b.Some? && b.value.statement == id && b.value.matched.None? then Unmatched(s, id, n - 1) + [n - 1]
      else Unmatched(s, id, n - 1)
  }

  /** Offers one line its nearest candidate. */
  function MatchOne(s: State, account: int, line: nat): State {
    if !HasLine(s, line) then s
    else
      match Nearest(s, account, s.bankLines[line].value, AllRefs(s.journal))
      case None => s
      case Some(r) => SetMatch(s, line, Some(r))
  }

  /** One line at a time, so each match uses up its journal line before the next line looks. */
  function MatchEach(s: State, account: int, lines: seq<nat>): State {
    if lines == [] then s
    else MatchOne(MatchEach(s, account, lines[..|lines| - 1]), account, lines[|lines| - 1])
  }

  function AutoMatch(s: State, id: nat): Result<State> {
    var st :- RequireOpen(s, id);
    Ok(MatchEach(s, st.account, Unmatched(s, id, |s.bankLines|)))
  }

  /* ---- reconciling ---- */

  function SumLines(bankLines: seq<Option<BankLine>>, id: nat): int {
    if bankLines == [] then 0
    else
      var b := bankLines[|bankLines| - 1];
      SumLines(bankLines[..|bankLines| - 1], id) + (if b.Some? && b.value.statement == id then b.value.amount else 0)
  }

  /** Some line is unmatched; a statement without lines counts as having one such row. */
  predicate AnyUnmatched(s: State, id: nat) {
    || (exists b | 0 <= b < |s.bankLines| ::
          s.bankLines[b].Some? && s.bankLines[b].value.statement == id && s.bankLines[b].value.matched.None?)
    || (forall b | 0 <= b < |s.bankLines| :: s.bankLines[b].Some? ==> s.bankLines[b].value.statement != id)
  }

  function Reconcile(cfg: Config, s: State, id: nat): Result<State> {
    var st :- RequireOpen(s, id);
    if AnyUnmatched(s, id) then Err(UnmatchedLines)
    else if st.opening + SumLines(s.bankLines, id) != st.closing then Err(Unbalanced)
    else if !CashAccount(cfg, s, st.account) then Err(ConstraintViolation)
    else Ok(s.(statements := s.statements[id := Some(st.(reconciled := true))]))
  }

  function ReopenStatement(cfg: Config, s: State, id: nat): Result<State> {
    if !HasStatement(s, id) then Err(NotFound)
    else
      var st := s.statements[id].value;
      if !st.reconciled then Err(NotReconciled)
      else if !CashAccount(cfg, s, st.account) then Err(ConstraintViolation)
      else Ok(s.(statements := s.statements[id := Some(st.(reconciled := false))]))
  }
}
