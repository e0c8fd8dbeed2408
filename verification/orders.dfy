/** Orders and the documents that fulfil them. Sales and purchase orders are alike: a line is drawn
    on by billing (invoice or bill lines) and by moving (shipments or receipts). */
module Orders {
  import opened Money
  import opened Tables

  datatype OrderLine = OrderLine(quantity: int, tracked: bool)

  datatype Status = Draft | Open | Closed | Cancelled

  datatype Order = Order(status: Status, lines: seq<OrderLine>)

  datatype LineId = LineId(order: nat, line: nat)

  datatype Axis = Billing | Moving

  datatype Row = Row(line: LineId, qty: int)

  /** An invoice or bill with its lines, or one stock movement with its single row. */
  datatype Fulfilment = Fulfilment(axis: Axis, rows: seq<Row>, posted: bool)

  datatype Book = Book(orders: seq<Option<Order>>, fulfilments: seq<Option<Fulfilment>>)

  predicate HasOrder(b: Book, id: nat) {
    id < |b.orders| && b.orders[id].Some?
  }

  predicate IsLine(b: Book, l: LineId) {
    HasOrder(b, l.order) && l.line < |b.orders[l.order].value.lines|
  }

  function LineOf(b: Book, l: LineId): OrderLine
    requires IsLine(b, l)
  {
    b.orders[l.order].value.lines[l.line]
  }

  /* ---- derived quantities ---- */

  function RowSum(rows: seq<Row>, l: LineId): int {
    if rows == [] then 0
    else RowSum(rows[..|rows| - 1], l) + (if rows[|rows| - 1].line == l then rows[|rows| - 1].qty else 0)
  }

  /** What all surviving documents draw from a line. */
  function Drawn(fulfilments: seq<Option<Fulfilment>>, axis: Axis, l: LineId): int {
    if fulfilments == [] then 0
    else
      var f := fulfilments[|fulfilments| - 1];
      Drawn(fulfilments[..|fulfilments| - 1], axis, l)
        + (if f.Some? && f.value.axis == axis then RowSum(f.value.rows, l) else 0)
  }

  /** What is left to bill, or to move; lines that are not stock are never moved. */
  function Outstanding(b: Book, axis: Axis, l: LineId): int
    requires IsLine(b, l)
  {
    if axis == Moving && !LineOf(b, l).tracked then 0
    else Max(LineOf(b, l).quantity - Drawn(b.fulfilments, axis, l), 0)
  }

  /* ---- choosing quantities ---- */

  datatype Request = Request(line: LineId, qty: int)

  function Requested(reqs: seq<Request>, l: LineId): seq<int> {
    if reqs == [] then []
    else Requested(reqs[..|reqs| - 1], l) + (if reqs[|reqs| - 1].line == l then [reqs[|reqs| - 1].qty] else [])
  }

  /** Each requested row is capped on its own at what is left; rows that come to nothing are dropped. */
  function Capped(left: int, xs: seq<int>, l: LineId): seq<Row> {
    if xs == [] then []
    else
      var qty := Min(left, xs[|xs| - 1]);
      Capped(left, xs[..|xs| - 1], l) + (if 0 < qty then [Row(l, qty)] else [])
  }

  /** No requests at all means everything that is left. */
  function Picked(b: Book, axis: Axis, reqs: seq<Request>, active: set<nat>, l: LineId): seq<Row>
    requires IsLine(b, l)
  {
    if axis == Moving && !(LineOf(b, l).tracked && l.line in active) then []
    else
      var left := Outstanding(b, axis, l);
      if reqs == [] then Capped(left, [left], l) else Capped(left, Requested(reqs, l), l)
  }

  /** The rows picked from the order's first n lines. */
  function PickAll(b: Book, axis: Axis, id: nat, reqs: seq<Request>, active: set<nat>, n: nat): seq<Row>
    requires HasOrder(b, id) && n <= |b.orders[id].value.lines|
  {
    if n == 0 then []
    else PickAll(b, axis, id, reqs, active, n - 1) + Picked(b, axis, reqs, active, LineId(id, n - 1))
  }

  /* ---- operations ---- */

  predicate LinesOk(lines: seq<OrderLine>) {
    forall l | l in lines :: 0 < l.quantity
  }

  function SetOrder(b: Book, id: nat, o: Option<Order>): Book
    requires id < |b.orders|
  {
    b.(orders := b.orders[id := o])
  }

  function UpdateOrder(b: Book, id: nat, lines: seq<OrderLine>): Result<Book> {
    if !HasOrder(b, id) then Err(NotFound)
    else if b.orders[id].value.status != Draft then Err(NotDraft)
    else if !LinesOk(lines) then Err(ConstraintViolation)
    else Ok(SetOrder(b, id, Some(Order(Draft, lines))))
  }

  function DeleteOrder(b: Book, id: nat): Result<Book> {
    if !HasOrder(b, id) then Err(NotFound)
    else if b.orders[id].value.status != Draft then Err(NotDraft)
    else Ok(SetOrder(b, id, None))
  }

  function Confirm(b: Book, id: nat): Result<Book> {
    if !HasOrder(b, id) then Err(NotFound)
    else if b.orders[id].value.status != Draft then Err(NotDraft)
    else if b.orders[id].value.lines == [] then Err(NoLines)
    else Ok(SetOrder(b, id, Some(b.orders[id].value.(status := Open))))
  }

  function Close(b: Book, id: nat): Result<Book> {
    if !HasOrder(b, id) then Err(NotFound)
    else if b.orders[id].value.status != Open then Err(NotOpen)
    else Ok(SetOrder(b, id, Some(b.orders[id].value.(status := Closed))))
  }

  predicate AnyDrawn(b: Book, id: nat)
    requires HasOrder(b, id)
  {
    exists n | 0 <= n < |b.orders[id].value.lines| ::
      0 < Drawn(b.fulfilments, Billing, LineId(id, n)) || 0 < Drawn(b.fulfilments, Moving, LineId(id, n))
  }

  function Cancel(b: Book, id: nat): Result<Book> {
    if !HasOrder(b, id) then Err(NotFound)
    else
      var o := b.orders[id].value;
      if o.status == Open && AnyDrawn(b, id) then Err(PartlyFulfilled)
      else if o.status != Draft && o.status != Open then Err(NotOpen)
      else Ok(SetOrder(b, id, Some(o.(status := Cancelled))))
  }

  function Rows(b: Book, axis: Axis, id: nat, reqs: seq<Request>, active: set<nat>): Result<seq<Row>> {
    if !HasOrder(b, id) then Err(NotFound)
    else if b.orders[id].value.status != Open then Err(NotOpen)
    else
      var rows := PickAll(b, axis, id, reqs, active, |b.orders[id].value.lines|);
      if rows == [] then Err(NothingToFulfil) else Ok(rows)
  }

  /** One document for all rows; the deferred trigger refuses an over-billed line at commit. */
  function Bill(b: Book, id: nat, reqs: seq<Request>): Result<Book> {
    var rows :- Rows(b, Billing, id, reqs, {});
    var after := b.(fulfilments := b.fulfilments + [Some(Fulfilment(Billing, rows, false))]);
    if exists row | row in rows ::
         IsLine(b, row.line) && LineOf(b, row.line).quantity < Drawn(after.fulfilments, Billing, row.line) then
      Err(ConstraintViolation)
    else Ok(after)
  }

  function Movements(rows: seq<Row>): seq<Option<Fulfilment>> {
    seq(|rows|, i requires 0 <= i < |rows| => Some(Fulfilment(Moving, [rows[i]], false)))
  }

  /** One movement for each row; no trigger checks their sum. */
  function Move(b: Book, id: nat, reqs: seq<Request>, active: set<nat>): Result<Book> {
    var rows :- Rows(b, Moving, id, reqs, active);
    Ok(b.(fulfilments := b.fulfilments + Movements(rows)))
  }

  predicate HasFulfilment(b: Book, id: nat) {
    id < |b.fulfilments| && b.fulfilments[id].Some?
  }

  function SetPosted(b: Book, id: nat, posted: bool): Result<Book> {
    if !HasFulfilment(b, id) then Err(NotFound)
    else Ok(b.(fulfilments := b.fulfilments[id := Some(b.fulfilments[id].value.(posted := posted))]))
  }

  function DeleteFulfilment(b: Book, id: nat): Result<Book> {
    if !HasFulfilment(b, id) then Err(NotFound)
    else if b.fulfilments[id].value.posted then Err(NotDraft)
    else Ok(b.(fulfilments := b.fulfilments[id := None]))
  }

  datatype OrderStep =
    | CreateOrder(lines: seq<OrderLine>) | UpdateDraft(id: nat, lines: seq<OrderLine>) | DeleteDraft(id: nat)
    | ConfirmOrder(id: nat) | CloseOrder(id: nat) | CancelOrder(id: nat)
    | BillOrder(id: nat, reqs: seq<Request>) | MoveOrder(id: nat, reqs: seq<Request>, active: set<nat>)
    | SetDocumentPosted(id: nat, posted: bool) | DeleteDocument(id: nat)

  function TryOrder(b: Book, step: OrderStep): Result<Book> {
    match step
    case CreateOrder(lines) =>
      if LinesOk(lines) then Ok(b.(orders := b.orders + [Some(Order(Draft, lines))])) else Err(ConstraintViolation)
    case UpdateDraft(id, lines) => UpdateOrder(b, id, lines)
    case DeleteDraft(id) => DeleteOrder(b, id)
    case ConfirmOrder(id) => Confirm(b, id)
    case CloseOrder(id) => Close(b, id)
    case CancelOrder(id) => Cancel(b, id)
    case BillOrder(id, reqs) => Bill(b, id, reqs)
    case MoveOrder(id, reqs, active) => Move(b, id, reqs, active)
    case SetDocumentPosted(id, posted) => SetPosted(b, id, posted)
    case DeleteDocument(id) => DeleteFulfilment(b, id)
  }

  function NextBook(b: Book, step: OrderStep): Book {
    match TryOrder(b, step)
    case Ok(after) => after
    case Err(_) => b
  }

  function RunOrders(steps: seq<OrderStep>): Book {
    if steps == [] then Book([], []) else NextBook(RunOrders(steps[..|steps| - 1]), steps[|steps| - 1])
  }

  /* ---- what is drawn ---- */

  lemma {:induction false} RowSumConcat(a: seq<Row>, b: seq<Row>, l: LineId)
    ensures RowSum(a + b, l) == RowSum(a, l) + RowSum(b, l)
  {
    if b == [] {
      assert a + b == a;
    } else {
      assert (a + b)[..|a + b| - 1] == a + b[..|b| - 1];
      RowSumConcat(a, b[..|b| - 1], l);
    }
  }

  lemma {:induction false} RowSumNothing(rows: seq<Row>, l: LineId)
    requires forall row | row in rows :: row.line != l
    ensures RowSum(rows, l) == 0
  {
    if rows != [] {
      RowSumNothing(rows[..|rows| - 1], l);
    }
  }

  lemma {:induction false} RowSumPositive(rows: seq<Row>, l: LineId)
    requires forall row | row in rows :: 0 < row.qty
    ensures 0 <= RowSum(rows, l)
    ensures (exists row | row in rows :: row.line == l) ==> 0 < RowSum(rows, l)
  {
    if rows != [] {
      RowSumPositive(rows[..|rows| - 1], l);
    }
  }

  lemma {:induction false} DrawnConcat(a: seq<Option<Fulfilment>>, b: seq<Option<Fulfilment>>, axis: Axis, l: LineId)
    ensures Drawn(a + b, axis, l) == Drawn(a, axis, l) + Drawn(b, axis, l)
  {
    if b == [] {
      assert a + b == a;
    } else {
      assert (a + b)[..|a + b| - 1] == a + b[..|b| - 1];
      DrawnConcat(a, b[..|b| - 1], axis, l);
    }
  }

  lemma {:induction false} DrawnMovements(rows: seq<Row>, axis: Axis, l: LineId)
    ensures Drawn(Movements(rows), axis, l) == if axis == Moving then RowSum(rows, l) else 0
  {
    if rows != [] {
      var n := |rows| - 1;
      var last := Some(Fulfilment(Moving, [rows[n]], false));
      assert Movements(rows) == Movements(rows[..n]) + [last];
      DrawnMovements(rows[..n], axis, l);
      DrawnConcat(Movements(rows[..n]), [last], axis, l);
      DrawnOne(last, axis, l);
      assert [rows[n]][..0] == [];
    }
  }

  lemma DrawnOne(f: Option<Fulfilment>, axis: Axis, l: LineId)
    ensures Drawn([f], axis, l) == if f.Some? && f.value.axis == axis then RowSum(f.value.rows, l) else 0
  {
    assert [f][..0] == [];
  }

  /** Replacing one document changes a line's drawn quantity by the difference. */
  lemma DrawnReplace(fs: seq<Option<Fulfilment>>, id: nat, f: Option<Fulfilment>, axis: Axis, l: LineId)
    requires id < |fs|
    ensures Drawn(fs[id := f], axis, l) == Drawn(fs, axis, l) - Drawn([fs[id]], axis, l) + Drawn([f], axis, l)
  {
    assert fs == fs[..id] + [fs[id]] + fs[id + 1..];
    assert fs[id := f] == fs[..id] + [f] + fs[id + 1..];
    DrawnConcat(fs[..id] + [fs[id]], fs[id + 1..], axis, l);
    DrawnConcat(fs[..id], [fs[id]], axis, l);
    DrawnConcat(fs[..id] + [f], fs[id + 1..], axis, l);
    DrawnConcat(fs[..id], [f], axis, l);
  }

  /* ---- when per-row capping is enough ---- */

  function Taken(left: int, xs: seq<int>): int {
    if xs == [] then 0 else Taken(left, xs[..|xs| - 1]) + Max(Min(left, xs[|xs| - 1]), 0)
  }

  function SumPositive(xs: seq<int>): int {
    if xs == [] then 0 else SumPositive(xs[..|xs| - 1]) + Max(xs[|xs| - 1], 0)
  }

  function CountPositive(xs: seq<int>): nat {
    if xs == [] then 0 else CountPositive(xs[..|xs| - 1]) + (if 0 < xs[|xs| - 1] then 1 else 0)
  }

  /** Nothing is left, or one row at most asks for something, or together they ask for no more
      than is left. */
  predicate Fits(left: int, xs: seq<int>) {
    left <= 0 || CountPositive(xs) <= 1 || SumPositive(xs) <= left
  }

  lemma {:induction false} TakenBounds(left: int, xs: seq<int>)
    requires 0 <= left
    ensures 0 <= Taken(left, xs) <= SumPositive(xs)
    ensures left == 0 ==> Taken(left, xs) == 0
    ensures CountPositive(xs) == 0 ==> SumPositive(xs) == 0
    ensures CountPositive(xs) == 1 ==> Taken(left, xs) <= left
    ensures 0 < left && 0 < CountPositive(xs) ==> 0 < Taken(left, xs)
    ensures SumPositive(xs) <= left ==> Taken(left, xs) == SumPositive(xs)
    ensures left < SumPositive(xs) && 0 < CountPositive(xs) ==> left <= Taken(left, xs)
    ensures left < SumPositive(xs) && 2 <= CountPositive(xs) && 0 < left ==> left < Taken(left, xs)
  {
    if xs != [] {
      TakenBounds(left, xs[..|xs| - 1]);
    }
  }

  /** Capping each requested row on its own stays within what is left exactly when the rows fit. */
  lemma TakenFits(left: int, xs: seq<int>)
    requires 0 <= left
    ensures Taken(left, xs) <= left <==> Fits(left, xs)
  {
    TakenBounds(left, xs);
  }

  lemma {:induction false} CappedSum(left: int, xs: seq<int>, l: LineId)
    ensures RowSum(Capped(left, xs, l), l) == Taken(left, xs)
    ensures forall row | row in Capped(left, xs, l) :: row.line == l && 0 < row.qty
  {
    if xs != [] {
      var init, qty := xs[..|xs| - 1], Min(left, xs[|xs| - 1]);
      CappedSum(left, init, l);
      RowSumConcat(Capped(left, init, l), if 0 < qty then [Row(l, qty)] else [], l);
      if 0 < qty { assert [Row(l, qty)][..0] == []; }
    }
  }

  /** What the request asks of one line. */
  function Asked(b: Book, axis: Axis, reqs: seq<Request>, l: LineId): seq<int>
    requires IsLine(b, l)
  {
    if reqs == [] then [Outstanding(b, axis, l)] else Requested(reqs, l)
  }

  predicate TakesPart(b: Book, axis: Axis, active: set<nat>, l: LineId)
    requires IsLine(b, l)
  {
    axis == Billing || (LineOf(b, l).tracked && l.line in active)
  }

  lemma PickedRows(b: Book, axis: Axis, reqs: seq<Request>, active: set<nat>, l: LineId)
    requires IsLine(b, l)
    ensures forall row | row in Picked(b, axis, reqs, active, l) ::
              row.line == l && 0 < row.qty && (axis == Moving ==> LineOf(b, l).tracked)
    ensures RowSum(Picked(b, axis, reqs, active, l), l)
            == if TakesPart(b, axis, active, l) then Taken(Outstanding(b, axis, l), Asked(b, axis, reqs, l)) else 0
  {
    CappedSum(Outstanding(b, axis, l), Asked(b, axis, reqs, l), l);
  }

  lemma {:induction false} PickAllRows(b: Book, axis: Axis, id: nat, reqs: seq<Request>, active: set<nat>, n: nat)
    requires HasOrder(b, id) && n <= |b.orders[id].value.lines|
    ensures forall row | row in PickAll(b, axis, id, reqs, active, n) ::
              row.line.order == id && row.line.line < n && 0 < row.qty
                && (axis == Moving ==> LineOf(b, row.line).tracked)
  {
    hide Picked, RowSum, Taken, Asked, Outstanding, TakesPart;
    if n > 0 {
      PickAllRows(b, axis, id, reqs, active, n - 1);
      PickedRows(b, axis, reqs, active, LineId(id, n - 1));
      var init, last := PickAll(b, axis, id, reqs, active, n - 1), Picked(b, axis, reqs, active, LineId(id, n - 1));
      assert PickAll(b, axis, id, reqs, active, n) == init + last;
      hide PickAll;
      assert forall row | row in init + last :: row in init || row in last;
    }
  }

  lemma NothingPicked(b: Book, axis: Axis, id: nat, reqs: seq<Request>, active: set<nat>, n: nat, l: LineId)
    requires HasOrder(b, id) && n == 0
    ensures RowSum(PickAll(b, axis, id, reqs, active, n), l) == 0
  {
  }

  /** The rows of the last line are the only ones on it. */
  lemma RowsApart(b: Book, axis: Axis, id: nat, reqs: seq<Request>, active: set<nat>, n: nat)
    requires HasOrder(b, id) && n < |b.orders[id].value.lines|
    ensures forall row | row in PickAll(b, axis, id, reqs, active, n) :: row.line != LineId(id, n)
    ensures forall row | row in Picked(b, axis, reqs, active, LineId(id, n)) :: row.line == LineId(id, n)
  {
    hide PickAll, Picked, RowSum, Taken, Asked, Outstanding, TakesPart;
    PickAllRows(b, axis, id, reqs, active, n);
    PickedRows(b, axis, reqs, active, LineId(id, n));
  }

  lemma PickAllNext(b: Book, axis: Axis, id: nat, reqs: seq<Request>, active: set<nat>, n: nat, l: LineId)
    requires HasOrder(b, id) && 0 < n <= |b.orders[id].value.lines|
    ensures RowSum(PickAll(b, axis, id, reqs, active, n), l)
            == if l == LineId(id, n - 1) then RowSum(Picked(b, axis, reqs, active, l), l)
               else RowSum(PickAll(b, axis, id, reqs, active, n - 1), l)
  {
    var last := LineId(id, n - 1);
    var init, rows := PickAll(b, axis, id, reqs, active, n - 1), Picked(b, axis, reqs, active, last);
    assert PickAll(b, axis, id, reqs, active, n) == init + rows;
    hide RowSum, Picked, PickAll;
    RowsApart(b, axis, id, reqs, active, n - 1);
    RowSumSplit(init, rows, last, l);
  }

  lemma {:induction false} PickAllSum(b: Book, axis: Axis, id: nat, reqs: seq<Request>, active: set<nat>, n: nat,
                                      l: LineId)
    requires HasOrder(b, id) && n <= |b.orders[id].value.lines|
    ensures RowSum(PickAll(b, axis, id, reqs, active, n), l)
            == if l.order == id && l.line < n && TakesPart(b, axis, active, l)
               then Taken(Outstanding(b, axis, l), Asked(b, axis, reqs, l)) else 0
  {
    hide RowSum, PickAll, Picked, Taken, Outstanding, Asked;
    if n == 0 {
      NothingPicked(b, axis, id, reqs, active, n, l);
    } else {
      PickAllSum(b, axis, id, reqs, active, n - 1, l);
      PickAllNext(b, axis, id, reqs, active, n, l);
      if l == LineId(id, n - 1) {
        PickedRows(b, axis, reqs, active, l);
      }
    }
  }

  /** Rows of a line that comes last, after rows of other lines. */
  lemma RowSumSplit(a: seq<Row>, c: seq<Row>, last: LineId, l: LineId)
    requires (forall row | row in a :: row.line != last) && (forall row | row in c :: row.line == last)
    ensures RowSum(a + c, l) == if l == last then RowSum(c, l) else RowSum(a, l)
  {
    RowSumConcat(a, c, l);
    if l != last {
      RowSumNothing(c, l);
    } else {
      RowSumNothing(a, l);
    }
  }

  /* ---- what every operation keeps ---- */

  ghost predicate RowOk(b: Book, axis: Axis, row: Row) {
    && 0 < row.qty && IsLine(b, row.line)
    && (b.orders[row.line.order].value.status == Open || b.orders[row.line.order].value.status == Closed)
    && (axis == Moving ==> LineOf(b, row.line).tracked)
  }

  ghost predicate DocumentOk(b: Book, id: nat) {
    HasFulfilment(b, id) ==>
      forall row | row in b.fulfilments[id].value.rows :: RowOk(b, b.fulfilments[id].value.axis, row)
  }

  ghost predicate CapOk(b: Book, axis: Axis, l: LineId) {
    IsLine(b, l) ==> 0 < LineOf(b, l).quantity && Drawn(b.fulfilments, axis, l) <= LineOf(b, l).quantity
  }

  ghost predicate BookOk(b: Book) {
    (forall id: nat :: DocumentOk(b, id)) && (forall axis, l :: CapOk(b, axis, l))
  }

  lemma {:induction false} DrawnPositive(b: Book, n: nat, axis: Axis, l: LineId)
    requires n <= |b.fulfilments| && forall id: nat :: DocumentOk(b, id)
    ensures 0 <= Drawn(b.fulfilments[..n], axis, l)
    ensures 0 < Drawn(b.fulfilments[..n], axis, l) ==> IsLine(b, l) && RowOk(b, axis, Row(l, 1))
  {
    if n > 0 {
      DrawnPositive(b, n - 1, axis, l);
      assert b.fulfilments[..n][..n - 1] == b.fulfilments[..n - 1];
      assert DocumentOk(b, n - 1);
      if b.fulfilments[n - 1].Some? {
        var rows := b.fulfilments[n - 1].value.rows;
        RowSumPositive(rows, l);
        if forall row | row in rows :: row.line != l {
          RowSumNothing(rows, l);
        } else {
          var row :| row in rows && row.line == l;
          assert RowOk(b, b.fulfilments[n - 1].value.axis, row);
        }
      }
    }
  }

  /** On each axis a line takes part in, what is drawn and what is left make up what was ordered;
      draft and cancelled orders have nothing drawn. */
  lemma Conserved(b: Book, axis: Axis, l: LineId)
    requires BookOk(b) && IsLine(b, l)
    ensures 0 <= Drawn(b.fulfilments, axis, l) <= LineOf(b, l).quantity
    ensures axis == Billing || LineOf(b, l).tracked ==>
              Drawn(b.fulfilments, axis, l) + Outstanding(b, axis, l) == LineOf(b, l).quantity
    ensures axis == Moving && !LineOf(b, l).tracked ==> Drawn(b.fulfilments, axis, l) == 0
    ensures b.orders[l.order].value.status == Draft || b.orders[l.order].value.status == Cancelled ==>
              Drawn(b.fulfilments, axis, l) == 0
  {
    assert CapOk(b, axis, l);
    assert b.fulfilments[..|b.fulfilments|] == b.fulfilments;
    DrawnPositive(b, |b.fulfilments|, axis, l);
  }

  /** A line something is drawn from stays exactly as ordered. */
  ghost predicate LinesStay(b: Book, t: Book) {
    forall axis, l | 0 < Drawn(b.fulfilments, axis, l) && IsLine(b, l) :: IsLine(t, l) && LineOf(t, l) == LineOf(b, l)
  }

  /** Orders may change as long as lines drawn on stay, on orders still open or closed. */
  lemma OrdersKeep(b: Book, t: Book)
    requires BookOk(b) && t.fulfilments == b.fulfilments
    requires forall axis, row | RowOk(b, axis, row) && 0 < Drawn(b.fulfilments, axis, row.line) :: RowOk(t, axis, row)
    requires forall axis, l | 0 < Drawn(b.fulfilments, axis, l) && IsLine(b, l) ::
               IsLine(t, l) && LineOf(t, l) == LineOf(b, l)
    requires forall l | IsLine(t, l) :: 0 < LineOf(t, l).quantity
    ensures BookOk(t) && LinesStay(b, t)
  {
    forall id: nat ensures DocumentOk(t, id) {
      if HasFulfilment(b, id) {
        assert DocumentOk(b, id);
        var f := b.fulfilments[id].value;
        forall row | row in f.rows ensures RowOk(t, f.axis, row) {
          assert RowOk(b, f.axis, row);
          DrawnHas(b, id, row);
        }
      }
    }
    forall axis, l ensures CapOk(t, axis, l) {
      assert CapOk(b, axis, l);
      assert b.fulfilments[..|b.fulfilments|] == b.fulfilments;
      DrawnPositive(b, |b.fulfilments|, axis, l);
    }
  }

  /** A row that exists is drawn. */
  lemma DrawnHas(b: Book, id: nat, row: Row)
    requires BookOk(b) && HasFulfilment(b, id) && row in b.fulfilments[id].value.rows
    ensures 0 < Drawn(b.fulfilments, b.fulfilments[id].value.axis, row.line)
  {
    var f, fs := b.fulfilments[id], b.fulfilments;
    assert fs == fs[..id] + [f] + fs[id + 1..];
    DrawnConcat(fs[..id] + [f], fs[id + 1..], f.value.axis, row.line);
    DrawnConcat(fs[..id], [f], f.value.axis, row.line);
    DrawnOne(f, f.value.axis, row.line);
    assert DocumentOk(b, id);
    RowSumPositive(f.value.rows, row.line);
    DrawnPositive(b, id, f.value.axis, row.line);
    var rest := b.(fulfilments := fs[id + 1..]);
    forall i: nat ensures DocumentOk(rest, i) { assert DocumentOk(b, id + 1 + i); }
    assert rest.fulfilments[..|rest.fulfilments|] == rest.fulfilments;
    DrawnPositive(rest, |rest.fulfilments|, f.value.axis, row.line);
  }

  lemma OrderStepKeeps(b: Book, step: OrderStep)
    requires BookOk(b) && TryOrder(b, step).Ok?
    requires step.CreateOrder? || step.UpdateDraft? || step.DeleteDraft? || step.ConfirmOrder? || step.CloseOrder?
             || step.CancelOrder?
    ensures BookOk(TryOrder(b, step).value) && LinesStay(b, TryOrder(b, step).value)
  {
    var t := TryOrder(b, step).value;
    forall l | IsLine(t, l) ensures 0 < LineOf(t, l).quantity {
      assert CapOk(b, Billing, l);
    }
    forall axis, l | 0 < Drawn(b.fulfilments, axis, l) && IsLine(b, l)
      ensures IsLine(t, l) && LineOf(t, l) == LineOf(b, l)
      ensures RowOk(b, axis, Row(l, 1)) ==> RowOk(t, axis, Row(l, 1))
    {
      Conserved(b, axis, l);
    }
    forall axis, row | RowOk(b, axis, row) && 0 < Drawn(b.fulfilments, axis, row.line) ensures RowOk(t, axis, row) {
      assert RowOk(b, axis, Row(row.line, 1));
    }
    OrdersKeep(b, t);
  }

  /* ---- fulfilling ---- */

  /** Every line's requested rows fit what is left of it. */
  ghost predicate RequestFits(b: Book, id: nat, reqs: seq<Request>, active: set<nat>) {
    forall l: LineId | IsLine(b, l) && l.order == id && TakesPart(b, Moving, active, l) ::
      Fits(Outstanding(b, Moving, l), Asked(b, Moving, reqs, l))
  }

  predicate DistinctLines(reqs: seq<Request>) {
    forall i, j | 0 <= i < j < |reqs| :: reqs[i].line != reqs[j].line
  }

  lemma {:induction false} RequestedOnce(reqs: seq<Request>, l: LineId)
    requires DistinctLines(reqs)
    ensures |Requested(reqs, l)| <= 1
    ensures (forall r | r in reqs :: r.line != l) ==> Requested(reqs, l) == []
  {
    if reqs != [] {
      RequestedOnce(reqs[..|reqs| - 1], l);
    }
  }

  /** Requests with distinct lines, and requests for everything, always fit. */
  lemma DistinctFits(b: Book, id: nat, reqs: seq<Request>, active: set<nat>)
    requires DistinctLines(reqs)
    ensures RequestFits(b, id, reqs, active)
  {
    forall l: LineId | IsLine(b, l) ensures Fits(Outstanding(b, Moving, l), Asked(b, Moving, reqs, l)) {
      RequestedOnce(reqs, l);
      var xs := Asked(b, Moving, reqs, l);
      assert |xs| == 1 ==> xs[..0] == [];
    }
  }

  lemma MoveDraws(b: Book, id: nat, reqs: seq<Request>, active: set<nat>, axis: Axis, l: LineId)
    requires Move(b, id, reqs, active).Ok?
    ensures Drawn(Move(b, id, reqs, active).value.fulfilments, axis, l)
            == Drawn(b.fulfilments, axis, l)
               + if axis == Moving && IsLine(b, l) && l.order == id && TakesPart(b, Moving, active, l)
                 then Taken(Outstanding(b, Moving, l), Asked(b, Moving, reqs, l)) else 0
  {
    var rows := Rows(b, Moving, id, reqs, active).value;
    PickAllSum(b, Moving, id, reqs, active, |b.orders[id].value.lines|, l);
    DrawnConcat(b.fulfilments, Movements(rows), axis, l);
    DrawnMovements(rows, axis, l);
  }

  lemma NewRowsOk(b: Book, axis: Axis, id: nat, reqs: seq<Request>, active: set<nat>)
    requires Rows(b, axis, id, reqs, active).Ok?
    ensures forall row | row in Rows(b, axis, id, reqs, active).value :: RowOk(b, axis, row)
  {
    PickAllRows(b, axis, id, reqs, active, |b.orders[id].value.lines|);
  }

  /** Shipping or receiving keeps every line within what was ordered exactly when the requested
      rows fit; rows for one line that are each within what is left can together exceed it. */
  lemma MoveKeepsCaps(b: Book, id: nat, reqs: seq<Request>, active: set<nat>)
    requires BookOk(b) && Move(b, id, reqs, active).Ok?
    ensures (forall axis, l :: CapOk(Move(b, id, reqs, active).value, axis, l)) <==> RequestFits(b, id, reqs, active)
  {
    var t := Move(b, id, reqs, active).value;
    forall axis, l
      ensures CapOk(t, axis, l) <==>
                (axis == Moving && IsLine(b, l) && l.order == id && TakesPart(b, Moving, active, l) ==>
                   Fits(Outstanding(b, Moving, l), Asked(b, Moving, reqs, l)))
    {
      assert CapOk(b, axis, l);
      MoveDraws(b, id, reqs, active, axis, l);
      if IsLine(b, l) {
        TakenFits(Outstanding(b, Moving, l), Asked(b, Moving, reqs, l));
      }
    }
    if forall axis, l :: CapOk(t, axis, l) {
      forall l: LineId | IsLine(b, l) && l.order == id && TakesPart(b, Moving, active, l)
        ensures Fits(Outstanding(b, Moving, l), Asked(b, Moving, reqs, l))
      {
        assert CapOk(t, Moving, l);
      }
    }
  }

  /* ---- shipping more than was ordered ---- */

  const SHIP_STEPS: seq<OrderStep> := [CreateOrder([OrderLine(4, true)]), ConfirmOrder(0)]

  /** The same line asked for twice. */
  const TWICE: seq<Request> := [Request(LineId(0, 0), 3), Request(LineId(0, 0), 3)]

  lemma OpenOrder()
    ensures RunOrders(SHIP_STEPS) == Book([Some(Order(Open, [OrderLine(4, true)]))], [])
  {
    var steps := SHIP_STEPS;
    assert steps[..0] == [] && steps[..1][..0] == [];
    assert RunOrders(steps[..1]) == Book([Some(Order(Draft, [OrderLine(4, true)]))], []);
  }

  /** Of an open order for 4, two rows of 3 each are within the 4 that are left; both are shipped. */
  lemma ShipsSixOfFour()
    ensures var b := RunOrders(SHIP_STEPS);
            && IsLine(b, LineId(0, 0)) && LineOf(b, LineId(0, 0)).quantity == 4
            && Move(b, 0, TWICE, {0}).Ok?
            && Drawn(Move(b, 0, TWICE, {0}).value.fulfilments, Moving, LineId(0, 0)) == 6
  {
    OpenOrder();
    var b, l := RunOrders(SHIP_STEPS), LineId(0, 0);
    hide RunOrders;
    assert TWICE[..1][..0] == [];
    assert Requested(TWICE[..1], l) == [3];
    assert Asked(b, Moving, TWICE, l) == [3, 3];
    assert [3, 3][..1] == [3] && [3][..0] == [];
    assert Taken(4, [3]) == 3;
    assert Taken(4, [3, 3]) == 6;
    PickAllSum(b, Moving, 0, TWICE, {0}, 1, l);
    assert PickAll(b, Moving, 0, TWICE, {0}, 1) != [];
    MoveDraws(b, 0, TWICE, {0}, Moving, l);
  }

  lemma MoveStepKeeps(b: Book, id: nat, reqs: seq<Request>, active: set<nat>)
    requires BookOk(b) && Move(b, id, reqs, active).Ok? && RequestFits(b, id, reqs, active)
    ensures BookOk(Move(b, id, reqs, active).value) && LinesStay(b, Move(b, id, reqs, active).value)
  {
    var t := Move(b, id, reqs, active).value;
    MoveKeepsCaps(b, id, reqs, active);
    NewRowsOk(b, Moving, id, reqs, active);
    var rows := Rows(b, Moving, id, reqs, active).value;
    forall i: nat ensures DocumentOk(t, i) {
      if i < |b.fulfilments| {
        assert DocumentOk(b, i);
      } else if i < |t.fulfilments| {
        assert t.fulfilments[i] == Movements(rows)[i - |b.fulfilments|];
        assert rows[i - |b.fulfilments|] in rows;
      }
    }
  }

  lemma BillStepKeeps(b: Book, id: nat, reqs: seq<Request>)
    requires BookOk(b) && Bill(b, id, reqs).Ok?
    ensures BookOk(Bill(b, id, reqs).value) && LinesStay(b, Bill(b, id, reqs).value)
  {
    var t := Bill(b, id, reqs).value;
    var rows := Rows(b, Billing, id, reqs, {}).value;
    NewRowsOk(b, Billing, id, reqs, {});
    forall i: nat ensures DocumentOk(t, i) {
      if i < |b.fulfilments| { assert DocumentOk(b, i); }
    }
    forall axis, l ensures CapOk(t, axis, l) {
      assert CapOk(b, axis, l);
      DrawnConcat(b.fulfilments, [Some(Fulfilment(Billing, rows, false))], axis, l);
      DrawnOne(Some(Fulfilment(Billing, rows, false)), axis, l);
      if forall row | row in rows :: row.line != l {
        RowSumNothing(rows, l);
      }
    }
  }

  lemma DocumentStepKeeps(b: Book, step: OrderStep)
    requires BookOk(b) && TryOrder(b, step).Ok? && (step.SetDocumentPosted? || step.DeleteDocument?)
    ensures BookOk(TryOrder(b, step).value) && LinesStay(b, TryOrder(b, step).value)
  {
    var t, id := TryOrder(b, step).value, step.id;
    forall i: nat ensures DocumentOk(t, i) { assert DocumentOk(b, i); }
    forall axis, l ensures CapOk(t, axis, l) {
      assert CapOk(b, axis, l) && DocumentOk(b, id);
      DrawnReplace(b.fulfilments, id, t.fulfilments[id], axis, l);
      DrawnOne(b.fulfilments[id], axis, l);
      DrawnOne(t.fulfilments[id], axis, l);
      RowSumPositive(b.fulfilments[id].value.rows, l);
    }
  }

  /** A shipment or receipt whose requested rows fit; anything else is unrestricted. */
  ghost predicate StepFits(b: Book, step: OrderStep) {
    step.MoveOrder? ==> RequestFits(b, step.id, step.reqs, step.active)
  }

  lemma BookStepKeeps(b: Book, step: OrderStep)
    requires BookOk(b) && StepFits(b, step)
    ensures BookOk(NextBook(b, step)) && LinesStay(b, NextBook(b, step))
  {
    hide BookOk, LinesStay, Move, Bill, RequestFits;
    if TryOrder(b, step).Ok? {
      if step.MoveOrder? {
        MoveStepKeeps(b, step.id, step.reqs, step.active);
      } else if step.BillOrder? {
        BillStepKeeps(b, step.id, step.reqs);
      } else if step.SetDocumentPosted? || step.DeleteDocument? {
        DocumentStepKeeps(b, step);
      } else {
        OrderStepKeeps(b, step);
      }
    } else {
      NothingMoves(b);
    }
  }

  lemma NothingMoves(b: Book)
    ensures LinesStay(b, b)
  {
  }

  ghost predicate FittingRun(steps: seq<OrderStep>) {
    steps == [] || (FittingRun(steps[..|steps| - 1]) && StepFits(RunOrders(steps[..|steps| - 1]), steps[|steps| - 1]))
  }

  /** Requests that name each line at most once fit in every run. */
  lemma {:induction false} DistinctRunsFit(steps: seq<OrderStep>)
    requires forall step | step in steps && step.MoveOrder? :: DistinctLines(step.reqs)
    ensures FittingRun(steps)
  {
    if steps != [] {
      var init, last := steps[..|steps| - 1], steps[|steps| - 1];
      assert forall step | step in init :: step in steps;
      DistinctRunsFit(init);
      assert last in steps;
      if last.MoveOrder? {
        DistinctFits(RunOrders(init), last.id, last.reqs, last.active);
      }
    }
  }

  /** Through any interleaving of editing, confirming, fulfilling, posting, unposting, deleting,
      closing and cancelling, no line is fulfilled beyond what was ordered: on each axis it takes
      part in, what is drawn and what is left make up its quantity. */
  lemma {:induction false} EveryRunConserves(steps: seq<OrderStep>, axis: Axis, l: LineId)
    requires FittingRun(steps)
    ensures BookOk(RunOrders(steps))
    ensures var b := RunOrders(steps);
            IsLine(b, l) ==>
              && 0 <= Drawn(b.fulfilments, axis, l) <= LineOf(b, l).quantity
              && if axis == Billing || LineOf(b, l).tracked
                 then Drawn(b.fulfilments, axis, l) + Outstanding(b, axis, l) == LineOf(b, l).quantity
                 else Drawn(b.fulfilments, axis, l) == 0
  {
    if steps == [] {
      assert BookOk(Book([], []));
    } else {
      EveryRunConserves(steps[..|steps| - 1], axis, l);
      BookStepKeeps(RunOrders(steps[..|steps| - 1]), steps[|steps| - 1]);
    }
    if IsLine(RunOrders(steps), l) {
      Conserved(RunOrders(steps), axis, l);
    }
  }

  /** In particular whenever every shipment names each line at most once. */
  lemma DistinctRunsConserve(steps: seq<OrderStep>, axis: Axis, l: LineId)
    requires forall step | step in steps && step.MoveOrder? :: DistinctLines(step.reqs)
    ensures var b := RunOrders(steps);
            IsLine(b, l) && (axis == Billing || LineOf(b, l).tracked) ==>
              && 0 <= Drawn(b.fulfilments, axis, l)
              && Drawn(b.fulfilments, axis, l) + Outstanding(b, axis, l) == LineOf(b, l).quantity
  {
    DistinctRunsFit(steps);
    EveryRunConserves(steps, axis, l);
  }
}
