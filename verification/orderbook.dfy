/** Orders and their fulfilment as statements over two tables. */
module OrderBooks {
  import opened Tables
  import opened Orders

  class OrderBook {
    var orders: seq<Option<Order>>
    var fulfilments: seq<Option<Fulfilment>>

    constructor ()
      ensures Snapshot() == Book([], [])
    {
      orders, fulfilments := [], [];
    }

    function Snapshot(): Book
      reads this
    {
      Book(orders, fulfilments)
    }

    method ConfirmOrder(id: nat) returns (r: Result<()>)
      modifies `orders
      ensures r.Ok? <==> old(HasOrder(Snapshot(), id) && orders[id].value.status == Draft
                             && orders[id].value.lines != [])
      ensures orders == if r.Ok? then old(orders[id := Some(Order(Open, orders[id].value.lines))]) else old(orders)
      ensures match Confirm(old(Snapshot()), id)
              case Ok(after) => r.Ok? && Snapshot() == after
              case Err(e) => r == Err(e) && Snapshot() == old(Snapshot())
    {
      if !HasOrder(Snapshot(), id) { return Err(NotFound); }
      var o := orders[id].value;
      if o.status != Draft { return Err(NotDraft); }
      if o.lines == [] { return Err(NoLines); }
      orders := orders[id := Some(o.(status := Open))];
      r := Ok(());
    }

    method CloseOrder(id: nat) returns (r: Result<()>)
      modifies `orders
      ensures r.Ok? <==> old(HasOrder(Snapshot(), id) && orders[id].value.status == Open)
      ensures orders == if r.Ok? then old(orders[id := Some(Order(Closed, orders[id].value.lines))]) else old(orders)
      ensures match Close(old(Snapshot()), id)
              case Ok(after) => r.Ok? && Snapshot() == after
              case Err(e) => r == Err(e) && Snapshot() == old(Snapshot())
    {
      if !HasOrder(Snapshot(), id) { return Err(NotFound); }
      var o := orders[id].value;
      if o.status != Open { return Err(NotOpen); }
      orders := orders[id := Some(o.(status := Closed))];
      r := Ok(());
    }

    /** A draft cancels freely, an open order only while nothing has been drawn. */
    method CancelOrder(id: nat) returns (r: Result<()>)
      modifies `orders
      ensures match Cancel(old(Snapshot()), id)
              case Ok(after) => r.Ok? && Snapshot() == after
              case Err(e) => r == Err(e) && Snapshot() == old(Snapshot())
    {
      if !HasOrder(Snapshot(), id) { return Err(NotFound); }
      var o := orders[id].value;
      match o.status {
        case Draft =>
        case Open =>
          var drawn := false;
          for n := 0 to |o.lines|
            invariant drawn <==> exists m | 0 <= m < n ::
                        0 < Drawn(fulfilments, Billing, LineId(id, m)) || 0 < Drawn(fulfilments, Moving, LineId(id, m))
          {
            if 0 < Drawn(fulfilments, Billing, LineId(id, n)) || 0 < Drawn(fulfilments, Moving, LineId(id, n)) {
              drawn := true;
            }
          }
          if drawn { return Err(PartlyFulfilled); }
        case _ => return Err(NotOpen);
      }
      orders := orders[id := Some(o.(status := Cancelled))];
      r := Ok(());
    }

    /** Inserts one movement for each picked row and returns their ids. */
    method MoveGoods(id: nat, reqs: seq<Request>, active: set<nat>) returns (r: Result<seq<nat>>)
      modifies `fulfilments
      ensures match Orders.Move(old(Snapshot()), id, reqs, active)
              case Ok(after) =>
                && Snapshot() == after
                && r == Ok(seq(|fulfilments| - |old(fulfilments)|, i requires 0 <= i => |old(fulfilments)| + i))
              case Err(e) => r == Err(e) && Snapshot() == old(Snapshot())
    {
      var rows :- Rows(Snapshot(), Moving, id, reqs, active);
      var movements := [];
      ghost var start := fulfilments;
      for n := 0 to |rows|
        invariant fulfilments == start + Movements(rows[..n])
        invariant movements == seq(n, i requires 0 <= i => |start| + i)
      {
        assert Movements(rows[..n + 1]) == Movements(rows[..n]) + [Some(Fulfilment(Moving, [rows[n]], false))];
        movements := movements + [|fulfilments|];
        fulfilments := fulfilments + [Some(Fulfilment(Moving, [rows[n]], false))];
      }
      assert rows[..|rows|] == rows;
      r := Ok(movements);
    }

    /** One draft document with all rows; an over-billed line refuses the commit. */
    method BillOrder(id: nat, reqs: seq<Request>) returns (r: Result<nat>)
      modifies `fulfilments
      ensures match Bill(old(Snapshot()), id, reqs)
              case Ok(after) => r == Ok(|old(fulfilments)|) && Snapshot() == after
              case Err(e) => r == Err(e) && Snapshot() == old(Snapshot())
    {
      var rows :- Rows(Snapshot(), Billing, id, reqs, {});
      var after := fulfilments + [Some(Fulfilment(Billing, rows, false))];
      for n := 0 to |rows|
        invariant forall m | 0 <= m < n ::
                    IsLine(Snapshot(), rows[m].line) ==>
                      Drawn(after, Billing, rows[m].line) <= LineOf(Snapshot(), rows[m].line).quantity
      {
        assert rows[n] in rows;
        if IsLine(Snapshot(), rows[n].line)
           && LineOf(Snapshot(), rows[n].line).quantity < Drawn(after, Billing, rows[n].line) {
          return Err(ConstraintViolation);
        }
      }
      r := Ok(|fulfilments|);
      fulfilments := after;
    }

    method DeleteDraft(id: nat) returns (r: Result<()>)
      modifies `fulfilments
      ensures r.Ok? <==> old(HasFulfilment(Snapshot(), id) && !fulfilments[id].value.posted)
      ensures fulfilments == if r.Ok? then old(fulfilments[id := None]) else old(fulfilments)
      ensures match DeleteFulfilment(old(Snapshot()), id)
              case Ok(after) => r.Ok? && Snapshot() == after
              case Err(e) => r == Err(e) && Snapshot() == old(Snapshot())
    {
      if !HasFulfilment(Snapshot(), id) { return Err(NotFound); }
      if fulfilments[id].value.posted { return Err(NotDraft); }
      fulfilments := fulfilments[id := None];
      r := Ok(());
    }
  }
}
