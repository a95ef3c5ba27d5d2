/**
  The bot's package state as an object: the open position, the running
  PnL and the time of the last booked trade, changed in place by the
  order routine, the exit routine and the signal handler.
 */
module Bot {
  import opened Decision

  class Engine {
    /** The open exposure ("", "long" or "short"). */
    var position: Position
    /** The running mock PnL since the process started. */
    var totalProfit: real
    /** When the last order got through to the broker. */
    var lastTrade: LastTrade

    /** The three fields as one value. */
    function Snapshot(): State
      reads this
    {
      State(position, totalProfit, lastTrade)
    }

    /** The orders attempted so far in this call have been booked on top of `s0`, each exactly when it got through. */
    ghost predicate Booked(s0: State, orders: seq<Side>, ok: nat -> bool, now: int)
      reads this
    {
      var t := Settle(s0, orders, ok, now);
      totalProfit == t.profit && lastTrade == t.lastTrade
    }

    /** The process starts flat, with no PnL and no trade yet. */
    constructor ()
      ensures Snapshot() == Initial
    {
      position := Flat;
      totalProfit := 0.0;
      lastTrade := Never;
    }

    /**
      Sends one order. When the request cannot be built or sent it
      returns without booking anything; otherwise, whatever the broker
      answers, it books the side's mock PnL and stamps the trade time.
     */
    method PlaceOrder(side: Side, now: int, delivered: bool)
      modifies this
      ensures Snapshot() == if delivered then Book(old(Snapshot()), side, now) else old(Snapshot())
    {
      if !delivered {
        return;
      }
      var mockPnL := BuyPnL;
      if side == Sell {
        mockPnL := SellPnL;
      }
      totalProfit := totalProfit + mockPnL;
      lastTrade := At(now);
    }

    /** Closes the open position with one opposite order, if any, and leaves the engine flat. */
    method ExitPosition(now: int, delivered: bool) returns (sent: seq<Side>)
      modifies this
      ensures sent == Closing(old(position))
      ensures position == Flat
      ensures var t := if sent != [] && delivered then Book(old(Snapshot()), sent[0], now) else old(Snapshot());
              totalProfit == t.profit && lastTrade == t.lastTrade
    {
      sent := [];
      if position == Long {
        PlaceOrder(Sell, now, delivered);
        sent := [Sell];
      } else if position == Short {
        PlaceOrder(Buy, now, delivered);
        sent := [Buy];
      }
      position := Flat;
    }

    /** Attempts one order as attempt number |orders| of the call and records it. */
    method Send(side: Side, now: int, transportOk: nat -> bool, orders: seq<Side>, ghost s0: State)
      returns (orders': seq<Side>)
      requires Booked(s0, orders, transportOk, now)
      modifies this
      ensures orders' == orders + [side]
      ensures position == old(position)
      ensures Booked(s0, orders', transportOk, now)
    {
      ghost var before := Settle(s0, orders, transportOk, now);
      PlaceOrder(side, now, transportOk(|orders|));
      orders' := orders + [side];
      SettleSnoc(s0, orders, side, transportOk, now);
      assert Settle(s0, orders', transportOk, now)
          == if transportOk(|orders|) then Book(before, side, now) else before;
    }

    /** Closes the open position as attempt number |orders| of the call and records the order, if any. */
    method Close(now: int, transportOk: nat -> bool, orders: seq<Side>, ghost s0: State)
      returns (orders': seq<Side>)
      requires Booked(s0, orders, transportOk, now)
      modifies this
      ensures orders' == orders + Closing(old(position))
      ensures position == Flat
      ensures Booked(s0, orders', transportOk, now)
    {
      var sent := ExitPosition(now, transportOk(|orders|));
      orders' := orders + sent;
      if sent == [] {
        assert orders' == orders;
      } else {
        assert orders' == orders + [sent[0]];
        SettleSnoc(s0, orders, sent[0], transportOk, now);
      }
    }

    /**
      Handles one signal: the throttle and loss guards, then the switch
      on the message, then the RSI auto-exit on the position the switch
      left. Returns the order sides attempted, in order.
     */
    method HandleSignal(msg: string, rsi: real, now: int, transportOk: nat -> bool) returns (orders: seq<Side>)
      modifies this
      ensures var r := Step(old(Snapshot()), msg, rsi, now, transportOk);
              Snapshot() == r.state && orders == r.orders
    {
      orders := [];
      if Throttled(lastTrade, now) {
        return;
      }
      if Halted(totalProfit) {
        return;
      }
      ghost var s0 := Snapshot();
      match Classify(msg) {
        case BuySignal =>
          if position == Flat && rsi > EntryRSIBuy {
            orders := Send(Buy, now, transportOk, orders, s0);
            position := Long;
          } else if position == Short && rsi > EntryRSIBuy {
            orders := Close(now, transportOk, orders, s0);
            orders := Send(Buy, now, transportOk, orders, s0);
            position := Long;
          }
        case SellSignal =>
          if position == Flat && rsi < EntryRSISell {
            orders := Send(Sell, now, transportOk, orders, s0);
            position := Short;
          } else if position == Long && rsi < EntryRSISell {
            orders := Close(now, transportOk, orders, s0);
            orders := Send(Sell, now, transportOk, orders, s0);
            position := Short;
          }
        case ExitSignal =>
          orders := Close(now, transportOk, orders, s0);
        case Unrecognised =>
      }
      ghost var d := Dispatch(s0.position, Classify(msg), rsi);
      assert orders == d.orders && position == d.next;

      if position == Long && rsi < ExitRSI {
        orders := Close(now, transportOk, orders, s0);
      } else if position == Short && rsi > 100.0 - ExitRSI {
        orders := Close(now, transportOk, orders, s0);
      }
      ghost var m := Decide(s0.position, Classify(msg), rsi);
      assert orders == m.orders && position == m.next;
      assert Booked(s0, m.orders, transportOk, now);
    }
  }
}
