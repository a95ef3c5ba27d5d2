/**
  What the signal handler guarantees, proved about its specification
  `Decision.Step` (and so, through `Bot.Engine.HandleSignal`'s
  postcondition, about the object that runs it).
 */
module DecisionProperties {
  import opened Decision

  // ---------------------------------------------------------------------
  // Guards
  // ---------------------------------------------------------------------

  /** Within the minimum gap after the last booked trade nothing is sent and nothing changes. */
  lemma ThrottleBlocks(s: State, msg: string, rsi: real, now: int, ok: nat -> bool)
    requires s.lastTrade.At? && now - s.lastTrade.seconds < MinTradeGap
    ensures Step(s, msg, rsi, now, ok) == Outcome(s, [])
  {
  }

  /**
    With no trade booked yet, or at least MinTradeGap seconds after the
    last one, and above the loss limit, the call is decided on the signal
    alone: it sends the orders of the switch and auto-exit and ends in
    their position.
   */
  lemma ThrottleReleases(s: State, msg: string, rsi: real, now: int, ok: nat -> bool)
    requires !Halted(s.profit)
    requires s.lastTrade == Never || now - s.lastTrade.seconds >= MinTradeGap
    ensures Step(s, msg, rsi, now, ok).orders == Decide(s.position, Classify(msg), rsi).orders
    ensures Step(s, msg, rsi, now, ok).state.position == Decide(s.position, Classify(msg), rsi).next
  {
  }

  /** The zero trade time the process starts with never throttles: the first signal is decided at any clock reading. */
  lemma FirstTradeNotThrottled(msg: string, rsi: real, now: int, ok: nat -> bool)
    ensures Step(Initial, msg, rsi, now, ok).orders == Decide(Flat, Classify(msg), rsi).orders
    ensures Step(Initial, msg, rsi, now, ok).state.position == Decide(Flat, Classify(msg), rsi).next
  {
    ThrottleReleases(Initial, msg, rsi, now, ok);
  }

  /** At or below the daily loss limit nothing is sent and nothing changes, whatever the message and RSI. */
  lemma HaltBlocks(s: State, msg: string, rsi: real, now: int, ok: nat -> bool)
    requires s.profit <= MaxDailyLoss
    ensures Step(s, msg, rsi, now, ok) == Outcome(s, [])
  {
  }

  /** Once halted, the engine stays halted: any later sequence of calls sends nothing and changes nothing. */
  lemma {:induction false} HaltPersists(s: State, calls: seq<Call>)
    requires Halted(s.profit)
    ensures Run(s, calls) == Outcome(s, [])
    decreases |calls|
  {
    if calls != [] {
      var c := calls[0];
      HaltBlocks(s, c.msg, c.rsi, c.now, c.transportOk);
      HaltPersists(s, calls[1..]);
    }
  }

  /** A call that got at least one order through throttles every call less than MinTradeGap seconds later. */
  lemma TradeThrottlesNext(s: State, msg: string, rsi: real, now: int, ok: nat -> bool, later: int)
    requires later - now < MinTradeGap
    ensures Delivered(Step(s, msg, rsi, now, ok).orders, ok) != [] ==> Throttled(Step(s, msg, rsi, now, ok).state.lastTrade, later)
  {
    var m := Decide(s.position, Classify(msg), rsi);
    SettleAccounts(s, m.orders, ok, now);
  }

  // ---------------------------------------------------------------------
  // The switch on the message
  // ---------------------------------------------------------------------

  /** When neither the throttle nor the loss halt blocks the call, EXIT_SIGNAL ends flat, sending exactly the closing order of the open position, whatever the RSI. */
  lemma ExitFlattens(s: State, msg: string, rsi: real, now: int, ok: nat -> bool)
    requires !Blocked(s, now) && msg == "EXIT_SIGNAL"
    ensures Step(s, msg, rsi, now, ok).state.position == Flat
    ensures Step(s, msg, rsi, now, ok).orders == match s.position
                                                 case Long => [Sell]
                                                 case Short => [Buy]
                                                 case Flat => []
  {
  }

  /** When neither guard blocks the call: from flat, BUY_SIGNAL opens a long with one buy exactly when RSI is strictly above the entry threshold; otherwise nothing happens. */
  lemma BuyEntryGate(s: State, rsi: real, now: int, ok: nat -> bool)
    requires !Blocked(s, now) && s.position == Flat
    ensures var r := Step(s, "BUY_SIGNAL", rsi, now, ok);
            if rsi > EntryRSIBuy then r.orders == [Buy] && r.state.position == Long
            else r == Outcome(s, [])
  {
  }

  /** When neither guard blocks the call: from flat, SELL_SIGNAL opens a short with one sell exactly when RSI is strictly below the entry threshold; otherwise nothing happens. */
  lemma SellEntryGate(s: State, rsi: real, now: int, ok: nat -> bool)
    requires !Blocked(s, now) && s.position == Flat
    ensures var r := Step(s, "SELL_SIGNAL", rsi, now, ok);
            if rsi < EntryRSISell then r.orders == [Sell] && r.state.position == Short
            else r == Outcome(s, [])
  {
  }

  /** When neither guard blocks the call: from short, BUY_SIGNAL above the entry threshold covers then opens long: two buys. */
  lemma BuyReversal(s: State, rsi: real, now: int, ok: nat -> bool)
    requires !Blocked(s, now) && s.position == Short && rsi > EntryRSIBuy
    ensures Step(s, "BUY_SIGNAL", rsi, now, ok).orders == [Buy, Buy]
    ensures Step(s, "BUY_SIGNAL", rsi, now, ok).state.position == Long
  {
  }

  /** When neither guard blocks the call: from long, SELL_SIGNAL below the entry threshold closes then opens short: two sells. */
  lemma SellReversal(s: State, rsi: real, now: int, ok: nat -> bool)
    requires !Blocked(s, now) && s.position == Long && rsi < EntryRSISell
    ensures Step(s, "SELL_SIGNAL", rsi, now, ok).orders == [Sell, Sell]
    ensures Step(s, "SELL_SIGNAL", rsi, now, ok).state.position == Short
  {
    assert Classify("SELL_SIGNAL") == SellSignal;
    assert Decide(Long, SellSignal, rsi) == Move([Sell, Sell], Short);
  }

  /** When neither guard blocks the call, an unrecognised message sends nothing itself, but the auto-exit still closes a long below ExitRSI or a short above 100 - ExitRSI. */
  lemma UnrecognisedOnlyAutoExits(s: State, msg: string, rsi: real, now: int, ok: nat -> bool)
    requires !Blocked(s, now)
    requires msg != "BUY_SIGNAL" && msg != "SELL_SIGNAL" && msg != "EXIT_SIGNAL"
    ensures var r := Step(s, msg, rsi, now, ok);
            if s.position == Long && rsi < ExitRSI then r.orders == [Sell] && r.state.position == Flat
            else if s.position == Short && rsi > 100.0 - ExitRSI then r.orders == [Buy] && r.state.position == Flat
            else r == Outcome(s, [])
  {
  }

  // ---------------------------------------------------------------------
  // The auto-exit never undoes an entry made in the same call
  // ---------------------------------------------------------------------

  /** An entry the switch just made survives the auto-exit: the entry thresholds lie beyond the exit thresholds. */
  lemma EntrySurvivesAutoExit(p: Position, kind: SignalKind, rsi: real)
    requires Dispatch(p, kind, rsi).next != Flat && Dispatch(p, kind, rsi).next != p
    ensures Overlay(Dispatch(p, kind, rsi).next, rsi) == Move([], Dispatch(p, kind, rsi).next)
    ensures Decide(p, kind, rsi) == Dispatch(p, kind, rsi)
  {
  }

  /** No call sends more than two orders. */
  lemma AtMostTwoOrders(s: State, msg: string, rsi: real, now: int, ok: nat -> bool)
    ensures |Step(s, msg, rsi, now, ok).orders| <= 2
  {
  }

  // ---------------------------------------------------------------------
  // The position moves one fill at a time, through flat
  // ---------------------------------------------------------------------

  /** An optional value. */
  datatype Option<T> = None | Some(value: T)

  /**
    The position machine: an order opens a position from flat or closes
    the opposite one. A buy while long, or a sell while short, has no
    transition, and no single order goes from long to short or back.
   */
  function Fill(p: Position, side: Side): Option<Position>
  {
    match p
    case Flat => if side == Buy then Some(Long) else Some(Short)
    case Long => if side == Sell then Some(Flat) else None
    case Short => if side == Buy then Some(Flat) else None
  }

  /** The position reached by filling the orders one by one from p, or None if one of them would add to an open position. */
  function Replay(p: Position, orders: seq<Side>): Option<Position>
    decreases |orders|
  {
    if orders == [] then Some(p)
    else match Fill(p, orders[0])
      case None => None
      case Some(q) => Replay(q, orders[1..])
  }

  /** Replaying two batches of orders is replaying the first, then the second from where the first left the position. */
  lemma {:induction false} ReplayAppend(p: Position, a: seq<Side>, b: seq<Side>)
    ensures Replay(p, a + b) == match Replay(p, a)
                                case None => None
                                case Some(q) => Replay(q, b)
    decreases |a|
  {
    if a == [] {
      assert a + b == b;
    } else {
      assert (a + b)[0] == a[0];
      assert (a + b)[1..] == a[1..] + b;
      match Fill(p, a[0])
      case None =>
      case Some(q) => ReplayAppend(q, a[1..], b);
    }
  }

  /**
    Each decision is a walk of the position machine: its orders, filled
    one by one, lead from the old position to the new one. A reversal is
    therefore a close followed by an open, never a direct flip.
   */
  lemma DecideFollowsMachine(p: Position, kind: SignalKind, rsi: real)
    ensures Replay(p, Decide(p, kind, rsi).orders) == Some(Decide(p, kind, rsi).next)
  {
    var d := Dispatch(p, kind, rsi);
    DispatchFollowsMachine(p, kind, rsi);
    OverlayFollowsMachine(d.next, rsi);
    ReplayAppend(p, d.orders, Overlay(d.next, rsi).orders);
  }

  /** Closing an open position is one fill to flat. */
  lemma ClosingFollowsMachine(p: Position)
    ensures Replay(p, Closing(p)) == Some(Flat)
  {
    match p
    case Flat =>
    case Long => assert Closing(p)[1..] == [];
    case Short => assert Closing(p)[1..] == [];
  }

  /** The switch on the message is a walk of the position machine. */
  lemma DispatchFollowsMachine(p: Position, kind: SignalKind, rsi: real)
    ensures Replay(p, Dispatch(p, kind, rsi).orders) == Some(Dispatch(p, kind, rsi).next)
  {
    ClosingFollowsMachine(p);
    match kind
    case BuySignal =>
      if p == Flat && rsi > EntryRSIBuy {
        ReplayOne(Flat, Buy);
      } else if p == Short && rsi > EntryRSIBuy {
        ReplayOne(Flat, Buy);
        ReplayAppend(Short, [Buy], [Buy]);
      }
    case SellSignal =>
      if p == Flat && rsi < EntryRSISell {
        ReplayOne(Flat, Sell);
      } else if p == Long && rsi < EntryRSISell {
        ReplayOne(Flat, Sell);
        ReplayAppend(Long, [Sell], [Sell]);
      }
    case ExitSignal =>
    case Unrecognised =>
  }

  /** A single order is a single fill. */
  lemma ReplayOne(p: Position, side: Side)
    ensures Replay(p, [side]) == Fill(p, side)
  {
    assert [side][1..] == [];
  }

  /** The auto-exit is a walk of the position machine. */
  lemma OverlayFollowsMachine(p: Position, rsi: real)
    ensures Replay(p, Overlay(p, rsi).orders) == Some(Overlay(p, rsi).next)
  {
    ClosingFollowsMachine(p);
  }

  /** The same for one call of the handler, guards included. */
  lemma StepFollowsMachine(s: State, msg: string, rsi: real, now: int, ok: nat -> bool)
    ensures Replay(s.position, Step(s, msg, rsi, now, ok).orders) == Some(Step(s, msg, rsi, now, ok).state.position)
  {
    DecideFollowsMachine(s.position, Classify(msg), rsi);
  }

  /** Over any sequence of calls, the orders sent, filled one by one, lead from the first position to the last. */
  lemma {:induction false} RunFollowsMachine(s: State, calls: seq<Call>)
    ensures Replay(s.position, Run(s, calls).orders) == Some(Run(s, calls).state.position)
    decreases |calls|
  {
    if calls != [] {
      var c := calls[0];
      var first := Step(s, c.msg, c.rsi, c.now, c.transportOk);
      var rest := Run(first.state, calls[1..]);
      StepFollowsMachine(s, c.msg, c.rsi, c.now, c.transportOk);
      RunFollowsMachine(first.state, calls[1..]);
      assert Run(s, calls) == Outcome(rest.state, first.orders + rest.orders);
      ReplayAppend(s.position, first.orders, rest.orders);
    }
  }

  // ---------------------------------------------------------------------
  // Profit and trade time
  // ---------------------------------------------------------------------

  /**
    Profit moves by +250 for each buy and -150 for each sell that got
    through transport; the trade time becomes `now` exactly when at least
    one did.
   */
  lemma StepAccounts(s: State, msg: string, rsi: real, now: int, ok: nat -> bool)
    ensures var r := Step(s, msg, rsi, now, ok);
            var d := Delivered(r.orders, ok);
            && r.state.profit == s.profit + BuyPnL * (multiset(d)[Buy] as real) + SellPnL * (multiset(d)[Sell] as real)
            && r.state.lastTrade == if d == [] then s.lastTrade else At(now)
  {
    if !Blocked(s, now) {
      SettleAccounts(s, Decide(s.position, Classify(msg), rsi).orders, ok, now);
    }
  }

  /** The orders and the new position do not depend on whether the broker was reached. */
  lemma PositionIgnoresGateway(s: State, msg: string, rsi: real, now: int, ok1: nat -> bool, ok2: nat -> bool)
    ensures Step(s, msg, rsi, now, ok1).orders == Step(s, msg, rsi, now, ok2).orders
    ensures Step(s, msg, rsi, now, ok1).state.position == Step(s, msg, rsi, now, ok2).state.position
  {
  }

  /** When every attempt fails at transport, profit and trade time are left as they were. */
  lemma FailedTransportBooksNothing(s: State, msg: string, rsi: real, now: int, ok: nat -> bool)
    requires forall k :: ok(k) == false
    ensures Step(s, msg, rsi, now, ok).state.profit == s.profit
    ensures Step(s, msg, rsi, now, ok).state.lastTrade == s.lastTrade
  {
    StepAccounts(s, msg, rsi, now, ok);
  }

  // ---------------------------------------------------------------------
  // A worked scenario
  // ---------------------------------------------------------------------

  /** From start-up, BUY_SIGNAL at RSI 70 opens long for +250; EXIT_SIGNAL after the gap closes it with one sell, leaving +100. */
  lemma BuyThenExit(t0: int, t1: int, ok: nat -> bool)
    requires forall k :: ok(k)
    requires t1 - t0 >= MinTradeGap
    ensures var first := Step(Initial, "BUY_SIGNAL", 70.0, t0, ok);
            var second := Step(first.state, "EXIT_SIGNAL", 0.0, t1, ok);
            && first.orders == [Buy] && first.state == State(Long, 250.0, At(t0))
            && second.orders == [Sell] && second.state == State(Flat, 100.0, At(t1))
  {
    var first := Step(Initial, "BUY_SIGNAL", 70.0, t0, ok);
    assert Settle(Initial, [Buy], ok, t0) == Book(Initial, Buy, t0) by {
      SettleSnoc(Initial, [], Buy, ok, t0);
    }
    assert Settle(first.state, [Sell], ok, t1) == Book(first.state, Sell, t1) by {
      SettleSnoc(first.state, [], Sell, ok, t1);
    }
  }
}
