/**
  The signal-decision engine of the trading bot, as values.

  One webhook signal (a message and an RSI reading) is turned into the
  order sides the bot sends to the brokerage and the new trading state.
  This module is the specification: the class in module Bot changes its
  fields step by step and is proved to end where `Step` says.
 */
module Decision {

  // ---------------------------------------------------------------------
  // Configuration (the package constants of main.go)
  // ---------------------------------------------------------------------

  /** Minimum number of seconds between two trades. */
  const MinTradeGap: int := 180
  /** Trading halts once the running PnL is at or below this amount. */
  const MaxDailyLoss: real := -800.0
  /** An open long is closed when RSI falls below this; an open short when RSI rises above 100 minus this. */
  const ExitRSI: real := 55.0
  /** A buy entry needs RSI strictly above this. */
  const EntryRSIBuy: real := 62.90
  /** A sell entry needs RSI strictly below this. */
  const EntryRSISell: real := 37.10
  /** Mock profit booked for a buy order that reached the broker. */
  const BuyPnL: real := 250.0
  /** Mock profit booked for a sell order that reached the broker. */
  const SellPnL: real := -150.0

  // ---------------------------------------------------------------------
  // Values
  // ---------------------------------------------------------------------

  /** The open exposure: the source's "", "long" and "short". */
  datatype Position = Flat | Long | Short

  /** The side of an order sent to the broker: "buy" or "sell". */
  datatype Side = Buy | Sell

  /** What an incoming message asks for. */
  datatype SignalKind = BuySignal | SellSignal | ExitSignal | Unrecognised

  /** Time of the last booked trade, in seconds; `Never` is the zero time the process starts with. */
  datatype LastTrade = Never | At(seconds: int)

  /** The three package-level variables the engine reads and writes. */
  datatype State = State(position: Position, profit: real, lastTrade: LastTrade)

  /** The orders a decision sends, in order, and the position it leaves. */
  datatype Move = Move(orders: seq<Side>, next: Position)

  /** The result of handling one signal: the new state and the orders attempted. */
  datatype Outcome = Outcome(state: State, orders: seq<Side>)

  /** One call of the signal handler: its message, its RSI, the clock, and which order attempts got through to the broker. */
  datatype Call = Call(msg: string, rsi: real, now: int, transportOk: nat -> bool)

  /** The state the process starts in. */
  const Initial: State := State(Flat, 0.0, Never)

  // ---------------------------------------------------------------------
  // Message classification
  // ---------------------------------------------------------------------

  /** The switch on the message text: exact, case-sensitive matches only. */
  function Classify(msg: string): (k: SignalKind)
    ensures k == BuySignal <==> msg == "BUY_SIGNAL"
    ensures k == SellSignal <==> msg == "SELL_SIGNAL"
    ensures k == ExitSignal <==> msg == "EXIT_SIGNAL"
  {
    if msg == "BUY_SIGNAL" then BuySignal
    else if msg == "SELL_SIGNAL" then SellSignal
    else if msg == "EXIT_SIGNAL" then ExitSignal
    else Unrecognised
  }

  // ---------------------------------------------------------------------
  // Guards
  // ---------------------------------------------------------------------

  /** Fewer than MinTradeGap seconds have passed since the last booked trade. */
  predicate Throttled(last: LastTrade, now: int)
  {
    match last
    case Never => false
    case At(t) => now - t < MinTradeGap
  }

  /** The running PnL has reached the daily loss limit. */
  predicate Halted(profit: real)
  {
    profit <= MaxDailyLoss
  }

  /** Either guard stops the call before any decision is made. */
  predicate Blocked(s: State, now: int)
  {
    Throttled(s.lastTrade, now) || Halted(s.profit)
  }

  // ---------------------------------------------------------------------
  // Decisions on the position alone
  // ---------------------------------------------------------------------

  /** The order that closes the open position, if there is one. */
  function Closing(p: Position): seq<Side>
  {
    match p
    case Flat => []
    case Long => [Sell]
    case Short => [Buy]
  }

  /** The switch on the signal kind: entries gated by RSI, reversals as close-then-open, exit unconditional. */
  function Dispatch(p: Position, kind: SignalKind, rsi: real): Move
  {
    match kind
    case BuySignal =>
      if p == Flat && rsi > EntryRSIBuy then Move([Buy], Long)
      else if p == Short && rsi > EntryRSIBuy then Move(Closing(p) + [Buy], Long)
      else Move([], p)
    case SellSignal =>
      if p == Flat && rsi < EntryRSISell then Move([Sell], Short)
      else if p == Long && rsi < EntryRSISell then Move(Closing(p) + [Sell], Short)
      else Move([], p)
    case ExitSignal => Move(Closing(p), Flat)
    case Unrecognised => Move([], p)
  }

  /** The auto-exit that follows the switch, on the position the switch left and the same RSI. */
  function Overlay(p: Position, rsi: real): Move
  {
    if p == Long && rsi < ExitRSI then Move(Closing(p), Flat)
    else if p == Short && rsi > 100.0 - ExitRSI then Move(Closing(p), Flat)
    else Move([], p)
  }

  /** The switch followed by the auto-exit. */
  function Decide(p: Position, kind: SignalKind, rsi: real): Move
  {
    var d := Dispatch(p, kind, rsi);
    var o := Overlay(d.next, rsi);
    Move(d.orders + o.orders, o.next)
  }

  // ---------------------------------------------------------------------
  // Booking orders
  // ---------------------------------------------------------------------

  /** The fixed mock profit of one order that reached the broker. */
  function MockPnL(side: Side): real
  {
    if side == Sell then SellPnL else BuyPnL
  }

  /** What a delivered order does to the state: add its mock PnL, stamp the trade time. */
  function Book(s: State, side: Side, now: int): State
  {
    s.(profit := s.profit + MockPnL(side), lastTrade := At(now))
  }

  /** The orders, in order, whose attempt (numbered from 0 within the call) got through transport. */
  function Delivered(orders: seq<Side>, ok: nat -> bool): (d: seq<Side>)
    ensures |d| <= |orders|
    ensures multiset(d) <= multiset(orders)
    ensures (forall k :: 0 <= k < |orders| ==> ok(k)) ==> d == orders
    ensures (forall k :: 0 <= k < |orders| ==> !ok(k)) ==> d == []
  {
    if orders == [] then []
    else
      var n := |orders| - 1;
      assert orders == orders[..n] + [orders[n]];
      Delivered(orders[..n], ok) + (if ok(n) then [orders[n]] else [])
  }

  /** The sum of the mock PnL of the given orders. */
  function PnL(orders: seq<Side>): (r: real)
    ensures r == BuyPnL * (multiset(orders)[Buy] as real) + SellPnL * (multiset(orders)[Sell] as real)
  {
    if orders == [] then 0.0
    else
      var n := |orders| - 1;
      assert orders == orders[..n] + [orders[n]];
      PnL(orders[..n]) + MockPnL(orders[n])
  }

  /** The state after attempting the orders one by one, booking those that got through. */
  function Settle(s: State, orders: seq<Side>, ok: nat -> bool, now: int): (r: State)
    ensures r.position == s.position
  {
    if orders == [] then s
    else
      var n := |orders| - 1;
      var before := Settle(s, orders[..n], ok, now);
      if ok(n) then Book(before, orders[n], now) else before
  }

  /** Settling adds the mock PnL of exactly the delivered orders, and stamps the time iff any order got through. */
  lemma {:induction false} SettleAccounts(s: State, orders: seq<Side>, ok: nat -> bool, now: int)
    ensures Settle(s, orders, ok, now).profit == s.profit + PnL(Delivered(orders, ok))
    ensures Settle(s, orders, ok, now).lastTrade == if Delivered(orders, ok) == [] then s.lastTrade else At(now)
  {
    if orders != [] {
      var n := |orders| - 1;
      var d := Delivered(orders[..n], ok);
      SettleAccounts(s, orders[..n], ok, now);
      assert (d + [orders[n]])[..|d|] == d;
    }
  }

  /** Attempting one more order books it on top of the orders before it when, and only when, it got through. */
  lemma SettleSnoc(s: State, orders: seq<Side>, side: Side, ok: nat -> bool, now: int)
    ensures Settle(s, orders + [side], ok, now)
         == if ok(|orders|) then Book(Settle(s, orders, ok, now), side, now) else Settle(s, orders, ok, now)
  {
    assert (orders + [side])[..|orders|] == orders;
  }

  // ---------------------------------------------------------------------
  // One call, and a sequence of calls
  // ---------------------------------------------------------------------

  /** One call of the signal handler: guards, then switch and auto-exit, booking each order as it is attempted. */
  function Step(s: State, msg: string, rsi: real, now: int, ok: nat -> bool): Outcome
  {
    if Blocked(s, now) then Outcome(s, [])
    else
      var m := Decide(s.position, Classify(msg), rsi);
      Outcome(Settle(s, m.orders, ok, now).(position := m.next), m.orders)
  }

  /** Calls handled one after the other; the orders of all of them, in order. */
  function Run(s: State, calls: seq<Call>): Outcome
    decreases |calls|
  {
    if calls == [] then Outcome(s, [])
    else
      var c := calls[0];
      var first := Step(s, c.msg, c.rsi, c.now, c.transportOk);
      var rest := Run(first.state, calls[1..]);
      Outcome(rest.state, first.orders + rest.orders)
  }
}
