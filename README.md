# Signal-decision engine of the webhook trading bot

The bot receives trading-signal webhooks: a message (`BUY_SIGNAL`,
`SELL_SIGNAL`, `EXIT_SIGNAL` or anything else) with an RSI reading. It
sends market orders to a brokerage API. Three package variables hold its
state:

- the open position: flat, long or short (the source's `""`, `"long"` and `"short"`);
- the running mock PnL;
- the time of the last trade that was booked.

One signal is handled in three stages:

1. Two guards stop everything. One is a throttle: fewer than 180 seconds
   since the last booked trade. The other is a loss halt: PnL at or below -800.
2. A switch on the message. A buy entry needs RSI strictly above 62.90 and
   a sell entry needs RSI strictly below 37.10. A reversal is an exit order
   followed by an entry order. An exit closes whatever is open.
3. An auto-exit. It looks at the position the switch left and at the same
   RSI. It closes a long when RSI is below 55 and a short when RSI is above 45.

Every order that gets through transport adds a fixed mock PnL: +250 for a
buy, -150 for a sell. It also stamps the trade time.

The project has three files:

- `decision.dfy`, module `Decision`: the values, the constants, and the
  specification of one call (`Step`) and of a sequence of calls (`Run`), as
  functions.
- `engine.dfy`, module `Bot`: class `Engine`. Its fields are the three
  package variables. `PlaceOrder`, `ExitPosition` and `HandleSignal` change
  them step by step, as the source does, and each is proved to end in the
  state the `Decision` functions give.
- `properties.dfy`, module `DecisionProperties`: the guarantees, proved
  about `Step` and `Run`.

Modelling choices:

- The gateway outcome is an input. `transportOk(k)` says whether the k-th
  order attempted in the call (counting from 0) got through. Failing to
  build or send the request returns before anything is booked. Any HTTP
  response counts as a success, because the status code is never checked.
- Time is in whole seconds, and one `now` is given per call. `LastTrade.Never`
  stands for Go's zero `time.Time` that the process starts with. Against
  that value the throttle never fires.
- RSI, the thresholds and PnL are exact reals.

Three facts about the program that the model keeps:

- PnL and the trade time are booked only when the request got through
  transport (main.go:62-74, 79-84). The HTTP status is ignored.
- A reversal sends two orders.
- With these thresholds the auto-exit never closes a position opened in
  the same call, because RSI above 62.90 is never below 55 and RSI below
  37.10 is never above 45. So a call sends at most two orders
  (`EntrySurvivesAutoExit`, `AtMostTwoOrders`).

## Model

| member | source | states |
|---|---|---|
| `Decision.Classify` | main.go:112-135 | A message is a buy, sell or exit signal exactly when it equals `BUY_SIGNAL`, `SELL_SIGNAL` or `EXIT_SIGNAL`; anything else is unrecognised |
| `Decision.Delivered` | main.go:62-74 | The orders that got through transport are a sub-multiset of those attempted; all of them when every attempt got through, none when every attempt failed |
| `Decision.PnL` | main.go:79-83 | The mock PnL of a list of orders is 250 times its buys minus 150 times its sells |
| `Decision.Settle` | main.go:79-84 | Booking orders never changes the position |
| `Decision.SettleAccounts` | main.go:62-84 | Profit grows by the mock PnL of exactly the delivered orders; the trade time becomes `now` iff at least one order was delivered, and is otherwise unchanged |
| `Bot.Engine.constructor` | main.go:45-48 | The engine starts flat, with zero PnL and no trade yet |
| `Bot.Engine.PlaceOrder` | main.go:51-86 | A delivered order adds +250 (buy) or -150 (sell) and stamps the time; an undelivered one changes nothing; the position is never touched |
| `Bot.Engine.ExitPosition` | main.go:88-96 | Sends the one order that closes the open position (sell from long, buy from short, none from flat), books it if delivered, and always ends flat |
| `Bot.Engine.Send` | main.go:114-130 | One `placeOrder` call inside the handler: the order is appended to those sent in this call and booked iff its attempt got through |
| `Bot.Engine.Close` | main.go:117-144 | One `exitPosition` call inside the handler: the closing order is appended to those sent in this call and booked iff its attempt got through, and the position ends flat |
| `Bot.Engine.HandleSignal` | main.go:98-145 | The new fields and the orders sent are exactly what `Decision.Step` gives for the old fields, the message, the RSI, the clock and the transport outcomes |
| `DecisionProperties.ThrottleBlocks` | main.go:102-105 | Less than 180 s after the last booked trade, no order is sent and the state is unchanged |
| `DecisionProperties.ThrottleReleases` | main.go:102-145 | With no trade yet, or 180 s or more after the last one, and PnL above -800, the call sends exactly the orders of the switch and auto-exit and ends in their position |
| `DecisionProperties.FirstTradeNotThrottled` | main.go:45-145 | From start-up (zero trade time), the first signal is decided on the signal alone, at any clock reading |
| `DecisionProperties.HaltBlocks` | main.go:107-110 | With PnL at or below -800, no order is sent and the state is unchanged, for any message and RSI |
| `DecisionProperties.HaltPersists` | main.go:107-110 | Once PnL is at or below -800, every later sequence of calls sends nothing and changes nothing |
| `DecisionProperties.TradeThrottlesNext` | main.go:84 | A call that delivered at least one order throttles every call made less than 180 s after it |
| `DecisionProperties.ExitFlattens` | main.go:131-132 | When neither the throttle nor the loss halt blocks the call, `EXIT_SIGNAL` ends flat, sending one sell from long, one buy from short and nothing from flat, whatever the RSI |
| `DecisionProperties.BuyEntryGate` | main.go:113-116 | When neither the throttle nor the loss halt blocks the call, from flat `BUY_SIGNAL` sends one buy and ends long if RSI > 62.90; at or below 62.90 it sends nothing and changes nothing |
| `DecisionProperties.SellEntryGate` | main.go:122-125 | When neither the throttle nor the loss halt blocks the call, from flat `SELL_SIGNAL` sends one sell and ends short if RSI < 37.10; at or above 37.10 it sends nothing and changes nothing |
| `DecisionProperties.BuyReversal` | main.go:117-121 | When neither the throttle nor the loss halt blocks the call, from short `BUY_SIGNAL` with RSI > 62.90 sends `[buy, buy]` (cover, then open) and ends long |
| `DecisionProperties.SellReversal` | main.go:126-130 | When neither the throttle nor the loss halt blocks the call, from long `SELL_SIGNAL` with RSI < 37.10 sends `[sell, sell]` (close, then open) and ends short |
| `DecisionProperties.UnrecognisedOnlyAutoExits` | main.go:133-144 | When neither the throttle nor the loss halt blocks the call, an unrecognised message sends nothing itself; the auto-exit still closes a long with a sell when RSI < 55 and a short with a buy when RSI > 45; otherwise nothing changes |
| `DecisionProperties.EntrySurvivesAutoExit` | main.go:137-144 | A position the switch just opened is never closed by the auto-exit in the same call |
| `DecisionProperties.AtMostTwoOrders` | main.go:112-144 | No call sends more than two orders |
| `DecisionProperties.ClosingFollowsMachine` | main.go:88-96 | The closing order takes any position to flat in one fill |
| `DecisionProperties.DispatchFollowsMachine` | main.go:112-135 | The orders of the switch, filled one at a time, open only from flat and close only the opposite position, and lead to the position the switch sets |
| `DecisionProperties.OverlayFollowsMachine` | main.go:137-144 | The same for the auto-exit |
| `DecisionProperties.DecideFollowsMachine` | main.go:112-144 | The same for the switch followed by the auto-exit: a reversal goes through flat, never straight from long to short or back |
| `DecisionProperties.StepFollowsMachine` | main.go:98-145 | The same for a whole call, guards included |
| `DecisionProperties.RunFollowsMachine` | main.go:98-145 | Over any sequence of calls, all orders sent, filled one at a time, lead from the first position to the last without ever adding to an open position |
| `DecisionProperties.ReplayAppend` | main.go:88-130 | Filling two batches of orders is filling the first, then the second from where the first left the position |
| `DecisionProperties.StepAccounts` | main.go:79-84 | One call moves PnL by +250 per delivered buy and -150 per delivered sell, and sets the trade time to `now` iff some order was delivered |
| `DecisionProperties.PositionIgnoresGateway` | main.go:95-129 | The orders sent and the new position do not depend on whether any order reached the broker |
| `DecisionProperties.FailedTransportBooksNothing` | main.go:63-73 | When every attempt fails at transport, PnL and trade time are unchanged even though the position may move |
| `DecisionProperties.BuyThenExit` | main.go:79-144 | From start-up, a buy at RSI 70 gives long with PnL 250; an exit at least 180 s later gives one sell, flat, PnL 100 |

## Left out

- Building the order request is not modelled: the JSON body with account, symbol `/NQ`, quantity 10, `market` and `GTC`, and the bearer header (main.go:52-68). An order is modelled by its side alone.
- The HTTP call and the response body are not modelled (main.go:70-77). They are network I/O. Their only effect on the state is whether the call got through, and that is the `transportOk` input.
- The log and console output is not modelled: every `log.Println`, `log.Printf` and `fmt.Println` line of `placeOrder`, `exitPosition` and `handleSignal`.
- `webhookHandler` is not modelled (main.go:147-155): JSON decoding and the 400 reply to a malformed body. Neither changes the state.
- `main` is not modelled (main.go:157-165): the HTTP listener and the default port. This is I/O.
- The mutex is not modelled (main.go:99-100). One call is taken as atomic, which is what the lock guarantees.
- Reading the API key and the account from the environment is not modelled (main.go:43-44). They only go into the request.
- The unused `VWAP` and `Price` fields of a signal are not modelled (main.go:18-19).
- IEEE-754 double rounding of RSI is not modelled. RSI and the thresholds are exact reals; as doubles, 62.90 and 37.10 are not exact, so a reading very close to a threshold may compare differently. PnL is not affected: it only ever adds 250 or -150, so every running total is a multiple of 50 and exact as a double.
- The clock is modelled as whole seconds with one `now` per call; the source compares fractional seconds. More importantly, the source stamps the trade time with a fresh `time.Now()` after `http.DefaultClient.Do` returns (main.go:70, 84), and that client has no timeout, so the stamp can be arbitrarily later than the time of the throttle check. The model stamps with the call's `now`. Example: if the broker answers after 60 s, a call 200 s after the first is throttled by the source (140 s since the stamp) but not by the model.
