# Breakout strategy with adaptive lookback and trailing stop — Dafny model

This project models the daily decision step of a QuantConnect trading strategy,
`StockTradingAlgo.EveryMarketOpen`. The host calls it once per trading day, 20
minutes after the open. It runs in three stages:

1. **Lookback.** The volatility-adjusted lookback is clamped into
   `[floor, ceiling]` (10 and 30 in the deployed configuration).
2. **Breakout entry.** The threshold is the highest daily high of the lookback
   window, leaving out the most recent day. If the host reports no position and
   the close reaches the threshold, the strategy puts the whole portfolio into
   the asset. It records the threshold as `breakoutlvl` and as `highestPrice`.
3. **Trailing stop.** While the host reports a position:
   - If no order is open, a stop-market order is placed to sell the whole
     holding at `initialStopRisk * breakoutlvl` (0.98).
   - If the close is above `highestPrice` and `close * trailingStopRisk` (0.9)
     is above the initial stop, `highestPrice` becomes the close and the stop
     moves to `close * trailingStopRisk`.

Files:

- `breakout.dfy`, module `Breakout`: the step as values. It defines:
  - `Config`, `State`, `Observation` (what the host reports) and `Action` (what
    the step asks of the host);
  - the stage functions `ClampLookback`, `Enter`, `StopStage` and their request
    lists;
  - `Tick`, one whole invocation, and `Run`, a sequence of days;
  - the lemmas about one day and about runs of days.
- `strategy.dfy`, module `TradingAlgo`: the class `StockTradingAlgo`. Its fields
  are the strategy's long-lived attributes. `Step` updates them in place, one
  stage method per stage. Its postcondition says that the new fields and the
  returned requests are exactly `Tick` of the old fields. So every lemma about
  `Tick` holds of the object.
- `scenarios.dfy`, module `Scenarios`: concrete days under the deployed
  configuration, stated on `Tick` and replayed on the object in the verified
  method `Scenarios.ThreeDays`.

Modelling decisions:

- Prices are Dafny `real`, which is exact. The source uses IEEE doubles, so
  rounding in `0.98 * breakoutlvl` or `close * 0.9` is not modelled.
- The host is represented by inputs only. `Observation` carries:
  - the raw lookback;
  - the close;
  - the highs window;
  - whether an order is open;
  - the held quantity;
  - the `Invested` flag, which has two fields because the source reads it twice.
    The first read (line 54) happens before the entry order. The second (line
    62) happens after it, so on an entry day it can already report the filled
    position.
- The source has no `breakoutlvl`, `highestPrice` or `stopMarketTicket`
  attribute until it first assigns one. The flags `hasEntered` and `hasTicket`
  record whether that has happened. `Breakout.TickPre` rules out the two ways a
  day would read a missing attribute:
  - the host reports a position at line 62 but no breakout level was ever
    recorded;
  - an order is open but no stop ticket was ever placed, so the update at line
    78 or the plot at line 84 reads a missing ticket.
- The stop "only rises" in a precise sense. `Breakout.StopBounded` says the
  live stop is no higher than the larger of the initial stop and
  `highestPrice * trailingStopRisk`. A day that places a fresh stop restores
  this bound whatever came before. Starting from a bounded stop, a day without
  a re-entry keeps the bound, never lowers the stop, and an update raises it
  strictly. A re-entry day with an order
  still open and no placement can break the bound
  (`Scenarios.ReentryCanBreakBound`) and, when the ratchet fires, lower the
  stop (`Scenarios.ReentryCanLowerStop`). Once the bound is broken, a later
  held day can lower the stop as well (`Scenarios.UnboundedStopCanFall`),
  until a fresh placement restores the bound. A fresh placement is a new order, so
  it may sit below an earlier, already dead stop.
- The code never clears `breakoutlvl` or `highestPrice` when the position
  closes; they are only overwritten at the next entry (tradingalgo.py:54-58).
- One invocation can send a buy, a placement and an update, in that order
  (tradingalgo.py:54-78); `Scenarios.EntryScenario` shows a buy and a placement
  on the same day.

## Model

| member | source | states |
|---|---|---|
| `Breakout.MaxSeq` | tradingalgo.py:55 | the result is at least every element of the sequence and equals one of them |
| `Breakout.MaxSeqIsTheMaximum` | tradingalgo.py:55-57 | a value is an upper bound of the sequence and one of its elements exactly when it equals `MaxSeq`, so the maximum is unique |
| `Breakout.ClampLookback` | tradingalgo.py:45-48 | the clamped lookback lies in `[floor, ceiling]`; it is the raw value when that is in range, the ceiling when above, the floor when below |
| `Breakout.BreakoutThreshold` | tradingalgo.py:51-55 | the threshold bounds every high of the window except the most recent one and is one of those highs |
| `Breakout.EntryFires` | tradingalgo.py:54-55 | no contract of its own: the entry condition, no position reported and the close at least the threshold; `BuyExactlyOnBreakout` states it |
| `Breakout.Enter` | tradingalgo.py:54-58 | no contract of its own: on entry the breakout level and highest price become the threshold; `EntryRecordsThreshold` and `NoEntryKeepsBreakout` state it |
| `Breakout.EntryActions` | tradingalgo.py:56 | no contract of its own: the buy request on entry; `BuyExactlyOnBreakout` states it |
| `Breakout.PlacesStop` | tradingalgo.py:62-65 | no contract of its own: a position reported and no open order; `StopPlacedOnlyWithoutOpenOrders` states it |
| `Breakout.PlacementActions` | tradingalgo.py:66-68 | no contract of its own: the stop order for minus the held quantity at `initialStopRisk * breakoutlvl`; `StopPlacedOnlyWithoutOpenOrders` states it |
| `Breakout.Ratchets` | tradingalgo.py:62-72 | no contract of its own: the ratchet guard, a position reported, a close above the highest price and a trailing stop above the initial stop; `RatchetTightens` and `NoRatchetKeepsStop` state it |
| `Breakout.RatchetActions` | tradingalgo.py:76-78 | no contract of its own: the update of the ticket to `close * trailingStopRisk`; `RatchetTightens` states it |
| `Breakout.StopStage` | tradingalgo.py:62-78 | no contract of its own: placement records the ticket at the initial stop, the ratchet moves the highest price and the stop; `RatchetTightens`, `NoRatchetKeepsStop`, `HighestPriceNonDecreasing` and `TickStopNeverLoosens` state it |
| `Breakout.Tick` | tradingalgo.py:36-78 | no contract of its own: one whole invocation; `LookbackClamped`, `BuyExactlyOnBreakout`, `EntryRecordsThreshold`, `StopPlacedOnlyWithoutOpenOrders`, `ActionsInStageOrder`, `RatchetTightens`, `NoRatchetKeepsStop` and `TickStopNeverLoosens` state it |
| `Breakout.Run` | tradingalgo.py:36-78 | no contract of its own: one invocation per trading day in order; `HighestPriceNeverFallsWhileHeld` and `StopNeverLoosensWhileHeld` state it |
| `Breakout.LookbackClamped` | tradingalgo.py:42-48 | after a day, `floor <= lookback <= ceiling`; a raw lookback already in range is kept |
| `Breakout.BuyExactlyOnBreakout` | tradingalgo.py:54-56 | the buy is requested if and only if the host reports no position and the close is at least the threshold, so never while invested |
| `Breakout.NoEntryKeepsBreakout` | tradingalgo.py:54-58 | on a day without an entry the breakout level and the entered flag are unchanged |
| `Breakout.EntryRecordsThreshold` | tradingalgo.py:54-58 | on entry the breakout level is the window's maximum without its last day; the highest price equals the breakout level, or the close if the ratchet fires the same day |
| `Breakout.StopPlacedOnlyWithoutOpenOrders` | tradingalgo.py:62-68 | a stop is placed if and only if the host reports a position and no open order; its quantity is minus the held quantity and its price `initialStopRisk * breakoutlvl` |
| `Breakout.ActionsInStageOrder` | tradingalgo.py:54-78 | a day's requests come in the order buy, placement, update, with each kind at most once, so at most one stop is placed per day |
| `Breakout.HighestPriceNonDecreasing` | tradingalgo.py:62-74 | with a position at the start of the day, the highest price never falls, and it changes only to a close strictly above it |
| `Breakout.RatchetTightens` | tradingalgo.py:71-78 | the stop is updated if and only if the ratchet condition holds; the new stop is `close * trailingStopRisk` and becomes the stored stop; the highest price becomes the close; the new stop is strictly above the initial stop and strictly above the old highest price times `trailingStopRisk` |
| `Breakout.NoRatchetKeepsStop` | tradingalgo.py:62-78 | without the ratchet the highest price is the one after entry; the stop price is the newly placed one if a stop was placed, otherwise it is unchanged |
| `Breakout.TickKeepsHighAboveBreakout` | tradingalgo.py:56-58 | once entered, `highestPrice >= breakoutlvl`, and every day keeps this |
| `Breakout.TickStopNeverLoosens` | tradingalgo.py:62-78 | a day that places a fresh stop restores the bound (the initial stop or the trailing stop of the highest price) whatever came before; starting from a bounded stop (`StopBounded`), a day without a re-entry keeps the stop bounded by the initial and trailing stops, without a fresh placement never lowers the stop, and an update raises it strictly |
| `Breakout.HighestPriceNeverFallsWhileHeld` | tradingalgo.py:36-78 | over any run of days that all start with a position, the highest price never falls |
| `Breakout.StopNeverLoosensWhileHeld` | tradingalgo.py:62-78 | starting from a bounded stop (`StopBounded`), over any run of days that all start with a position and an open order, the stop stays bounded and never falls |
| `TradingAlgo.StockTradingAlgo.constructor` | tradingalgo.py:17-25 | a strategy with the given configuration, with no breakout level and no stop order yet |
| `TradingAlgo.StockTradingAlgo.Initialize` | tradingalgo.py:17-25 | lookback 20, ceiling 30, floor 10, stop factors 0.98 and 0.9, and nothing entered yet |
| `TradingAlgo.StockTradingAlgo.Step` | tradingalgo.py:36-78 | the new fields and the requests are exactly `Breakout.Tick` of the old fields; the configuration is unchanged; the lookback is in range; while invested there is no buy and the highest price does not fall |
| `TradingAlgo.StockTradingAlgo.SetLookback` | tradingalgo.py:42-48 | only the lookback changes, and it becomes the clamp of the raw value; the invariant `highestPrice >= breakoutlvl` is kept |
| `TradingAlgo.StockTradingAlgo.EnterOnBreakout` | tradingalgo.py:53-58 | the fields change as stage 2 prescribes, and the buy is requested exactly on a breakout; the invariant `highestPrice >= breakoutlvl` is kept |
| `TradingAlgo.StockTradingAlgo.ManageStopOrder` | tradingalgo.py:61-78 | the fields change as stage 3 prescribes, and the placement and update requests are the ones it prescribes; the invariant `highestPrice >= breakoutlvl` is kept |
| `Scenarios.BreakoutHighsThreshold` | tradingalgo.py:55 | the example window's threshold is 104 |
| `Scenarios.LookbackScenarios` | tradingalgo.py:45-48 | 35 is clamped to 30, 3 to 10, and 28 is kept |
| `Scenarios.EntryScenario` | tradingalgo.py:54-68 | flat with close 105 over a threshold of 104: buy, breakout level and highest price 104, stop placed at 101.92 |
| `Scenarios.GuardScenario` | tradingalgo.py:71-72 | close 110 with breakout level 104: since `0.98 * 104 < 0.9 * 110` is false, nothing changes |
| `Scenarios.RatchetScenario` | tradingalgo.py:71-78 | close 120 with breakout level 104: the highest price becomes 120 and the stop moves to 108 |
| `Scenarios.ReentryCanLowerStop` | tradingalgo.py:54-78 | a re-entry at 130 while an order is open and the old stop is 180: no placement, and the old ticket is updated down to 117 |
| `Scenarios.ReentryCanBreakBound` | tradingalgo.py:54-78 | a re-entry at 105 while an order is open with stop 180 and highest price 200: the breakout level becomes 104, no placement and no ratchet, so the stop of 180 is above both 0.98 * 104 and 0.9 * 104 |
| `Scenarios.UnboundedStopCanFall` | tradingalgo.py:62-78 | from the unbounded stop a re-entry left (180 with level 104), a held day at close 150 updates the old ticket down to 135; over the two days from a bounded stop the stop ends at 135, below 180 |
| `Scenarios.ThreeDays` | tradingalgo.py:36-78 | on a freshly initialised object, the entry, guard and ratchet days send exactly the buy and placement at 101.92, nothing, and the update to 108, leaving the stop at 108 |

## Left out

- Volatility-adjusted lookback (tradingalgo.py:38-42): the standard deviation of
  two 30-day windows of closes, their relative change and the float `round` are
  floating-point numerics with a square root. A zero `todayvol` divides by zero
  and makes `round` raise. The stage is an input: `rawLookback` is the value
  before clamping.
- History queries (lines 38 and 51): the highs window is an input, and its
  length is not tied to the lookback, since the source uses whatever window
  arrives. When the host reports no position, a window of fewer than 2 highs
  makes the maximum at line 55 raise `ValueError`; `Breakout.TickPre` excludes
  that day. When invested, the `and` at line 54 skips the maximum, so any
  window is accepted.
- Host calls as actions: `SetHoldings` (line 56), `StopMarketOrder` (lines
  66-68) and the ticket `Update` (lines 76-78) become the `Buy`, `PlaceStop` and
  `UpdateStop` requests. Their fills, rejections and asynchronous order state
  belong to the host.
- `GetOpenOrders`, `Invested` and `Portfolio[...].Quantity` are plain inputs.
  This includes the stop fill that closes the position, which the step sees
  only through `Invested`.
- Host configuration in `Initialize`: cash, dates, adding the equity and the
  daily schedule (lines 7-14 and 28).
- Diagnostics: price plotting in `OnData` (lines 31-33), `Debug` (line 81) and
  plotting the stop price (line 84). They have no effect on behaviour.
- Days that would raise an `AttributeError` are excluded by `Breakout.TickPre`:
  - invested at line 62 with no breakout level ever recorded;
  - an open order with no stop ticket ever placed.
- IEEE double rounding of prices and products: prices are exact reals.
- Breakout.TickStopNeverLoosens: does not cover a re-entry day with an order
  still open and no fresh placement, nor any later day that starts from the
  unbounded stop such a day can leave, until a fresh placement restores the
  bound. On a re-entry day, when the ratchet fires, the source updates the old
  ticket to `close * trailingStopRisk`, which the guard compares with the new
  initial stop `initialStopRisk * breakoutlvl`. That price can be below the
  old stop (`Scenarios.ReentryCanLowerStop`: 180 down to 117). From the state
  `Scenarios.ReentryCanBreakBound` leaves, a held day at close 150 updates the
  old ticket from 180 down to 135 (`Scenarios.UnboundedStopCanFall`). So "the
  stop never falls" does not hold on those days.
- Breakout.StopNeverLoosensWhileHeld: covers only runs that start from a
  bounded stop, for the same reason.
