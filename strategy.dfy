/** The strategy object: its long-lived fields and the once-a-day decision step
    that updates them in place. Each `Step` is proved to do exactly what
    `Breakout.Tick` describes, so every property proved of `Tick` holds of the
    fields after a call. */
module TradingAlgo {
  import opened Breakout

  /** The configuration the strategy is initialised with. */
  const InitialLookback: int := 20
  const Ceiling: int := 30
  const Floor: int := 10
  const InitialStopRisk: real := 0.98
  const TrailingStopRisk: real := 0.9

  class StockTradingAlgo {
    var lookback: int
    var floor: int
    var ceiling: int
    var initialStopRisk: real
    var trailingStopRisk: real
    var hasEntered: bool      // breakoutlvl and highestPrice have been assigned
    var breakoutlvl: real
    var highestPrice: real
    var hasTicket: bool       // a stop order has been placed
    var stopPrice: real       // the stop price last requested for that order

    function Cfg(): Config
      reads this
    {
      Config(floor, ceiling, initialStopRisk, trailingStopRisk)
    }

    function Snapshot(): State
      reads this
    {
      State(lookback, hasEntered, breakoutlvl, highestPrice, hasTicket, stopPrice)
    }

    ghost predicate Valid()
      reads this
    {
      ValidConfig(Cfg()) && HighAboveBreakout(Snapshot())
    }

    /** A strategy with the given configuration: flat, no breakout level and
        no stop order yet. */
    constructor (lookback: int, ceiling: int, floor: int, initialStopRisk: real, trailingStopRisk: real)
      requires ValidConfig(Config(floor, ceiling, initialStopRisk, trailingStopRisk))
      ensures Valid()
      ensures Cfg() == Config(floor, ceiling, initialStopRisk, trailingStopRisk)
      ensures this.lookback == lookback && !hasEntered && !hasTicket
    {
      this.lookback := lookback;
      this.ceiling := ceiling;
      this.floor := floor;
      this.initialStopRisk := initialStopRisk;
      this.trailingStopRisk := trailingStopRisk;
      hasEntered := false;
      breakoutlvl := 0.0;
      highestPrice := 0.0;
      hasTicket := false;
      stopPrice := 0.0;
    }

    /** The strategy as the source initialises it. */
    constructor Initialize()
      ensures Valid()
      ensures Cfg() == Config(Floor, Ceiling, InitialStopRisk, TrailingStopRisk)
      ensures lookback == InitialLookback && !hasEntered && !hasTicket
    {
      lookback := InitialLookback;
      ceiling := Ceiling;
      floor := Floor;
      initialStopRisk := InitialStopRisk;
      trailingStopRisk := TrailingStopRisk;
      hasEntered := false;
      breakoutlvl := 0.0;
      highestPrice := 0.0;
      hasTicket := false;
      stopPrice := 0.0;
    }

    /** One market-open invocation. `rawLookback` is the volatility-adjusted
        lookback before clamping; `highs` is the window of daily highs the host
        returns for the clamped lookback; the other parameters are what the host
        reports at the point the source asks. Returns the requests sent to the
        host, in order. */
    method Step(rawLookback: int, investedAtEntry: bool, close: real, highs: seq<real>,
                investedAtStop: bool, hasOpenOrders: bool, quantity: int)
      returns (actions: seq<Action>)
      requires Valid()
      requires TickPre(Cfg(), Snapshot(),
                       Observation(rawLookback, investedAtEntry, close, highs, investedAtStop, hasOpenOrders, quantity))
      modifies this
      ensures Valid()
      ensures Cfg() == old(Cfg())
      ensures var out := Tick(old(Cfg()), old(Snapshot()),
                              Observation(rawLookback, investedAtEntry, close, highs, investedAtStop, hasOpenOrders, quantity));
        Snapshot() == out.state && actions == out.actions
      ensures floor <= lookback <= ceiling
      ensures investedAtEntry ==> Buy !in actions && highestPrice >= old(highestPrice)
    {
      var o := Observation(rawLookback, investedAtEntry, close, highs, investedAtStop, hasOpenOrders, quantity);
      ghost var c, s := Cfg(), Snapshot();
      SetLookback(rawLookback);
      ghost var s1 := Snapshot();
      assert s1 == s.(lookback := ClampLookback(rawLookback, c.floor, c.ceiling));
      var entry := EnterOnBreakout(o);
      ghost var e := Snapshot();
      assert e == EnterStage(c, s, o);
      var stops := ManageStopOrder(o);
      actions := entry + stops;
      assert actions == EntryActions(o) + PlacementActions(c, e, o) + RatchetActions(c, e, o);
      TickKeepsHighAboveBreakout(c, s, o);
      if investedAtEntry {
        HighestPriceNonDecreasing(c, s, o);
        BuyExactlyOnBreakout(c, s, o);
      }
    }

    /** Stage 1: the new lookback, clamped into [floor, ceiling]. */
    method SetLookback(rawLookback: int)
      requires Valid()
      modifies this
      ensures Valid() && Cfg() == old(Cfg())
      ensures Snapshot() == old(Snapshot()).(lookback := ClampLookback(rawLookback, floor, ceiling))
    {
      lookback := rawLookback;
      if lookback > ceiling {
        lookback := ceiling;
      } else if lookback < floor {
        lookback := floor;
      }
    }

    /** Stage 2: go long on a breakout when the host reports no position. */
    method EnterOnBreakout(o: Observation) returns (actions: seq<Action>)
      requires o.investedAtEntry || |o.highs| >= 2
      requires Valid()
      modifies this
      ensures Valid() && Cfg() == old(Cfg())
      ensures Snapshot() == Enter(old(Snapshot()), o)
      ensures actions == EntryActions(o)
    {
      actions := [];
      if !o.investedAtEntry && o.close >= BreakoutThreshold(o.highs) {
        actions := [Buy];
        breakoutlvl := BreakoutThreshold(o.highs);
        highestPrice := breakoutlvl;
        hasEntered := true;
      }
    }

    /** Stage 3: while the host reports a position, place a stop if no order is
        open, then ratchet it behind a new high close. */
    method ManageStopOrder(o: Observation) returns (actions: seq<Action>)
      requires Valid()
      modifies this
      ensures Valid() && Cfg() == old(Cfg())
      ensures Snapshot() == StopStage(old(Cfg()), old(Snapshot()), o)
      ensures actions == PlacementActions(old(Cfg()), old(Snapshot()), o) + RatchetActions(old(Cfg()), old(Snapshot()), o)
    {
      ghost var c, e := Cfg(), Snapshot();
      actions := [];
      if o.investedAtStop {
        if !o.hasOpenOrders {
          actions := [PlaceStop(-o.quantity, initialStopRisk * breakoutlvl)];
          hasTicket := true;
          stopPrice := initialStopRisk * breakoutlvl;
          assert actions[0] == PlacementActions(c, e, o)[0];
        }
        if o.close > highestPrice && initialStopRisk * breakoutlvl < o.close * trailingStopRisk {
          highestPrice := o.close;
          var newStop := o.close * trailingStopRisk;
          actions := actions + [UpdateStop(newStop)];
          stopPrice := newStop;
          assert actions[|actions| - 1] == RatchetActions(c, e, o)[0];
        }
      }
      assert actions == PlacementActions(c, e, o) + RatchetActions(c, e, o);
    }
  }
}
