/** Worked days of the strategy under the configuration it is initialised with:
    a breakout entry with its initial stop, a new high whose trailing stop would
    sit below the initial stop (no update), and a higher close that moves the
    stop. */
module Scenarios {
  import opened Breakout
  import opened TradingAlgo

  function SourceConfig(): Config {
    Config(Floor, Ceiling, InitialStopRisk, TrailingStopRisk)
  }

  /** Ten daily highs whose highest, the last day excluded, is 104. */
  function BreakoutHighs(): seq<real> {
    [95.0, 96.0, 97.0, 98.0, 99.0, 100.0, 101.0, 102.0, 104.0, 103.0]
  }

  lemma BreakoutHighsThreshold()
    ensures BreakoutThreshold(BreakoutHighs()) == 104.0
  {
    var p := BreakoutHighs()[..9];
    assert p[8] == 104.0;
    MaxSeqIsTheMaximum(p, 104.0);
  }

  /** Too long a lookback is cut to the ceiling, too short a one raised to the
      floor, one in range kept. */
  lemma LookbackScenarios()
    ensures ClampLookback(35, Floor, Ceiling) == 30
    ensures ClampLookback(3, Floor, Ceiling) == 10
    ensures ClampLookback(28, Floor, Ceiling) == 28
  {
  }

  /** Flat, close 105 against a threshold of 104: the strategy buys, records
      104 as breakout level and highest price, and (the buy having filled)
      places a stop for the whole holding at 0.98 * 104 = 101.92. */
  lemma EntryScenario()
    ensures Tick(SourceConfig(), State(20, false, 0.0, 0.0, false, 0.0),
                 Observation(10, false, 105.0, BreakoutHighs(), true, false, 100))
            == Outcome(State(10, true, 104.0, 104.0, true, 101.92), [Buy, PlaceStop(-100, 101.92)])
  {
    BreakoutHighsThreshold();
  }

  /** Long from 104, close 110: the trailing stop 0.9 * 110 = 99 would sit below
      the initial stop 101.92, so nothing changes but the lookback. */
  lemma GuardScenario()
    ensures Tick(SourceConfig(), State(10, true, 104.0, 104.0, true, 101.92),
                 Observation(10, true, 110.0, BreakoutHighs(), true, true, 100))
            == Outcome(State(10, true, 104.0, 104.0, true, 101.92), [])
  {
  }

  /** Long from 104, close 120: the trailing stop 0.9 * 120 = 108 is above the
      initial stop, so the highest price becomes 120 and the stop moves to 108. */
  lemma RatchetScenario()
    ensures Tick(SourceConfig(), State(10, true, 104.0, 104.0, true, 101.92),
                 Observation(10, true, 120.0, BreakoutHighs(), true, true, 100))
            == Outcome(State(10, true, 104.0, 120.0, true, 108.0), [UpdateStop(108.0)])
  {
  }

  /** A re-entry while an order is still open: the old ticket's stop was 180,
      the strategy buys again at 130 over a threshold of 104, places nothing,
      and ratchets the old ticket down to 0.9 * 130 = 117. */
  lemma ReentryCanLowerStop()
    ensures var s := State(10, true, 100.0, 200.0, true, 180.0);
      var o := Observation(10, false, 130.0, BreakoutHighs(), true, true, 100);
      TickPre(SourceConfig(), s, o) && StopBounded(SourceConfig(), s)
      && Tick(SourceConfig(), s, o) == Outcome(State(10, true, 104.0, 130.0, true, 117.0), [Buy, UpdateStop(117.0)])
      && Tick(SourceConfig(), s, o).state.stopPrice < s.stopPrice
  {
    BreakoutHighsThreshold();
  }

  /** A re-entry at 105 while an order is still open: the breakout level drops
      to 104, nothing is placed and the ratchet does not fire (0.9 * 105 is
      below 0.98 * 104), so the old stop of 180 now sits above both the initial
      and the trailing stop. */
  lemma ReentryCanBreakBound()
    ensures var s := State(10, true, 100.0, 200.0, true, 180.0);
      var o := Observation(10, false, 105.0, BreakoutHighs(), true, true, 100);
      TickPre(SourceConfig(), s, o) && StopBounded(SourceConfig(), s)
      && Tick(SourceConfig(), s, o) == Outcome(State(10, true, 104.0, 104.0, true, 180.0), [Buy])
      && !StopBounded(SourceConfig(), Tick(SourceConfig(), s, o).state)
  {
    BreakoutHighsThreshold();
  }

  /** Once a re-entry has left the stop outside the bound, an ordinary held day
      can lower it: from the state `ReentryCanBreakBound` leaves, a close of
      150 ratchets the old ticket from 180 down to 0.9 * 150 = 135. Over the
      two days, starting from a bounded stop, the stop falls. */
  lemma UnboundedStopCanFall()
    ensures var s := State(10, true, 104.0, 104.0, true, 180.0);
      var o := Observation(10, true, 150.0, BreakoutHighs(), true, true, 100);
      TickPre(SourceConfig(), s, o) && !StopBounded(SourceConfig(), s)
      && Tick(SourceConfig(), s, o) == Outcome(State(10, true, 104.0, 150.0, true, 135.0), [UpdateStop(135.0)])
    ensures var s0 := State(10, true, 100.0, 200.0, true, 180.0);
      var days := [Observation(10, false, 105.0, BreakoutHighs(), true, true, 100),
                   Observation(10, true, 150.0, BreakoutHighs(), true, true, 100)];
      StopBounded(SourceConfig(), s0) && RunPre(SourceConfig(), s0, days)
      && Run(SourceConfig(), s0, days).stopPrice == 135.0
  {
    ReentryCanBreakBound();
    var c := SourceConfig();
    var s0 := State(10, true, 100.0, 200.0, true, 180.0);
    var s1 := State(10, true, 104.0, 104.0, true, 180.0);
    var o1 := Observation(10, false, 105.0, BreakoutHighs(), true, true, 100);
    var o2 := Observation(10, true, 150.0, BreakoutHighs(), true, true, 100);
    var days := [o1, o2];
    assert Tick(c, s0, o1).state == s1;
    assert days[1..] == [o2] && [o2][1..] == [];
    assert Tick(c, s1, o2).state == State(10, true, 104.0, 150.0, true, 135.0);
  }

  /** The entry, guard and ratchet days replayed on the strategy object: the
      requests of each day and the final stop. */
  method ThreeDays() returns (requests: seq<seq<Action>>, finalStop: real)
    ensures requests == [[Buy, PlaceStop(-100, 101.92)], [], [UpdateStop(108.0)]]
    ensures finalStop == 108.0
  {
    var algo := new StockTradingAlgo.Initialize();
    EntryScenario();
    var day1 := algo.Step(10, false, 105.0, BreakoutHighs(), true, false, 100);
    assert algo.Snapshot() == State(10, true, 104.0, 104.0, true, 101.92);
    GuardScenario();
    var day2 := algo.Step(10, true, 110.0, BreakoutHighs(), true, true, 100);
    assert algo.Snapshot() == State(10, true, 104.0, 104.0, true, 101.92);
    RatchetScenario();
    var day3 := algo.Step(10, true, 120.0, BreakoutHighs(), true, true, 100);
    assert algo.Snapshot() == State(10, true, 104.0, 120.0, true, 108.0);
    requests := [day1, day2, day3];
    finalStop := algo.stopPrice;
  }
}
