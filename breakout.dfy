/** The decision engine of the adaptive-lookback breakout strategy, as values.

    One market-open invocation runs three stages in order:
      1. the freshly computed lookback is clamped into [floor, ceiling];
      2. if the host reports no position and the close reaches the highest high
         of the window (the most recent day excluded), the strategy goes long
         and records that high as the breakout level;
      3. while the host reports a position, a stop order is placed if no order
         is open, and the stop is ratcheted up behind a new closing high.
    `Tick` is the whole invocation; the lemmas below state what it guarantees.
    Prices are exact reals here, where the source uses IEEE doubles. */
module Breakout {

  /** The strategy's configuration, fixed when the strategy is initialised. */
  datatype Config = Config(floor: int, ceiling: int, initialStopRisk: real, trailingStopRisk: real)

  /** A configuration the decision step can run on: a non-empty clamp range and
      a positive trailing factor, which the ratchet's "stop only tightens"
      argument needs. The floor of at least 2 and the positive initial factor
      mirror the configured values (floor 10, initial stop risk 0.98); no
      proof depends on them. */
  predicate ValidConfig(c: Config) {
    2 <= c.floor <= c.ceiling && 0.0 < c.initialStopRisk && 0.0 < c.trailingStopRisk
  }

  /** The strategy's own persistent fields. `hasEntered` records whether
      `breakoutlvl` and `highestPrice` have ever been assigned, and `hasTicket`
      whether a stop order was ever placed; before that the source has no such
      attribute at all. `stopPrice` is the stop price last requested for the
      current stop ticket. */
  datatype State = State(
    lookback: int,
    hasEntered: bool,
    breakoutlvl: real,
    highestPrice: real,
    hasTicket: bool,
    stopPrice: real)

  /** What the host reports during one invocation. `Invested` is read twice:
      before the entry decision and again after the entry order was sent. */
  datatype Observation = Observation(
    rawLookback: int,
    investedAtEntry: bool,
    close: real,
    highs: seq<real>,
    investedAtStop: bool,
    hasOpenOrders: bool,
    quantity: int)

  /** The requests one invocation sends to the host. */
  datatype Action =
    | Buy                                // allocate the whole portfolio to the asset
    | PlaceStop(qty: int, price: real)   // a new stop-market order
    | UpdateStop(price: real)            // a new stop price for the existing ticket

  datatype Outcome = Outcome(state: State, actions: seq<Action>)

  function Max(a: real, b: real): (m: real)
    ensures a <= m && b <= m && (m == a || m == b)
  {
    if a < b then b else a
  }

  /** The largest element of a non-empty sequence. */
  function MaxSeq(s: seq<real>): (m: real)
    requires |s| > 0
    ensures forall i :: 0 <= i < |s| ==> s[i] <= m
    ensures exists i :: 0 <= i < |s| && s[i] == m
  {
    if |s| == 1 then s[0]
    else
      var m := MaxSeq(s[..|s| - 1]);
      var k :| 0 <= k < |s| - 1 && s[..|s| - 1][k] == m;
      assert s[k] == m;
      Max(m, s[|s| - 1])
  }

  /** An independent description of "the maximum of s". */
  ghost predicate IsMaximum(s: seq<real>, m: real) {
    (forall i :: 0 <= i < |s| ==> s[i] <= m) && (exists i :: 0 <= i < |s| && s[i] == m)
  }

  /** Stage 1: the raw lookback clamped into [floor, ceiling]. */
  function ClampLookback(raw: int, floor: int, ceiling: int): (r: int)
    requires floor <= ceiling
    ensures floor <= r <= ceiling
    ensures floor <= raw <= ceiling ==> r == raw
    ensures raw > ceiling ==> r == ceiling
    ensures raw < floor ==> r == floor
  {
    if raw > ceiling then ceiling
    else if raw < floor then floor
    else raw
  }

  /** The breakout threshold: the highest high of the window, the most recent
      day excluded. */
  function BreakoutThreshold(highs: seq<real>): (t: real)
    requires |highs| >= 2
    ensures forall i :: 0 <= i < |highs| - 1 ==> highs[i] <= t
    ensures exists i :: 0 <= i < |highs| - 1 && highs[i] == t
  {
    MaxSeq(highs[..|highs| - 1])
  }

  /** Whether stage 2 enters a position. As in the source, the threshold is
      only computed when the host reports no position. */
  predicate EntryFires(o: Observation)
    requires o.investedAtEntry || |o.highs| >= 2
  {
    !o.investedAtEntry && o.close >= BreakoutThreshold(o.highs)
  }

  /** What an invocation needs to run to its end: when the host reports no
      position, the highs window leaves at least one high once the most recent
      day is dropped (otherwise the maximum of an empty window raises); at the
      stop stage a breakout level has been recorded (otherwise the source reads
      an attribute it never set); and a stop ticket exists or is about to be
      placed (otherwise updating and plotting the ticket read an attribute it
      never set). */
  predicate TickPre(c: Config, s: State, o: Observation) {
    ValidConfig(c)
    && (o.investedAtEntry || |o.highs| >= 2)
    && (o.investedAtStop ==> s.hasEntered || EntryFires(o))
    && (o.investedAtStop ==> s.hasTicket || !o.hasOpenOrders)
  }

  /** Stage 2: record the breakout level and the highest price on entry. */
  function Enter(s: State, o: Observation): State
    requires o.investedAtEntry || |o.highs| >= 2
  {
    if EntryFires(o) then
      var level := BreakoutThreshold(o.highs);
      s.(hasEntered := true, breakoutlvl := level, highestPrice := level)
    else s
  }

  /** Stages 1 and 2: the state the stop stage starts from. */
  function EnterStage(c: Config, s: State, o: Observation): State
    requires TickPre(c, s, o)
  {
    Enter(s.(lookback := ClampLookback(o.rawLookback, c.floor, c.ceiling)), o)
  }

  /** Whether stage 3 places a new stop order. */
  predicate PlacesStop(o: Observation) {
    o.investedAtStop && !o.hasOpenOrders
  }

  /** Whether stage 3 ratchets the stop. The source evaluates this after the
      placement, which changes neither the highest price nor the breakout
      level, so it is judged on the state after stage 2. */
  predicate Ratchets(c: Config, e: State, o: Observation) {
    o.investedAtStop && o.close > e.highestPrice
    && c.initialStopRisk * e.breakoutlvl < o.close * c.trailingStopRisk
  }

  /** Stage 3 on the state: a placement records the ticket at the initial
      stop; a ratchet moves the highest price to the close and the stop
      behind it. */
  function StopStage(c: Config, e: State, o: Observation): State {
    var e1 := if PlacesStop(o) then e.(hasTicket := true, stopPrice := c.initialStopRisk * e.breakoutlvl) else e;
    if Ratchets(c, e, o) then e1.(highestPrice := o.close, stopPrice := o.close * c.trailingStopRisk) else e1
  }

  function EntryActions(o: Observation): seq<Action>
    requires o.investedAtEntry || |o.highs| >= 2
  {
    if EntryFires(o) then [Buy] else []
  }

  function PlacementActions(c: Config, e: State, o: Observation): seq<Action> {
    if PlacesStop(o) then [PlaceStop(-o.quantity, c.initialStopRisk * e.breakoutlvl)] else []
  }

  function RatchetActions(c: Config, e: State, o: Observation): seq<Action> {
    if Ratchets(c, e, o) then [UpdateStop(o.close * c.trailingStopRisk)] else []
  }

  /** One market-open invocation: the new state and the requests sent, in the
      order the source sends them. */
  function Tick(c: Config, s: State, o: Observation): Outcome
    requires TickPre(c, s, o)
  {
    var e := EnterStage(c, s, o);
    Outcome(StopStage(c, e, o), EntryActions(o) + PlacementActions(c, e, o) + RatchetActions(c, e, o))
  }

  // ---------------------------------------------------------------------------
  // Properties of one invocation

  /** The maximum function agrees with the independent description, and that
      description pins down one value. */
  lemma MaxSeqIsTheMaximum(s: seq<real>, m: real)
    requires |s| > 0
    ensures IsMaximum(s, m) <==> m == MaxSeq(s)
  {
    if IsMaximum(s, m) {
      var i :| 0 <= i < |s| && s[i] == m;
      var j :| 0 <= j < |s| && s[j] == MaxSeq(s);
      assert s[j] <= m && s[i] <= MaxSeq(s);
    }
  }

  /** After an invocation the lookback lies in [floor, ceiling]; a raw value
      already inside is kept. */
  lemma LookbackClamped(c: Config, s: State, o: Observation)
    requires TickPre(c, s, o)
    ensures var r := Tick(c, s, o).state;
      c.floor <= r.lookback <= c.ceiling
      && (c.floor <= o.rawLookback <= c.ceiling ==> r.lookback == o.rawLookback)
  {
  }

  /** The entry order is sent exactly when the host reports no position and the
      close reaches the threshold; in particular never while invested. */
  lemma BuyExactlyOnBreakout(c: Config, s: State, o: Observation)
    requires TickPre(c, s, o)
    ensures Buy in Tick(c, s, o).actions <==> !o.investedAtEntry && o.close >= BreakoutThreshold(o.highs)
  {
  }

  /** Without an entry the breakout level and the entered flag are untouched. */
  lemma NoEntryKeepsBreakout(c: Config, s: State, o: Observation)
    requires TickPre(c, s, o)
    requires !EntryFires(o)
    ensures var r := Tick(c, s, o).state;
      r.breakoutlvl == s.breakoutlvl && r.hasEntered == s.hasEntered
  {
  }

  /** On entry the breakout level is the threshold, which bounds every high of
      the window but the last and is one of them; the highest price starts at
      the breakout level and becomes the close only if the same invocation
      ratchets. */
  lemma EntryRecordsThreshold(c: Config, s: State, o: Observation)
    requires TickPre(c, s, o)
    requires EntryFires(o)
    ensures var out := Tick(c, s, o);
      out.state.hasEntered
      && out.state.breakoutlvl == BreakoutThreshold(o.highs)
      && IsMaximum(o.highs[..|o.highs| - 1], out.state.breakoutlvl)
      && out.state.highestPrice == (if Ratchets(c, EnterStage(c, s, o), o) then o.close else out.state.breakoutlvl)
  {
    var p := o.highs[..|o.highs| - 1];
    assert forall i :: 0 <= i < |p| ==> p[i] == o.highs[i];
  }

  /** A stop order is placed exactly when the host reports a position and no open
      order; it closes the holding at the initial stop below the breakout level.
      With an open order present no stop is placed. */
  lemma StopPlacedOnlyWithoutOpenOrders(c: Config, s: State, o: Observation)
    requires TickPre(c, s, o)
    ensures var out := Tick(c, s, o);
      (exists a :: a in out.actions && a.PlaceStop?) <==> o.investedAtStop && !o.hasOpenOrders
    ensures var out := Tick(c, s, o);
      forall a :: a in out.actions && a.PlaceStop? ==>
        a.qty == -o.quantity && a.price == c.initialStopRisk * out.state.breakoutlvl
  {
    var e := EnterStage(c, s, o);
    if PlacesStop(o) {
      var acts := Tick(c, s, o).actions;
      assert acts[|EntryActions(o)|] == PlacementActions(c, e, o)[0];
      assert acts[|EntryActions(o)|] in acts;
    }
  }

  /** Position of an action kind in an invocation's request list. */
  function Rank(a: Action): nat {
    match a
    case Buy => 0
    case PlaceStop(_, _) => 1
    case UpdateStop(_) => 2
  }

  /** Requests come in the order entry, placement, update, each at most once:
      at most one stop is placed per invocation. */
  lemma ActionsInStageOrder(c: Config, s: State, o: Observation)
    requires TickPre(c, s, o)
    ensures var acts := Tick(c, s, o).actions;
      forall i, j :: 0 <= i < j < |acts| ==> Rank(acts[i]) < Rank(acts[j])
  {
  }

  /** While a position is held from the start of the invocation, the highest
      price never falls, and it changes only to a close strictly above it. */
  lemma HighestPriceNonDecreasing(c: Config, s: State, o: Observation)
    requires TickPre(c, s, o)
    requires o.investedAtEntry
    ensures var r := Tick(c, s, o).state;
      r.highestPrice >= s.highestPrice
      && (r.highestPrice != s.highestPrice ==> r.highestPrice == o.close > s.highestPrice)
  {
  }

  /** The stop is updated exactly when the ratchet condition holds on the state
      after entry, and then to close * trailingStopRisk. That new stop is the
      stored one, strictly above the initial stop and strictly above the
      trailing stop of the highest price it replaces, and the highest price
      becomes the close. */
  lemma RatchetTightens(c: Config, s: State, o: Observation, p: real)
    requires TickPre(c, s, o)
    ensures UpdateStop(p) in Tick(c, s, o).actions
            <==> Ratchets(c, EnterStage(c, s, o), o) && p == o.close * c.trailingStopRisk
    ensures var e := EnterStage(c, s, o);
      var r := Tick(c, s, o).state;
      Ratchets(c, e, o) ==>
        r.stopPrice == o.close * c.trailingStopRisk
        && r.highestPrice == o.close
        && o.close * c.trailingStopRisk > c.initialStopRisk * e.breakoutlvl
        && o.close * c.trailingStopRisk > e.highestPrice * c.trailingStopRisk
  {
    var e := EnterStage(c, s, o);
    var acts := Tick(c, s, o).actions;
    var front := EntryActions(o) + PlacementActions(c, e, o);
    assert acts == front + RatchetActions(c, e, o);
    assert UpdateStop(p) !in front;
    if Ratchets(c, e, o) {
      RatchetMoves(c, e, o);
      assert acts[|acts| - 1] == UpdateStop(o.close * c.trailingStopRisk);
    } else {
      assert acts == front;
    }
  }

  /** The arithmetic of one ratchet. */
  lemma RatchetMoves(c: Config, e: State, o: Observation)
    requires ValidConfig(c) && Ratchets(c, e, o)
    ensures StopStage(c, e, o).stopPrice == o.close * c.trailingStopRisk
    ensures StopStage(c, e, o).highestPrice == o.close
    ensures o.close * c.trailingStopRisk > c.initialStopRisk * e.breakoutlvl
    ensures o.close * c.trailingStopRisk > e.highestPrice * c.trailingStopRisk
  {
    MulMonotone(e.highestPrice, o.close, c.trailingStopRisk);
  }

  /** When the ratchet condition is false, the highest price is the one after
      entry and the stop price is the one just placed, or else the previous
      one. */
  lemma NoRatchetKeepsStop(c: Config, s: State, o: Observation)
    requires TickPre(c, s, o)
    requires !Ratchets(c, EnterStage(c, s, o), o)
    ensures var e := EnterStage(c, s, o);
      var r := Tick(c, s, o).state;
      r.highestPrice == e.highestPrice
      && r.stopPrice == (if PlacesStop(o) then c.initialStopRisk * e.breakoutlvl else s.stopPrice)
  {
  }

  lemma MulMonotone(a: real, b: real, k: real)
    requires a < b && 0.0 < k
    ensures a * k < b * k
  {
    assert (b - a) * k > 0.0;
  }

  // ---------------------------------------------------------------------------
  // Invariants kept across invocations

  /** Once entered, the highest price is at least the breakout level. */
  ghost predicate HighAboveBreakout(s: State) {
    s.hasEntered ==> s.highestPrice >= s.breakoutlvl
  }

  lemma TickKeepsHighAboveBreakout(c: Config, s: State, o: Observation)
    requires TickPre(c, s, o) && HighAboveBreakout(s)
    ensures HighAboveBreakout(Tick(c, s, o).state)
  {
  }

  /** The live stop is no higher than the initial stop below the breakout level
      or the trailing stop below the highest price. */
  ghost predicate StopBounded(c: Config, s: State) {
    s.hasTicket ==>
      s.stopPrice <= c.initialStopRisk * s.breakoutlvl
      || s.stopPrice <= s.highestPrice * c.trailingStopRisk
  }

  /** An invocation that places a fresh stop bounds the stop again, whatever
      came before; one that does not re-enter keeps the stop bounded. Unless it
      places a fresh order it never lowers the stop, and an update raises it
      strictly. (A re-entry with an order still open is excluded: there the
      stop can fall, see Scenarios.ReentryCanLowerStop.) */
  lemma TickStopNeverLoosens(c: Config, s: State, o: Observation)
    requires TickPre(c, s, o) && (StopBounded(c, s) || PlacesStop(o))
    requires !EntryFires(o) || PlacesStop(o)
    ensures StopBounded(c, Tick(c, s, o).state)
    ensures !PlacesStop(o) ==> Tick(c, s, o).state.stopPrice >= s.stopPrice
    ensures !PlacesStop(o) && Ratchets(c, EnterStage(c, s, o), o) ==> Tick(c, s, o).state.stopPrice > s.stopPrice
  {
    var e := EnterStage(c, s, o);
    assert !PlacesStop(o) ==> e == s.(lookback := e.lookback);
    assert !PlacesStop(o) && Ratchets(c, e, o) ==> s.hasTicket;
    StopStageKeepsBound(c, e, o);
  }

  /** Stage 3 keeps the stop bounded, and with no fresh placement it never
      lowers the stop. */
  lemma StopStageKeepsBound(c: Config, e: State, o: Observation)
    requires ValidConfig(c)
    requires PlacesStop(o) || StopBounded(c, e)
    requires !PlacesStop(o) && Ratchets(c, e, o) ==> e.hasTicket
    ensures StopBounded(c, StopStage(c, e, o))
    ensures !PlacesStop(o) ==> StopStage(c, e, o).stopPrice >= e.stopPrice
    ensures !PlacesStop(o) && Ratchets(c, e, o) ==> StopStage(c, e, o).stopPrice > e.stopPrice
  {
    if Ratchets(c, e, o) {
      RatchetMoves(c, e, o);
    }
  }

  // ---------------------------------------------------------------------------
  // Runs of invocations

  /** Every invocation of the run can proceed from the state the previous one
      left. */
  predicate RunPre(c: Config, s: State, obs: seq<Observation>)
    decreases |obs|
  {
    |obs| == 0 || (TickPre(c, s, obs[0]) && RunPre(c, Tick(c, s, obs[0]).state, obs[1..]))
  }

  /** The state after a run of invocations, one per trading day. */
  function Run(c: Config, s: State, obs: seq<Observation>): State
    requires RunPre(c, s, obs)
    decreases |obs|
  {
    if |obs| == 0 then s else Run(c, Tick(c, s, obs[0]).state, obs[1..])
  }

  /** The host reports a position at the start of every invocation of the run. */
  predicate HeldThroughout(obs: seq<Observation>) {
    forall i :: 0 <= i < |obs| ==> obs[i].investedAtEntry
  }

  /** While the position is held, the highest price never falls over any number
      of days. */
  lemma {:induction false} HighestPriceNeverFallsWhileHeld(c: Config, s: State, obs: seq<Observation>)
    requires RunPre(c, s, obs) && HeldThroughout(obs)
    ensures Run(c, s, obs).highestPrice >= s.highestPrice
    decreases |obs|
  {
    if |obs| > 0 {
      HighestPriceNonDecreasing(c, s, obs[0]);
      var s1 := Tick(c, s, obs[0]).state;
      assert HeldThroughout(obs[1..]) by {
        forall i | 0 <= i < |obs| - 1 ensures obs[1..][i].investedAtEntry {
          assert obs[1..][i] == obs[i + 1];
        }
      }
      HighestPriceNeverFallsWhileHeld(c, s1, obs[1..]);
    }
  }

  /** While the position is held and its stop order stays open, the stop price
      never falls over any number of days. */
  lemma {:induction false} StopNeverLoosensWhileHeld(c: Config, s: State, obs: seq<Observation>)
    requires RunPre(c, s, obs) && StopBounded(c, s)
    requires forall i :: 0 <= i < |obs| ==> obs[i].investedAtEntry && obs[i].hasOpenOrders
    ensures StopBounded(c, Run(c, s, obs))
    ensures Run(c, s, obs).stopPrice >= s.stopPrice
    decreases |obs|
  {
    if |obs| > 0 {
      TickStopNeverLoosens(c, s, obs[0]);
      var s1 := Tick(c, s, obs[0]).state;
      assert forall i :: 0 <= i < |obs| - 1 ==> obs[1..][i] == obs[i + 1];
      StopNeverLoosensWhileHeld(c, s1, obs[1..]);
    }
  }
}
