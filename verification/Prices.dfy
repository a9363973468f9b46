/** The price engine: prices on the tick grid, moved by bounded steps and decaying shocks. Floating point is
    modelled by reals, and the size of a trading move is any real number. */
module Prices {
  import opened Orders

  const SECOND := 1_000_000_000
  const MAX_MOVE := 0.035
  const MAX_SHOCK := 0.35
  const MAX_DRIFT := 0.012
  const MAX_BIAS := 0.45

  datatype Ticker = Ticker(symbol: string, initialPrice: int, tickSize: int)

  datatype Effect = Effect(name: string, bias: real, startedAt: int, expiresAt: int)

  datatype PricePoint = PricePoint(previous: int, current: int, updatedAt: int)

  datatype MarketState = MarketState(price: PricePoint, effects: seq<Effect>)

  function Clamp(x: real, low: real, high: real): real {
    if x < low then low else if x > high then high else x
  }

  function MinReal(a: real, b: real): real { if a < b then a else b }

  /** Rounds half away from zero. */
  function Round(x: real): int {
    if x >= 0.0 then (x + 0.5).Floor else -((0.5 - x).Floor)
  }

  function AlignToTick(price: int, tick: int): int {
    if tick <= 0 then price
    else if price < tick then tick
    else price / tick * tick
  }

  predicate OnGrid(price: int, tick: int) {
    tick > 0 && price > 0 && price % tick == 0
  }

  /** The aligned price after a relative move. */
  function Moved(price: int, move: real, tick: int): int {
    AlignToTick(Round(Target(price, move)), tick)
  }

  predicate Active(e: Effect, now: int) {
    e.expiresAt > now
  }

  function Prune(effects: seq<Effect>, now: int): seq<Effect> {
    if effects == [] then []
    else (if Active(effects[0], now) then [effects[0]] else []) + Prune(effects[1..], now)
  }

  /** What is left of the effects' pull, each fading linearly to its expiry. */
  function Bias(effects: seq<Effect>, now: int): real {
    if effects == [] then 0.0
    else
      var e := effects[0];
      var total, remaining := e.expiresAt - e.startedAt, e.expiresAt - now;
      (if total <= 0 || remaining <= 0 then 0.0 else e.bias * (remaining as real / total as real)) + Bias(effects[1..], now)
  }

  function ActiveBias(effects: seq<Effect>, now: int): real {
    Clamp(Bias(effects, now), -MAX_BIAS, MAX_BIAS)
  }

  /** The relative drift after some time under a bias. */
  function Drift(bias: real, elapsed: int): real {
    Clamp(bias * MinReal(0.18, elapsed as real / SECOND as real / 30.0), -MAX_DRIFT, MAX_DRIFT)
  }

  /** Drops expired effects and lets the rest drift the price. */
  function Refresh(cfg: Ticker, st: MarketState, now: int): MarketState {
    var effects := Prune(st.effects, now);
    if st.price.current == 0 then MarketState(PricePoint(cfg.initialPrice, cfg.initialPrice, now), effects)
    else
      var elapsed := now - st.price.updatedAt;
      var step := Drift(ActiveBias(effects, now), elapsed);
      var next := Moved(st.price.current, step, cfg.tickSize);
      if elapsed <= 0 || ActiveBias(effects, now) == 0.0 || step == 0.0 || next == st.price.current || next <= 0 then
        MarketState(st.price, effects)
      else MarketState(PricePoint(st.price.current, next, now), effects)
  }

  function Positive(next: int, tick: int): int {
    if next <= 0 then tick else next
  }

  /** A trading step of any raw size, clamped. */
  function AfterApply(cfg: Ticker, st: MarketState, now: int, rawMove: real): MarketState {
    var renewed := Refresh(cfg, st, now);
    var current := if renewed.price.current == 0 then cfg.initialPrice else renewed.price.current;
    var base := if current <= 0 then cfg.initialPrice else current;
    var next := Positive(Moved(base, Clamp(rawMove, -MAX_MOVE, MAX_MOVE), cfg.tickSize), cfg.tickSize);
    renewed.(price := PricePoint(current, next, now))
  }

  /** An event shock: an immediate move and an effect that lasts. */
  function AfterShock(cfg: Ticker, st: MarketState, percent: int, duration: int, at: int): MarketState {
    var lasting := if duration <= 0 then 30 * SECOND else duration;
    var renewed := Refresh(cfg, st, at);
    var current := if renewed.price.current == 0 then cfg.initialPrice else renewed.price.current;
    var move := Clamp(percent as real / 100.0, -MAX_SHOCK, MAX_SHOCK);
    var next := Positive(Moved(current, move, cfg.tickSize), cfg.tickSize);
    MarketState(PricePoint(current, next, at),
                Prune(renewed.effects + [Effect(cfg.symbol, move * 0.60, at, at + lasting)], at))
  }

  // ---- The grid ----

  lemma AlignedIsOnGrid(price: int, tick: int)
    requires tick > 0
    ensures OnGrid(AlignToTick(price, tick), tick)
    ensures price >= tick ==> price - tick < AlignToTick(price, tick) <= price
    ensures price < tick ==> AlignToTick(price, tick) == tick
  {
    if price >= tick {
      var q := price / tick;
      assert price == q * tick + price % tick;
      assert q >= 1;
      MultipleIsDivisible(q, tick);
    }
  }

  lemma MultipleIsDivisible(q: int, tick: int)
    requires tick > 0 && q >= 1
    ensures q * tick >= tick && (q * tick) % tick == 0
  {
    assert (q - 1) * tick >= 0;
    assert q * tick == (q - 1) * tick + tick;
    var r := (q * tick) % tick;
    assert q * tick == (q * tick) / tick * tick + r;
    var d := q - (q * tick) / tick;
    assert d * tick == r;
    assert d >= 1 ==> d * tick >= tick;
    assert d <= -1 ==> d * tick <= -tick;
  }

  lemma RoundIsNear(x: real)
    ensures x - 0.5 <= Round(x) as real <= x + 0.5
  {
  }

  lemma GridIsAtLeastTick(price: int, tick: int)
    requires OnGrid(price, tick)
    ensures price >= tick
  {
  }

  /** How far a relative move of at most m may take a price. */
  function Slack(m: real, price: int): real {
    m * price as real
  }

  /** The price after a relative move, before rounding. */
  function Target(price: int, move: real): real {
    price as real * (1.0 + move)
  }

  lemma TargetIsNear(price: int, move: real, m: real)
    requires price > 0 && 0.0 <= m && -m <= move <= m
    ensures Slack(m, price) >= 0.0
    ensures price as real - Slack(m, price) <= Target(price, move) <= price as real + Slack(m, price)
  {
    ScaledMove(price as real, move, m);
  }

  lemma ScaledMove(p: real, move: real, m: real)
    requires p > 0.0 && 0.0 <= m && -m <= move <= m
    ensures m * p >= 0.0
    ensures p - m * p <= p * (1.0 + move) <= p + m * p
  {
    assert p * (1.0 + move) == p + p * move;
    assert p * (m - move) >= 0.0 && p * (m + move) >= 0.0;
    assert p * (m - move) == m * p - p * move && p * (m + move) == m * p + p * move;
  }

  /** A move of at most m stays on the grid and within m and one tick. */
  lemma MoveIsBounded(price: int, move: real, m: real, tick: int)
    requires OnGrid(price, tick) && 0.0 <= m && -m <= move <= m
    ensures OnGrid(Moved(price, move, tick), tick)
    ensures -Slack(m, price) - tick as real <= (Moved(price, move, tick) - price) as real <= Slack(m, price) + tick as real
  {
    hide Round, AlignToTick, OnGrid, Slack, Target;
    GridIsPositive(price, tick);
    GridIsAtLeastTick(price, tick);
    TargetIsNear(price, move, m);
    RoundIsNear(Target(price, move));
    AlignedIsOnGrid(Round(Target(price, move)), tick);
    AlignedIsNear(price, Target(price, move), Slack(m, price), Round(Target(price, move)), tick);
  }

  lemma AlignedIsNear(price: int, x: real, slack: real, rounded: int, tick: int)
    requires tick > 0 && price >= tick && slack >= 0.0
    requires price as real - slack <= x <= price as real + slack
    requires x - 0.5 <= rounded as real <= x + 0.5
    ensures var aligned := AlignToTick(rounded, tick);
      -slack - tick as real <= (aligned - price) as real <= slack + tick as real
  {
    AlignedIsOnGrid(rounded, tick);
    hide AlignToTick;
  }

  ghost predicate Sound(cfg: Ticker, st: MarketState) {
    OnGrid(cfg.initialPrice, cfg.tickSize) && OnGrid(st.price.current, cfg.tickSize)
  }

  /** The change from previous to current is at most m of previous, and a tick. */
  ghost predicate Bounded(p: PricePoint, m: real, tick: int) {
    -Slack(m, p.previous) - tick as real <= (p.current - p.previous) as real <= Slack(m, p.previous) + tick as real
  }

  lemma DriftIsBounded(bias: real, elapsed: int)
    ensures -MAX_DRIFT <= Drift(bias, elapsed) <= MAX_DRIFT
  {
  }

  lemma RefreshIsSound(cfg: Ticker, st: MarketState, now: int)
    requires Sound(cfg, st)
    ensures Sound(cfg, Refresh(cfg, st, now))
    ensures Refresh(cfg, st, now).price == st.price
         || (Refresh(cfg, st, now).price.previous == st.price.current
             && Bounded(Refresh(cfg, st, now).price, MAX_DRIFT, cfg.tickSize))
  {
    hide Prune, Bias, Moved, OnGrid, Slack;
    var elapsed := now - st.price.updatedAt;
    var bias := ActiveBias(Prune(st.effects, now), now);
    var step := Drift(bias, elapsed);
    DriftIsBounded(bias, elapsed);
    hide Drift, ActiveBias;
    MoveIsBounded(st.price.current, step, MAX_DRIFT, cfg.tickSize);
    GridIsAtLeastTick(st.price.current, cfg.tickSize);
    GridIsPositive(st.price.current, cfg.tickSize);
  }

  lemma GridIsPositive(price: int, tick: int)
    requires OnGrid(price, tick)
    ensures price > 0 && tick > 0
  {
  }

  /** Apply keeps the price on the grid and moves it by at most 3.5 percent and one tick. */
  lemma ApplyIsSound(cfg: Ticker, st: MarketState, now: int, rawMove: real)
    requires Sound(cfg, st)
    ensures var st' := AfterApply(cfg, st, now, rawMove);
      && Sound(cfg, st') && st'.price.previous == Refresh(cfg, st, now).price.current
      && Bounded(st'.price, MAX_MOVE, cfg.tickSize)
  {
    RefreshIsSound(cfg, st, now);
    hide Refresh, Moved, OnGrid, Slack;
    var current := Refresh(cfg, st, now).price.current;
    var move := Clamp(rawMove, -MAX_MOVE, MAX_MOVE);
    MoveIsBounded(current, move, MAX_MOVE, cfg.tickSize);
    GridIsPositive(current, cfg.tickSize);
    GridIsPositive(Moved(current, move, cfg.tickSize), cfg.tickSize);
  }

  lemma {:induction false} PruneKeepsLast(effects: seq<Effect>, last: Effect, now: int)
    requires Active(last, now)
    ensures Prune(effects + [last], now) == Prune(effects, now) + [last]
  {
    if effects == [] {
      assert effects + [last] == [last] && [last][1..] == [];
    } else {
      assert (effects + [last])[1..] == effects[1..] + [last];
      PruneKeepsLast(effects[1..], last, now);
      var first := if Active(effects[0], now) then [effects[0]] else [];
      assert first + (Prune(effects[1..], now) + [last]) == first + Prune(effects[1..], now) + [last];
    }
  }

  /** A shock keeps the price on the grid, moves it by at most 35 percent and one tick, and leaves its own
      effect last in the list. */
  lemma ShockIsSound(cfg: Ticker, st: MarketState, percent: int, duration: int, at: int)
    requires Sound(cfg, st)
    ensures var st' := AfterShock(cfg, st, percent, duration, at);
      && Sound(cfg, st') && st'.price.previous == Refresh(cfg, st, at).price.current
      && Bounded(st'.price, MAX_SHOCK, cfg.tickSize)
      && st'.effects != [] && st'.effects[|st'.effects| - 1].startedAt == at
  {
    RefreshIsSound(cfg, st, at);
    hide Refresh, Moved, OnGrid, Slack;
    var current := Refresh(cfg, st, at).price.current;
    var move := Clamp(percent as real / 100.0, -MAX_SHOCK, MAX_SHOCK);
    MoveIsBounded(current, move, MAX_SHOCK, cfg.tickSize);
    GridIsPositive(current, cfg.tickSize);
    GridIsPositive(Moved(current, move, cfg.tickSize), cfg.tickSize);
    var lasting := if duration <= 0 then 30 * SECOND else duration;
    PruneKeepsLast(Refresh(cfg, st, at).effects, Effect(cfg.symbol, move * 0.60, at, at + lasting), at);
  }

  lemma {:induction false} ExpiredPullNothing(effects: seq<Effect>, now: int)
    requires forall i :: 0 <= i < |effects| ==> !Active(effects[i], now)
    ensures Prune(effects, now) == []
  {
    if effects != [] { ExpiredPullNothing(effects[1..], now); }
  }

  /** Once every effect has expired, looking at the price no longer changes it. */
  lemma PriceRests(cfg: Ticker, st: MarketState, now: int)
    requires Sound(cfg, st) && forall i :: 0 <= i < |st.effects| ==> !Active(st.effects[i], now)
    ensures Refresh(cfg, st, now) == MarketState(st.price, [])
  {
    ExpiredPullNothing(st.effects, now);
    hide Moved;
  }

  // ---- Runs ----

  datatype PriceOp =
    | DoApply(now: int, rawMove: real)
    | DoShock(percent: int, duration: int, at: int)
    | DoLook(now: int)

  function PriceStep(cfg: Ticker, st: MarketState, op: PriceOp): MarketState {
    match op
    case DoApply(now, rawMove) => AfterApply(cfg, st, now, rawMove)
    case DoShock(percent, duration, at) => AfterShock(cfg, st, percent, duration, at)
    case DoLook(now) => Refresh(cfg, st, now)
  }

  function PriceRun(cfg: Ticker, st: MarketState, ops: seq<PriceOp>): MarketState
    decreases |ops|
  {
    if ops == [] then st else PriceRun(cfg, PriceStep(cfg, st, ops[0]), ops[1..])
  }

  /** The price is a positive multiple of the tick after every run of trades, shocks and looks. */
  lemma {:induction false} RunStaysOnGrid(cfg: Ticker, st: MarketState, ops: seq<PriceOp>)
    requires Sound(cfg, st)
    ensures Sound(cfg, PriceRun(cfg, st, ops))
    decreases |ops|
  {
    hide Sound, AfterApply, AfterShock, Refresh;
    if ops != [] {
      match ops[0] {
        case DoApply(now, rawMove) => ApplyIsSound(cfg, st, now, rawMove);
        case DoShock(percent, duration, at) => ShockIsSound(cfg, st, percent, duration, at);
        case DoLook(now) => RefreshIsSound(cfg, st, now);
      }
      RunStaysOnGrid(cfg, PriceStep(cfg, st, ops[0]), ops[1..]);
    }
  }

  // ---- The engine ----

  method PruneExpired(effects: seq<Effect>, now: int) returns (active: seq<Effect>)
    ensures active == Prune(effects, now)
  {
    active := [];
    for i := 0 to |effects|
      invariant active + Prune(effects[i..], now) == Prune(effects, now)
    {
      assert effects[i..][1..] == effects[i + 1..];
      if effects[i].expiresAt > now {
        active := active + [effects[i]];
      }
    }
  }

  method SumBias(effects: seq<Effect>, now: int) returns (bias: real)
    ensures bias == ActiveBias(effects, now)
  {
    bias := 0.0;
    for i := 0 to |effects|
      invariant bias + Bias(effects[i..], now) == Bias(effects, now)
    {
      assert effects[i..][1..] == effects[i + 1..];
      var total := effects[i].expiresAt - effects[i].startedAt;
      if total <= 0 {
        continue;
      }
      var remaining := effects[i].expiresAt - now;
      if remaining <= 0 {
        continue;
      }
      bias := bias + effects[i].bias * (remaining as real / total as real);
    }
    bias := Clamp(bias, -MAX_BIAS, MAX_BIAS);
  }

  class PriceEngine {
    const configs: map<string, Ticker>
    var state: map<string, MarketState>

    ghost predicate Valid()
      reads this
    {
      && state.Keys == configs.Keys
      && forall s :: s in configs ==> configs[s].symbol == s && Sound(configs[s], state[s])
    }

    constructor (configs: map<string, Ticker>, now: int)
      requires forall s :: s in configs ==> configs[s].symbol == s && OnGrid(configs[s].initialPrice, configs[s].tickSize)
      ensures Valid() && this.configs == configs
      ensures forall s :: s in configs ==>
        state[s] == MarketState(PricePoint(configs[s].initialPrice, configs[s].initialPrice, now), [])
    {
      this.configs := configs;
      state := map s | s in configs ::
        MarketState(PricePoint(configs[s].initialPrice, configs[s].initialPrice, now), []);
    }

    method RefreshState(symbol: string, now: int) returns (st: MarketState)
      requires Valid() && symbol in configs
      ensures st == Refresh(configs[symbol], state[symbol], now)
    {
      hide Sound, Moved, ActiveBias, Prune, Drift;
      st := state[symbol];
      var cfg := configs[symbol];
      var effects := PruneExpired(st.effects, now);
      st := st.(effects := effects);
      if st.price.current == 0 {
        return st.(price := PricePoint(cfg.initialPrice, cfg.initialPrice, now));
      }
      var elapsed := now - st.price.updatedAt;
      if elapsed <= 0 {
        return;
      }
      var bias := SumBias(st.effects, now);
      if bias == 0.0 {
        return;
      }
      var step := Drift(bias, elapsed);
      if step == 0.0 {
        return;
      }
      var next := Moved(st.price.current, step, cfg.tickSize);
      if next == st.price.current || next <= 0 {
        return;
      }
      st := st.(price := PricePoint(st.price.current, next, now));
    }

    /** A trading step; rawMove is what the flow, depth and trend of the market come to. */
    method Apply(symbol: string, now: int, rawMove: real) returns (price: Option<PricePoint>)
      requires Valid()
      modifies this
      ensures Valid()
      ensures if symbol in configs then
                var st := AfterApply(configs[symbol], old(state[symbol]), now, rawMove);
                && state == old(state)[symbol := st] && price == Some(st.price)
                && Bounded(st.price, MAX_MOVE, configs[symbol].tickSize)
              else state == old(state) && price == None
    {
      hide Sound, Bounded, Refresh, Moved;
      if symbol !in configs {
        return None;
      }
      var cfg := configs[symbol];
      ApplyIsSound(cfg, state[symbol], now, rawMove);
      var st := RefreshState(symbol, now);
      var current := st.price.current;
      if current == 0 {
        current := cfg.initialPrice;
      }
      var base := current;
      if base <= 0 {
        base := cfg.initialPrice;
      }
      var next := Moved(base, Clamp(rawMove, -MAX_MOVE, MAX_MOVE), cfg.tickSize);
      if next <= 0 {
        next := cfg.tickSize;
      }
      st := st.(price := PricePoint(current, next, now));
      state := state[symbol := st];
      price := Some(st.price);
    }

    method TriggerShock(symbol: string, percent: int, duration: int, at: int) returns (price: Option<PricePoint>)
      requires Valid()
      modifies this
      ensures Valid()
      ensures if symbol in configs then
                var st := AfterShock(configs[symbol], old(state[symbol]), percent, duration, at);
                && state == old(state)[symbol := st] && price == Some(st.price)
                && Bounded(st.price, MAX_SHOCK, configs[symbol].tickSize)
              else state == old(state) && price == None
    {
      hide Sound, Bounded, Refresh, Moved, Prune;
      if symbol !in configs {
        return None;
      }
      var cfg := configs[symbol];
      ShockIsSound(cfg, state[symbol], percent, duration, at);
      var lasting := duration;
      if lasting <= 0 {
        lasting := 30 * SECOND;
      }
      var st := RefreshState(symbol, at);
      var current := st.price.current;
      if current == 0 {
        current := cfg.initialPrice;
      }
      var move := Clamp(percent as real / 100.0, -MAX_SHOCK, MAX_SHOCK);
      var next := Moved(current, move, cfg.tickSize);
      if next <= 0 {
        next := cfg.tickSize;
      }
      var mine := Effect(symbol, move * 0.60, at, at + lasting);
      var effects := PruneExpired(st.effects + [mine], at);
      PruneKeepsLast(st.effects, mine, at);
      effects := effects[|effects| - 1 := effects[|effects| - 1].(name := symbol)];
      assert effects == Prune(st.effects + [mine], at);
      st := MarketState(PricePoint(current, next, at), effects);
      state := state[symbol := st];
      price := Some(st.price);
    }

    method Current(symbol: string, now: int) returns (price: Option<PricePoint>)
      requires Valid()
      modifies this
      ensures Valid()
      ensures if symbol in configs then
                var st := Refresh(configs[symbol], old(state[symbol]), now);
                state == old(state)[symbol := st] && price == Some(st.price)
              else state == old(state) && price == None
    {
      hide Sound, Refresh;
      if symbol !in state {
        return None;
      }
      RefreshIsSound(configs[symbol], state[symbol], now);
      var st := RefreshState(symbol, now);
      state := state[symbol := st];
      price := Some(st.price);
    }
  }
}
