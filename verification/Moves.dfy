/** Which way prices move and how far: trading steps, shocks and drift, in numbers. */
module Moves {
  import opened Prices

  function Capped(x: real, cap: real): real {
    if x > cap then cap else if x < -cap then -cap else x
  }

  /** How far a price may come from where a relative move points: half a unit of rounding, and a tick of alignment. */
  predicate Near(price: int, previous: int, move: real, tick: int) {
    previous as real * (1.0 + move) - 0.5 - tick as real <= price as real <= previous as real * (1.0 + move) + 0.5 + tick as real
  }

  /** A price never moves against the sign of the move. */
  predicate Follows(price: int, previous: int, move: real) {
    (move >= 0.0 ==> price >= previous) && (move <= 0.0 ==> price <= previous)
  }

  lemma RoundsHalfAwayFromZero(n: int)
    ensures Round(n as real) == n
    ensures n >= 0 ==> Round(n as real + 0.5) == n + 1
    ensures n <= 0 ==> Round(n as real - 0.5) == n - 1
  {
  }

  lemma RoundKeepsOrder(x: real, n: int)
    ensures x >= n as real ==> Round(x) >= n
    ensures x <= n as real ==> Round(x) <= n
  {
  }

  lemma NoTickNoAlignment(price: int, tick: int)
    requires tick <= 0
    ensures AlignToTick(price, tick) == price
  {
  }

  /** Aligning keeps a price on its side of any price on the grid. */
  lemma AlignKeepsSide(price: int, grid: int, tick: int)
    requires OnGrid(grid, tick)
    ensures price >= grid ==> AlignToTick(price, tick) >= grid
    ensures price <= grid ==> AlignToTick(price, tick) <= grid
  {
    GridIsAtLeastTick(grid, tick);
    AlignedIsOnGrid(price, tick);
    if price >= grid {
      assert grid == grid / tick * tick;
      MultiplesApart(price / tick, grid / tick, tick);
    }
  }

  lemma MultiplesApart(p: int, q: int, d: int)
    requires d > 0 && p * d > q * d - d
    ensures p * d >= q * d
  {
    assert (q - p) * d == q * d - p * d;
    if p < q { MultipleIsDivisible(q - p, d); }
  }

  lemma MoveFollows(price: int, move: real, tick: int)
    requires OnGrid(price, tick) && -1.0 <= move
    ensures Near(Moved(price, move, tick), price, move, tick) && Follows(Moved(price, move, tick), price, move)
  {
    GridIsPositive(price, tick);
    var target := Target(price, move);
    TargetFollows(price, move);
    RoundIsNear(target);
    RoundKeepsOrder(target, price);
    AlignKeepsSide(Round(target), price, tick);
    AlignedIsOnGrid(Round(target), tick);
    hide Round, AlignToTick, OnGrid;
  }

  lemma TargetFollows(price: int, move: real)
    requires price > 0 && -1.0 <= move
    ensures Target(price, move) == price as real * (1.0 + move)
    ensures move >= 0.0 ==> Target(price, move) >= price as real
    ensures -0.0 <= Target(price, move) && (move <= 0.0 ==> Target(price, move) <= price as real)
  {
    var p := price as real;
    assert p * (1.0 + move) == p + p * move;
    NonNegativeProduct(p, 1.0 + move);
    if move >= 0.0 { NonNegativeProduct(p, move); } else { NonNegativeProduct(p, -move); }
  }

  lemma NonNegativeProduct(x: real, y: real)
    requires x >= 0.0 && y >= 0.0
    ensures x * y >= 0.0
  {
  }

  /** A trading step follows the sign of its raw move, and comes to within rounding and a tick of the move capped at 3.5
      percent either way, from the previous price that it reports. */
  lemma ApplyFollows(cfg: Ticker, st: MarketState, now: int, rawMove: real)
    requires Sound(cfg, st)
    ensures var st' := AfterApply(cfg, st, now, rawMove); var move := Capped(rawMove, 0.035);
      && Near(st'.price.current, st'.price.previous, move, cfg.tickSize)
      && Follows(st'.price.current, st'.price.previous, rawMove)
      && st'.price.previous == Refresh(cfg, st, now).price.current && st'.price.updatedAt == now
      && st'.effects == Refresh(cfg, st, now).effects
  {
    RefreshIsSound(cfg, st, now);
    var current := Refresh(cfg, st, now).price.current;
    var move := Capped(rawMove, 0.035);
    hide Refresh;
    GridIsPositive(current, cfg.tickSize);
    MoveFollows(current, move, cfg.tickSize);
    MoveIsBounded(current, move, 0.035, cfg.tickSize);
    GridIsPositive(Moved(current, move, cfg.tickSize), cfg.tickSize);
    hide Moved, OnGrid, Slack, Near;
  }

  /** The share of a percentage that a shock makes of it: at most 35 percent either way. */
  function ShockPercent(percent: int): int {
    if percent > 35 then 35 else if percent < -35 then -35 else percent
  }

  lemma ShockMove(percent: int)
    ensures Clamp(percent as real / 100.0, -MAX_SHOCK, MAX_SHOCK) == ShockPercent(percent) as real / 100.0
  {
  }

  /** A shock follows the sign of its percentage and comes to within rounding and a tick of it, capped at 35 percent either
      way; it leaves the effects that were still running and, last, one of six tenths of its own move that starts with it
      and lasts as long as asked, or 30 seconds when that is not positive. */
  lemma ShockFollows(cfg: Ticker, st: MarketState, percent: int, duration: int, at: int)
    requires Sound(cfg, st)
    ensures var st' := AfterShock(cfg, st, percent, duration, at); var move := ShockPercent(percent) as real / 100.0;
      && Near(st'.price.current, st'.price.previous, move, cfg.tickSize)
      && Follows(st'.price.current, st'.price.previous, percent as real)
      && st'.price.previous == Refresh(cfg, st, at).price.current && st'.price.updatedAt == at
      && |st'.effects| == |Running(st.effects, at)| + 1
      && st'.effects[..|st'.effects| - 1] == Running(st.effects, at)
      && var mine := st'.effects[|st'.effects| - 1];
         && mine.name == cfg.symbol && mine.bias == 0.6 * move && mine.startedAt == at
         && mine.expiresAt == at + (if duration > 0 then duration else 30_000_000_000)
  {
    RefreshIsSound(cfg, st, at);
    RefreshKeepsRunning(cfg, st, at);
    var renewed := Refresh(cfg, st, at);
    var current := renewed.price.current;
    hide Refresh;
    ShockMove(percent);
    var move := ShockPercent(percent) as real / 100.0;
    GridIsPositive(current, cfg.tickSize);
    MoveFollows(current, move, cfg.tickSize);
    MoveIsBounded(current, move, 0.35, cfg.tickSize);
    GridIsPositive(Moved(current, move, cfg.tickSize), cfg.tickSize);
    var lasting := if duration <= 0 then 30 * SECOND else duration;
    PruneKeepsLast(renewed.effects, Effect(cfg.symbol, move * 0.60, at, at + lasting), at);
    RunningAgain(st.effects, at);
    hide Moved, OnGrid, Slack, Near, Prune, Running, Clamp;
  }

  /** In hundredths: what a shock of c percent makes of a price. */
  lemma ShockInHundredths(price: int, previous: int, c: int, tick: int)
    requires Near(price, previous, c as real / 100.0, tick)
    ensures -50 - 100 * tick <= 100 * price - previous * (100 + c) <= 50 + 100 * tick
  {
    assert previous as real * (1.0 + c as real / 100.0) * 100.0 == (previous * (100 + c)) as real;
  }

  // ---- Effects ----

  /** The effects that expire later, in order. */
  function Running(effects: seq<Effect>, now: int): seq<Effect> {
    if effects == [] then []
    else if effects[0].expiresAt > now then [effects[0]] + Running(effects[1..], now)
    else Running(effects[1..], now)
  }

  lemma {:induction false} PruneIsRunning(effects: seq<Effect>, now: int)
    ensures Prune(effects, now) == Running(effects, now)
    ensures forall e :: e in Prune(effects, now) <==> e in effects && e.expiresAt > now
  {
    if effects != [] {
      PruneIsRunning(effects[1..], now);
      assert effects == [effects[0]] + effects[1..];
    }
  }

  lemma {:induction false} PruneTwice(effects: seq<Effect>, now: int)
    ensures Prune(Prune(effects, now), now) == Prune(effects, now)
  {
    if effects != [] {
      var e, rest := effects[0], Prune(effects[1..], now);
      PruneTwice(effects[1..], now);
      if Active(e, now) {
        assert Prune(effects, now) == [e] + rest && ([e] + rest)[0] == e && ([e] + rest)[1..] == rest;
      } else {
        assert Prune(effects, now) == [] + rest == rest;
      }
    }
  }

  lemma RunningAgain(effects: seq<Effect>, now: int)
    ensures Prune(Running(effects, now), now) == Running(effects, now)
  {
    PruneIsRunning(effects, now);
    PruneTwice(effects, now);
  }

  lemma RefreshKeepsRunning(cfg: Ticker, st: MarketState, now: int)
    ensures Refresh(cfg, st, now).effects == Running(st.effects, now)
  {
    PruneIsRunning(st.effects, now);
    hide Prune, Running, Moved, Drift, ActiveBias;
  }

  /** The pull of an effect fades in proportion to the time it has left, and is gone when it expires. */
  lemma EffectFades(e: Effect, now: int)
    ensures e.startedAt < e.expiresAt && now < e.expiresAt ==>
      Bias([e], now) * (e.expiresAt - e.startedAt) as real == e.bias * (e.expiresAt - now) as real
    ensures e.startedAt >= e.expiresAt || now >= e.expiresAt ==> Bias([e], now) == 0.0
  {
    assert [e][1..] == [];
  }

  lemma {:induction false} BiasAddsUp(a: seq<Effect>, b: seq<Effect>, now: int)
    ensures Bias(a + b, now) == Bias(a, now) + Bias(b, now)
  {
    if a == [] {
      assert a + b == b;
    } else {
      assert (a + b)[1..] == a[1..] + b && (a + b)[0] == a[0];
      BiasAddsUp(a[1..], b, now);
    }
  }

  // ---- Drift ----

  /** The lesser of 0.18 and a thirtieth of the seconds gone by. */
  function Pace(elapsed: int): real {
    if elapsed as real / 30_000_000_000.0 < 0.18 then elapsed as real / 30_000_000_000.0 else 0.18
  }

  /** The move of a drift: the pull of the running effects, capped at 0.45, at that pace, capped at 1.2 percent. */
  function DriftMove(effects: seq<Effect>, now: int, elapsed: int): real {
    Capped(Capped(Bias(Running(effects, now), now), 0.45) * Pace(elapsed), 0.012)
  }

  lemma DriftIsDriftMove(effects: seq<Effect>, now: int, elapsed: int)
    ensures Drift(ActiveBias(Prune(effects, now), now), elapsed) == DriftMove(effects, now, elapsed)
    ensures -0.012 <= DriftMove(effects, now, elapsed) <= 0.012
  {
    PruneIsRunning(effects, now);
    assert elapsed as real / SECOND as real / 30.0 == elapsed as real / 30_000_000_000.0;
    hide Bias, Prune, Running;
  }

  lemma DriftFollowsPull(effects: seq<Effect>, now: int, elapsed: int)
    requires elapsed > 0
    ensures Bias(Running(effects, now), now) >= 0.0 ==> DriftMove(effects, now, elapsed) >= 0.0
    ensures Bias(Running(effects, now), now) <= 0.0 ==> DriftMove(effects, now, elapsed) <= 0.0
  {
    var bias, pace := Capped(Bias(Running(effects, now), now), 0.45), Pace(elapsed);
    assert pace > 0.0;
    assert bias >= 0.0 ==> bias * pace >= 0.0;
    assert bias <= 0.0 ==> bias * pace <= 0.0;
    hide Bias, Running, Pace;
  }

  /** Looking at a price drops what has expired and, once time has passed, lets the rest drift it: with the sign of its
      pull, and to within rounding and a tick of the drift's move. Otherwise the price stays as it is. */
  lemma RefreshFollows(cfg: Ticker, st: MarketState, now: int)
    requires Sound(cfg, st)
    ensures var before, after := st.price.current, Refresh(cfg, st, now).price.current;
      var elapsed := now - st.price.updatedAt;
      && Refresh(cfg, st, now).effects == Running(st.effects, now)
      && (elapsed <= 0 ==> Refresh(cfg, st, now).price == st.price)
      && (after == before ==> Refresh(cfg, st, now).price == st.price)
      && (after != before ==> Refresh(cfg, st, now).price == PricePoint(before, after, now))
      && (elapsed > 0 ==>
            && Near(after, before, DriftMove(st.effects, now, elapsed), cfg.tickSize)
            && Follows(after, before, Bias(Running(st.effects, now), now)))
  {
    var elapsed, price := now - st.price.updatedAt, st.price.current;
    var move := DriftMove(st.effects, now, elapsed);
    RefreshKeepsRunning(cfg, st, now);
    GridIsPositive(price, cfg.tickSize);
    if elapsed > 0 {
      DriftIsDriftMove(st.effects, now, elapsed);
      DriftFollowsPull(st.effects, now, elapsed);
      MoveFollows(price, move, cfg.tickSize);
      MoveIsBounded(price, move, 0.012, cfg.tickSize);
      GridIsPositive(Moved(price, move, cfg.tickSize), cfg.tickSize);
      StayingIsNear(price, cfg.tickSize);
      NoPullNoDrift(st.effects, now, elapsed);
    }
    hide Moved, OnGrid, Slack, Near, Prune, Running, Bias, DriftMove, Drift;
  }

  /** A market that has no price yet starts from the initial one. */
  lemma UnpricedStartsInitial(cfg: Ticker, st: MarketState, now: int)
    requires st.price.current == 0
    ensures Refresh(cfg, st, now) == MarketState(PricePoint(cfg.initialPrice, cfg.initialPrice, now), Running(st.effects, now))
  {
    PruneIsRunning(st.effects, now);
    hide Prune, Running;
  }

  lemma StayingIsNear(price: int, tick: int)
    requires tick > 0
    ensures Near(price, price, 0.0, tick)
  {
  }

  lemma NoPullNoDrift(effects: seq<Effect>, now: int, elapsed: int)
    ensures ActiveBias(Prune(effects, now), now) == 0.0 ==> DriftMove(effects, now, elapsed) == 0.0
  {
    PruneIsRunning(effects, now);
    hide Bias, Prune, Running, Pace;
    var pull := Bias(Running(effects, now), now);
    if ActiveBias(Prune(effects, now), now) == 0.0 {
      assert pull == 0.0 && Capped(pull, 0.45) == 0.0;
      assert Capped(pull, 0.45) * Pace(elapsed) == 0.0;
    }
  }
}
