/** Planned market events: one at a time, each an interval ahead, fired in order. */
module Events {
  import opened Orders

  /** What the random choice of a definition, symbol and multiplier comes to. */
  datatype Draw = Draw(name: string, message: string, global: bool, symbol: string, multiplierPct: int, duration: int)

  /** seqNo is the number in the event's id. */
  datatype PlannedEvent = PlannedEvent(seqNo: int, draw: Draw, scheduledAt: int)

  datatype EventState = EventState(planned: Option<PlannedEvent>, nextSeq: int)

  /** What a step hands on: the events to announce to the preview scheduler, and the one to fire. */
  datatype StepResult = StepResult(st: EventState, plans: seq<PlannedEvent>, fire: Option<PlannedEvent>)

  /** Plans the next event unless no definition or no symbol can be drawn. */
  function Plan(st: EventState, interval: int, now: int, draw: Option<Draw>): EventState {
    match draw
    case None => st
    case Some(d) => EventState(Some(PlannedEvent(st.nextSeq + 1, d, now + interval)), st.nextSeq + 1)
  }

  function Announced(st: EventState): seq<PlannedEvent> {
    if st.planned.Some? then [st.planned.value] else []
  }

  function Step(st: EventState, interval: int, now: int, first: Option<Draw>, second: Option<Draw>): StepResult {
    var st1 := if st.planned.None? then Plan(st, interval, now, first) else st;
    var plans := if st.planned.None? then Announced(st1) else [];
    if st1.planned.Some? && now >= st1.planned.value.scheduledAt then
      var st2 := Plan(st1.(planned := None), interval, now, second);
      StepResult(st2, plans + Announced(st2), st1.planned)
    else StepResult(st1, plans, None)
  }

  // ---- Choosing a definition ----

  function Chance(c: real): real { if c > 0.0 then c else 0.0 }

  function TotalChance(chances: seq<real>): real {
    if chances == [] then 0.0 else Chance(chances[0]) + TotalChance(chances[1..])
  }

  /** The first definition at which the chances so far reach the roll; definitions without a chance are skipped. */
  function Choose(chances: seq<real>, roll: real): Option<nat> {
    if chances == [] then None
    else if chances[0] > 0.0 && roll <= chances[0] then Some(0)
    else
      match Choose(chances[1..], roll - Chance(chances[0]))
      case None => None
      case Some(i) => Some(i + 1)
  }

  lemma {:induction false} ChooseFinds(chances: seq<real>, roll: real)
    requires 0.0 <= roll < TotalChance(chances)
    ensures Choose(chances, roll).Some? && Choose(chances, roll).value < |chances|
    ensures chances[Choose(chances, roll).value] > 0.0
  {
    if !(chances[0] > 0.0 && roll <= chances[0]) { ChooseFinds(chances[1..], roll - Chance(chances[0])); }
  }

  /** The roll lies above the chances of all definitions before the chosen one, unless those have none, and within the
      chances up to it. */
  lemma {:induction false} ChooseReaches(chances: seq<real>, roll: real)
    requires 0.0 <= roll && Choose(chances, roll).Some?
    ensures var i := Choose(chances, roll).value;
      && i < |chances| && (TotalChance(chances[..i]) < roll || TotalChance(chances[..i]) == 0.0)
      && roll <= TotalChance(chances[..i]) + chances[i]
  {
    if chances[0] > 0.0 && roll <= chances[0] {
      assert chances[..0] == [];
    } else {
      ChooseReaches(chances[1..], roll - Chance(chances[0]));
      var j := Choose(chances[1..], roll - Chance(chances[0])).value;
      assert chances[..j + 1][1..] == chances[1..][..j] && chances[..j + 1][0] == chances[0];
      TotalIsPositive(chances[1..][..j]);
    }
  }

  lemma {:induction false} TotalIsPositive(chances: seq<real>)
    ensures TotalChance(chances) >= 0.0
    ensures TotalChance(chances) > 0.0 <==> exists i :: 0 <= i < |chances| && chances[i] > 0.0
  {
    if chances != [] {
      TotalIsPositive(chances[1..]);
      if k :| 0 <= k < |chances| && chances[k] > 0.0 {
        if k > 0 { assert chances[1..][k - 1] > 0.0; }
      }
    }
  }

  /** A random fraction of the total. */
  function Roll(fraction: real, total: real): (roll: real)
    requires 0.0 <= fraction < 1.0 && total > 0.0
    ensures 0.0 <= roll < total
  {
    assert (1.0 - fraction) * total > 0.0;
    fraction * total
  }

  /** The definition a random fraction chooses, if any has a chance. */
  function Chosen(chances: seq<real>, fraction: real): (index: Option<nat>)
    requires 0.0 <= fraction < 1.0
    ensures index.Some? <==> exists i :: 0 <= i < |chances| && chances[i] > 0.0
    ensures index.Some? ==> index.value < |chances| && chances[index.value] > 0.0
  {
    TotalIsPositive(chances);
    if TotalChance(chances) <= 0.0 then None
    else
      ChooseFinds(chances, Roll(fraction, TotalChance(chances)));
      Choose(chances, Roll(fraction, TotalChance(chances)))
  }

  /** Whether planning can succeed: some definition has a chance, and there is a ticker to draw. */
  predicate Able(chances: seq<real>, tickers: nat) {
    tickers > 0 && exists i :: 0 <= i < |chances| && chances[i] > 0.0
  }

  /** A random fraction, and what each definition would come to with the other random choices. */
  datatype Chances = Chances(fraction: real, draws: seq<Draw>)

  class EventEngine {
    const interval: int
    const chances: seq<real>
    const tickers: nat
    var planned: Option<PlannedEvent>
    var nextSeq: int

    constructor (interval: int, chances: seq<real>, tickers: nat)
      ensures this.interval == (if interval <= 0 then 30_000_000_000 else interval)
      ensures this.chances == chances && this.tickers == tickers
      ensures State() == EventState(None, 0)
    {
      this.interval := if interval <= 0 then 30_000_000_000 else interval;
      this.chances, this.tickers := chances, tickers;
      planned, nextSeq := None, 0;
    }

    function State(): EventState
      reads this
    {
      EventState(planned, nextSeq)
    }

    predicate Fits(c: Chances) {
      0.0 <= c.fraction < 1.0 && |c.draws| == |chances|
    }

    /** What a plan made with these random choices is drawn from, if anything. */
    function Drawn(c: Chances): (d: Option<Draw>)
      requires Fits(c)
      ensures d.Some? <==> Able(chances, tickers)
    {
      var index := Chosen(chances, c.fraction);
      if index.None? || tickers == 0 then None else Some(c.draws[index.value])
    }

    /** Adds the chances up and walks through them; it never falls off the end. */
    method ChooseDefinition(c: Chances) returns (index: Option<nat>)
      requires Fits(c)
      ensures index == Chosen(chances, c.fraction)
    {
      hide Roll;
      var total := 0.0;
      for i := 0 to |chances|
        invariant total + TotalChance(chances[i..]) == TotalChance(chances)
      {
        assert chances[i..][1..] == chances[i + 1..];
        if chances[i] > 0.0 {
          total := total + chances[i];
        }
      }
      if total <= 0.0 {
        return None;
      }
      var roll := Roll(c.fraction, total);
      ChooseFinds(chances, roll);
      ghost var goal := Choose(chances, roll).value;
      var cumulative := 0.0;
      assert chances[0..] == chances;
      for i := 0 to |chances|
        invariant Choose(chances[i..], roll - cumulative).Some?
        invariant i + Choose(chances[i..], roll - cumulative).value == goal
      {
        assert chances[i..][1..] == chances[i + 1..];
        if chances[i] <= 0.0 {
          continue;
        }
        cumulative := cumulative + chances[i];
        if roll <= cumulative {
          return Some(i);
        }
      }
      assert false;
    }

    method PlanNext(now: int, c: Chances) returns (event: Option<PlannedEvent>)
      requires planned == None && Fits(c)
      modifies this`nextSeq
      ensures EventState(event, nextSeq) == Plan(old(State()), interval, now, Drawn(c))
    {
      hide Chosen;
      var index := ChooseDefinition(c);
      if index.None? || tickers == 0 {
        return None;
      }
      nextSeq := nextSeq + 1;
      event := Some(PlannedEvent(nextSeq, c.draws[index.value], now + interval));
    }

    method Tick(now: int, first: Chances, second: Chances) returns (plans: seq<PlannedEvent>, fire: Option<PlannedEvent>)
      requires Fits(first) && Fits(second)
      modifies this
      ensures StepResult(State(), plans, fire) == Step(old(State()), interval, now, Drawn(first), Drawn(second))
    {
      plans, fire := [], None;
      if planned.None? {
        var event := PlanNext(now, first);
        if event.Some? {
          planned := event;
          plans := plans + [event.value];
        }
      }
      if planned.Some? && now >= planned.value.scheduledAt {
        fire := planned;
        planned := None;
        var event := PlanNext(now, second);
        if event.Some? {
          planned := event;
          plans := plans + [event.value];
        }
      }
    }
  }

  // ---- Runs ----

  datatype Poll = Poll(now: int, first: Option<Draw>, second: Option<Draw>)

  datatype Firing = Firing(event: PlannedEvent, at: int)

  datatype History = History(st: EventState, clock: int, fired: seq<Firing>)

  function After(h: History, interval: int, p: Poll): History {
    var r := Step(h.st, interval, p.now, p.first, p.second);
    History(r.st, p.now, if r.fire.Some? then h.fired + [Firing(r.fire.value, p.now)] else h.fired)
  }

  predicate TimesRise(polls: seq<Poll>, clock: int) {
    polls == [] || (clock <= polls[0].now && TimesRise(polls[1..], polls[0].now))
  }

  function Run(h: History, interval: int, polls: seq<Poll>): History
    decreases |polls|
  {
    if polls == [] then h else Run(After(h, interval, polls[0]), interval, polls[1..])
  }

  /** Fired events are numbered from one without gaps, none fired early, each was planned an interval or more
      after the one before fired, and a planned event is the next number and lies in the future. */
  ghost predicate Regular(h: History, interval: int) {
    && (forall i :: 0 <= i < |h.fired| ==>
          h.fired[i].event.seqNo == i + 1 && h.fired[i].at >= h.fired[i].event.scheduledAt && h.fired[i].at <= h.clock)
    && (forall i :: 0 < i < |h.fired| ==> h.fired[i].event.scheduledAt >= h.fired[i - 1].at + interval)
    && (match h.st.planned
        case None => h.st.nextSeq == |h.fired|
        case Some(e) =>
          && e.seqNo == h.st.nextSeq == |h.fired| + 1 && e.scheduledAt > h.clock
          && (h.fired != [] ==> e.scheduledAt >= h.fired[|h.fired| - 1].at + interval))
  }

  lemma PollKeepsRegular(h: History, interval: int, p: Poll)
    requires Regular(h, interval) && interval > 0 && p.now >= h.clock
    ensures Regular(After(h, interval, p), interval)
  {
    PollCases(h.st, interval, p);
    var r := Step(h.st, interval, p.now, p.first, p.second);
    hide Step;
    if r.fire.Some? {
      var h1 := After(h, interval, p);
      assert forall i :: 0 <= i < |h.fired| ==> h1.fired[i] == h.fired[i];
    }
  }

  /** A poll fires the event that was planned and due, or leaves it, or plans a first one; whatever it plans is an
      interval ahead. */
  lemma PollCases(st: EventState, interval: int, p: Poll)
    requires interval > 0
    ensures var r := Step(st, interval, p.now, p.first, p.second);
      && (r.fire.Some? ==> r.fire == st.planned && p.now >= r.fire.value.scheduledAt)
      && (r.fire.None? && st.planned.Some? ==> r.st == st && p.now < st.planned.value.scheduledAt)
      && (r.fire.Some? || st.planned.None? ==>
            if r.st.planned.Some? then
              r.st.planned.value.scheduledAt == p.now + interval && r.st.planned.value.seqNo == r.st.nextSeq == st.nextSeq + 1
            else r.st.nextSeq == st.nextSeq)
  {
  }

  /** What a poll does to the plan, in full: it plans with the first draw when nothing is planned, an interval ahead under
      the next number; it fires what was planned and is due, and plans the successor with the second draw; it announces
      just what it plans. */
  lemma PollInFull(st: EventState, interval: int, p: Poll)
    requires interval > 0
    ensures var r := Step(st, interval, p.now, p.first, p.second);
      var due := st.planned.Some? && p.now >= st.planned.value.scheduledAt;
      var draw := if st.planned.None? then p.first else if due then p.second else None;
      && r.fire == (if due then st.planned else None)
      && (draw.Some? ==>
            && r.st.nextSeq == st.nextSeq + 1
            && r.st.planned == Some(PlannedEvent(st.nextSeq + 1, draw.value, p.now + interval))
            && r.plans == [r.st.planned.value])
      && (draw.None? ==>
            r.st.nextSeq == st.nextSeq && r.st.planned == (if due then None else st.planned) && r.plans == [])
  {
  }

  /** Every run of polls at non-decreasing times is regular. */
  lemma {:induction false} RunIsRegular(h: History, interval: int, polls: seq<Poll>)
    requires Regular(h, interval) && interval > 0 && TimesRise(polls, h.clock)
    ensures Regular(Run(h, interval, polls), interval)
    decreases |polls|
  {
    hide Regular, Step;
    if polls != [] {
      PollKeepsRegular(h, interval, polls[0]);
      RunIsRegular(After(h, interval, polls[0]), interval, polls[1..]);
    }
  }

  lemma {:induction false} SpacedOut(h: History, interval: int, i: nat, j: nat)
    requires Regular(h, interval) && interval > 0 && i <= j < |h.fired|
    ensures h.fired[j].at >= h.fired[i].at + (j - i) * interval
    decreases j - i
  {
    if i < j {
      SpacedOut(h, interval, i, j - 1);
      assert (j - i) * interval == (j - 1 - i) * interval + interval;
    }
  }

  /** From a fresh engine: events fire exactly once, in order of planning, never early, and any two of them as many
      intervals apart as their numbers; the only planned event not yet fired is the next one, and lies ahead. */
  lemma EventsFireInOrder(interval: int, start: int, polls: seq<Poll>)
    requires interval > 0 && TimesRise(polls, start)
    ensures var h := Run(History(EventState(None, 0), start, []), interval, polls);
      && (forall i :: 0 <= i < |h.fired| ==>
            h.fired[i].event.seqNo == i + 1 && h.fired[i].at >= h.fired[i].event.scheduledAt)
      && (forall i, j :: 0 <= i <= j < |h.fired| ==> h.fired[j].at >= h.fired[i].at + (j - i) * interval)
      && h.st.nextSeq == |h.fired| + (if h.st.planned.Some? then 1 else 0)
      && (h.st.planned.Some? ==> h.st.planned.value.seqNo == h.st.nextSeq && h.st.planned.value.scheduledAt > h.clock)
  {
    var h := Run(History(EventState(None, 0), start, []), interval, polls);
    RunIsRegular(History(EventState(None, 0), start, []), interval, polls);
    hide Run;
    forall i, j | 0 <= i <= j < |h.fired| ensures h.fired[j].at >= h.fired[i].at + (j - i) * interval {
      SpacedOut(h, interval, i, j);
    }
  }
}
