/** Runs that show where the preview protocol ends: late notifications, buyers left without a preview, and what a
    draw that fails after a firing would allow. */
module Schedules {
  import opened Orders
  import opened Events
  import opened Intel
  import opened Feed
  import opened Previews

  const INTERVAL := 100
  const LEAD := 30

  /** One step of a run. */
  lemma Then(w: World, a: Action, rest: seq<Action>)
    ensures Feed.Run(w, INTERVAL, LEAD, [a] + rest) == Feed.Run(Feed.Step(w, INTERVAL, LEAD, a), INTERVAL, LEAD, rest)
    ensures Feed.TimesRise([a] + rest, w.clock) <==> w.clock <= a.now && Feed.TimesRise(rest, a.now)
    ensures forall able :: SameDraws([a] + rest, able) <==> DrawsAre(a, able) && SameDraws(rest, able)
    ensures forall event ::
      FallsDueIn(w, INTERVAL, LEAD, [a] + rest, event)
      <==> FallsDue(w, LEAD, a, event) || FallsDueIn(Feed.Step(w, INTERVAL, LEAD, a), INTERVAL, LEAD, rest, event)
    ensures Feed.Step(w, INTERVAL, LEAD, a).clock == a.now
  {
    ClockOf(w, INTERVAL, LEAD, a);
    hide Feed.Step, FallsDue, DrawsAre;
    assert ([a] + rest)[1..] == rest;
    forall able ensures SameDraws([a] + rest, able) <==> DrawsAre(a, able) && SameDraws(rest, able) {
      assert forall i :: 0 <= i < |rest| ==> ([a] + rest)[i + 1] == rest[i];
      assert ([a] + rest)[0] == a;
    }
  }

  /** A first event scheduled for 100, its preview not yet due, the poll done. */
  function Waiting1(d: Draw): World {
    World(EventState(Some(First(d)), 1), IntelState({}, Some(Scheduled(First(d), {}, false))), [], [], [], 0, 1)
  }

  function First(d: Draw): PlannedEvent { PlannedEvent(1, d, 100) }

  function Opening(d: Draw): seq<Action> {
    [DoPoll(0, Some(d), Some(d))] + ([DoTask(0)] + [DoTask(0)])
  }

  lemma Opens(d: Draw)
    ensures Feed.Run(Start(0), INTERVAL, LEAD, Opening(d)) == Waiting1(d)
    ensures Feed.TimesRise(Opening(d), 0) && SameDraws(Opening(d), true)
  {
    var e := First(d);
    var w1 := World(EventState(Some(e), 1), IntelState({}, None), [Schedule(e)], [], [], 0, 0);
    var w2 := w1.(intel := IntelState({}, Some(Scheduled(e, {}, false))), todo := [Preview(1, 0)], scheduled := 1);
    OneTask(e, None);
    assert Feed.Step(Start(0), INTERVAL, LEAD, DoPoll(0, Some(d), Some(d))) == w1;
    assert Feed.Step(w1, INTERVAL, LEAD, DoTask(0)) == w2;
    assert Feed.Step(w2, INTERVAL, LEAD, DoTask(0)) == Waiting1(d);
    hide Feed.Step, Waiting1;
    Then(Start(0), DoPoll(0, Some(d), Some(d)), [DoTask(0)] + [DoTask(0)]);
    Then(w1, DoTask(0), [DoTask(0)]);
    Then(w2, DoTask(0), []);
    assert [DoTask(0)] == [DoTask(0)] + [];
  }

  lemma {:induction false} Joined(w: World, a: seq<Action>, b: seq<Action>)
    ensures Feed.Run(w, INTERVAL, LEAD, a + b) == Feed.Run(Feed.Run(w, INTERVAL, LEAD, a), INTERVAL, LEAD, b)
    ensures Feed.TimesRise(a, w.clock) && Feed.TimesRise(b, Feed.Run(w, INTERVAL, LEAD, a).clock)
        ==> Feed.TimesRise(a + b, w.clock)
    ensures forall able :: SameDraws(a, able) && SameDraws(b, able) ==> SameDraws(a + b, able)
    decreases |a|
  {
    hide Feed.Step;
    if a == [] {
      assert a + b == b;
    } else {
      Then(w, a[0], a[1..]);
      Then(w, a[0], a[1..] + b);
      assert [a[0]] + a[1..] == a && [a[0]] + (a[1..] + b) == a + b;
      Joined(Feed.Step(w, INTERVAL, LEAD, a[0]), a[1..], b);
    }
  }

  lemma AfterOpening(d: Draw, rest: seq<Action>)
    ensures Feed.Run(Start(0), INTERVAL, LEAD, Opening(d) + rest) == Feed.Run(Waiting1(d), INTERVAL, LEAD, rest)
    ensures Feed.TimesRise(rest, 0) ==> Feed.TimesRise(Opening(d) + rest, 0)
    ensures SameDraws(rest, true) ==> SameDraws(Opening(d) + rest, true)
  {
    Opens(d);
    Joined(Start(0), Opening(d), rest);
    hide Opening;
  }

  /** The second poll fires the first event and schedules its successor before it publishes. */
  function Second(d: Draw): PlannedEvent { PlannedEvent(2, d, 200) }

  function Closing(d: Draw): seq<Action> {
    [DoPoll(100, Some(d), Some(d))] + ([DoTask(100)] + ([DoTask(100)] + [DoTask(100)]))
  }

  lemma Closes(d: Draw, w: World)
    requires w.events == EventState(Some(First(d)), 1) && w.todo == [] && w.clock <= 100
    ensures Feed.Run(w, INTERVAL, LEAD, Closing(d))
         == w.(events := EventState(Some(Second(d)), 2),
               intel := IntelState({}, Some(Scheduled(Second(d), w.intel.pending, false))),
               log := w.log + [Published(First(d), 100)], clock := 100, scheduled := 2)
    ensures Feed.TimesRise(Closing(d), w.clock) && SameDraws(Closing(d), true)
    ensures !FallsDueIn(w, INTERVAL, LEAD, Closing(d), First(d))
  {
    var e1, e2 := First(d), Second(d);
    var w1 := w.(events := EventState(Some(e2), 2), todo := [Schedule(e2), Publish(e1)], clock := 100);
    var w2 := w1.(intel := IntelState({}, Some(Scheduled(e2, w.intel.pending, false))),
                  todo := [Preview(2, 100), Publish(e1)], scheduled := 2);
    var w3 := w2.(todo := [Publish(e1)]);
    var w4 := w3.(todo := [], log := w.log + [Published(e1, 100)]);
    OneTask(e2, Some(e1));
    assert Events.Step(w.events, INTERVAL, 100, Some(d), Some(d))
        == StepResult(EventState(Some(e2), 2), [] + [e2], Some(e1)) && [] + [e2] == [e2];
    assert Feed.Step(w, INTERVAL, LEAD, DoPoll(100, Some(d), Some(d))) == w1;
    assert Feed.Step(w1, INTERVAL, LEAD, DoTask(100)) == w2;
    assert Feed.Step(w2, INTERVAL, LEAD, DoTask(100)) == w3;
    assert Feed.Step(w3, INTERVAL, LEAD, DoTask(100)) == w4;
    hide Feed.Step;
    Then(w, DoPoll(100, Some(d), Some(d)), [DoTask(100)] + ([DoTask(100)] + [DoTask(100)]));
    Then(w1, DoTask(100), [DoTask(100)] + [DoTask(100)]);
    Then(w2, DoTask(100), [DoTask(100)]);
    Then(w3, DoTask(100), []);
    assert [DoTask(100)] == [DoTask(100)] + [];
  }

  /** A purchase just before the event is answered at once, and its player notified after the event is public. */
  lemma NotificationCanBeLate(d: Draw) returns (actions: seq<Action>)
    ensures Feed.TimesRise(actions, 0) && SameDraws(actions, true)
    ensures var log := Feed.Run(Start(0), INTERVAL, LEAD, actions).log;
      && log == [Private(First(d), "a", 99), Published(First(d), 100), Delivered(First(d), "a", 101)]
      && Late(log, 2)
  {
    var e, buy, deliver := First(d), DoBuy(99, "a", 30), DoDeliver(101, Some(0), "a");
    var w1 := Waiting1(d).(intel := IntelState({}, Some(Scheduled(e, {"a"}, false))), outbox := [Parcel(e, {"a"})],
                           log := [Private(e, "a", 99)], clock := 99);
    var nobody: set<string> := {};
    assert nobody + {"a"} == {"a"};
    assert Feed.Step(Waiting1(d), INTERVAL, LEAD, buy) == w1;
    Closes(d, w1);
    var w2 := Feed.Run(w1, INTERVAL, LEAD, Closing(d));
    var log := [Private(e, "a", 99), Published(e, 100), Delivered(e, "a", 101)];
    assert Feed.Step(w2, INTERVAL, LEAD, deliver).log == log;
    assert Publishes(log[1], e);
    var tail := Closing(d) + [deliver];
    actions := Opening(d) + ([buy] + tail);
    hide Feed.Step, Closing, Opening, Waiting1;
    Then(w2, deliver, []);
    assert [deliver] == [deliver] + [];
    Joined(w1, Closing(d), [deliver]);
    Then(Waiting1(d), buy, tail);
    ClockAtOpening(d);
    AfterOpening(d, [buy] + tail);
  }

  lemma ClockAtOpening(d: Draw)
    ensures Waiting1(d).clock == 0 && Waiting1(d).todo == []
    ensures Waiting1(d).events == EventState(Some(First(d)), 1) && Waiting1(d).log == []
  {
  }

  /** A purchase with the full lead time, and the event replaced before any preview of it was tried. */
  lemma Replaced(d: Draw) returns (actions: seq<Action>, w: World)
    ensures actions == Opening(d) + ([DoBuy(10, "a", LEAD)] + Closing(d))
    ensures Feed.TimesRise(actions, 0) && SameDraws(actions, true)
    ensures w == Feed.Run(Start(0), INTERVAL, LEAD, actions) && w.clock == 100
    ensures w.log == [Published(First(d), 100)] && Gone(w, First(d))
  {
    var e, buy := First(d), DoBuy(10, "a", LEAD);
    var nobody: set<string> := {};
    assert nobody + {"a"} == {"a"};
    var w1 := Waiting1(d).(intel := IntelState({}, Some(Scheduled(e, {"a"}, false))), clock := 10);
    assert Feed.Step(Waiting1(d), INTERVAL, LEAD, buy) == w1;
    Closes(d, w1);
    w := Feed.Run(w1, INTERVAL, LEAD, Closing(d));
    actions := Opening(d) + ([buy] + Closing(d));
    hide Feed.Step, Closing, Opening, Waiting1;
    Then(Waiting1(d), buy, Closing(d));
    ClockAtOpening(d);
    AfterOpening(d, [buy] + Closing(d));
  }

  lemma JoinsWithFullLead(d: Draw)
    ensures Joins(Waiting1(d), DoBuy(10, "a", LEAD), First(d)) && !LeavesOut(Waiting1(d), DoBuy(10, "a", LEAD))
  {
  }

  /** Its player, armed and not left out, is never served. */
  lemma ReplacedBeforePreview(d: Draw) returns (actions: seq<Action>)
    ensures actions == Opening(d) + ([DoBuy(10, "a", LEAD)] + Closing(d))
    ensures Feed.TimesRise(actions, 0) && SameDraws(actions, true)
    ensures var w0 := Feed.Run(Start(0), INTERVAL, LEAD, Opening(d)); var buy := DoBuy(10, "a", LEAD);
      Joins(w0, buy, First(d)) && !LeavesOut(w0, buy)
    ensures forall later :: Feed.TimesRise(later, 100) && SameDraws(later, true) ==>
      !Served(Feed.Run(Feed.Run(Start(0), INTERVAL, LEAD, actions), INTERVAL, LEAD, later), First(d), "a")
  {
    var w;
    Opens(d);
    JoinsWithFullLead(d);
    actions, w := Replaced(d);
    assert !Served(w, First(d), "a");
    StartIsOk();
    hide Feed.Step, Closing, Opening, Waiting1, Ok, Served, Gone, Joins, LeavesOut;
    RunIsOk(Start(0), INTERVAL, LEAD, true, actions);
    forall later | Feed.TimesRise(later, 100) && SameDraws(later, true)
      ensures !Served(Feed.Run(w, INTERVAL, LEAD, later), First(d), "a")
    {
      RunWhenGone(w, INTERVAL, LEAD, true, later, First(d), "a");
    }
  }

  lemma StartIsOk()
    ensures Ok(Start(0), LEAD, true)
  {
  }

  /** With a shorter lead time of its own, a purchase can join a preview that has already gone out: it goes out to
      nobody at 70, and a purchase at 75 with a lead of 10 is armed for good. */
  lemma ShortLeadLeavesOut(d: Draw) returns (actions: seq<Action>)
    ensures Feed.TimesRise(actions, 0) && SameDraws(actions, true)
    ensures var w := Feed.Run(Start(0), INTERVAL, LEAD, actions);
      && w.intel.next == Some(Scheduled(First(d), {"late"}, true))
      && forall later :: Feed.TimesRise(later, 75) && SameDraws(later, true) ==>
           !Served(Feed.Run(w, INTERVAL, LEAD, later), First(d), "late")
  {
    var w;
    actions, w := LeftOut(d);
    assert !Served(w, First(d), "late");
    StartIsOk();
    hide Feed.Step, Opening, Ok, Served;
    RunIsOk(Start(0), INTERVAL, LEAD, true, actions);
    forall later | Feed.TimesRise(later, 75) && SameDraws(later, true)
      ensures !Served(Feed.Run(w, INTERVAL, LEAD, later), First(d), "late")
    {
      BuyerIsServed(w, INTERVAL, LEAD, true, later, "late");
    }
  }

  lemma LeftOut(d: Draw) returns (actions: seq<Action>, w: World)
    ensures Feed.TimesRise(actions, 0) && SameDraws(actions, true)
    ensures w == Feed.Run(Start(0), INTERVAL, LEAD, actions) && w.clock == 75 && w.log == []
    ensures w.intel.next == Some(Scheduled(First(d), {"late"}, true))
  {
    var e, timer, buy := First(d), DoTimer(70, 1), DoBuy(75, "late", 10);
    var w1 := Waiting1(d).(intel := IntelState({}, Some(Scheduled(e, {}, true))), clock := 70);
    var nobody: set<string> := {};
    assert nobody + {"late"} == {"late"};
    w := w1.(intel := IntelState({}, Some(Scheduled(e, {"late"}, true))), clock := 75);
    assert Feed.Step(Waiting1(d), INTERVAL, LEAD, timer) == w1;
    assert Feed.Step(w1, INTERVAL, LEAD, buy) == w;
    actions := Opening(d) + ([timer] + [buy]);
    hide Feed.Step, Opening;
    Then(Waiting1(d), timer, [buy]);
    Then(w1, buy, []);
    assert [buy] == [buy] + [];
    ClockAtOpening(d);
    AfterOpening(d, [timer] + [buy]);
  }

  /** If a draw could fail right after a firing, no successor would replace the fired event, and a late timer could
      prepare its preview after it is public. */
  lemma FailedDrawWouldAllowLatePreview(d: Draw) returns (actions: seq<Action>)
    ensures Feed.TimesRise(actions, 0) && !SameDraws(actions, true) && !SameDraws(actions, false)
    ensures Feed.Run(Start(0), INTERVAL, LEAD, actions).log
         == [Published(First(d), 100), Broadcast(First(d), {"a"}, 100)]
  {
    var e, buy, poll, task, timer := First(d), DoBuy(10, "a", 30), DoPoll(100, None, None), DoTask(100), DoTimer(100, 1);
    var nobody: set<string> := {};
    assert nobody + {"a"} == {"a"};
    var w1 := Waiting1(d).(intel := IntelState({}, Some(Scheduled(e, {"a"}, false))), clock := 10);
    var w2 := w1.(events := EventState(None, 1), todo := [Publish(e)], clock := 100);
    var w3 := w2.(todo := [], log := [Published(e, 100)]);
    OneTask(e, Some(e));
    assert Feed.Step(Waiting1(d), INTERVAL, LEAD, buy) == w1;
    assert Feed.Step(w1, INTERVAL, LEAD, poll) == w2;
    assert Feed.Step(w2, INTERVAL, LEAD, task) == w3;
    assert Feed.Step(w3, INTERVAL, LEAD, timer).log == [Published(e, 100), Broadcast(e, {"a"}, 100)];
    actions := Opening(d) + ([buy] + ([poll] + ([task] + [timer])));
    assert actions[0] == DoPoll(0, Some(d), Some(d)) && actions[4] == poll;
    hide Feed.Step, Opening;
    Then(Waiting1(d), buy, [poll] + ([task] + [timer]));
    Then(w1, poll, [task] + [timer]);
    Then(w2, task, [timer]);
    Then(w3, timer, []);
    assert [timer] == [timer] + [];
    ClockAtOpening(d);
    AfterOpening(d, [buy] + ([poll] + ([task] + [timer])));
  }
}
