/** The planner, the preview timers and the buyers, interleaved one locked section at a time. A preview is
    prepared under the lock and handed to its recipients, one after the other, once the lock is released. */
module Feed {
  import opened Orders
  import opened Events
  import opened Intel

  /** What a poll still has to do, in order; it hands out a preview of its own before it goes on. */
  datatype Task =
    | Schedule(event: PlannedEvent)
    | Preview(seqNo: int, asOf: int)
    | HandOut(event: PlannedEvent, recipients: set<string>)
    | Publish(event: PlannedEvent)

  /** A prepared preview and who is still to be notified. */
  datatype Parcel = Parcel(event: PlannedEvent, recipients: set<string>)

  /** Broadcast and Private say that a preview is prepared, for all buyers or for one who has just bought. */
  datatype Entry =
    | Broadcast(event: PlannedEvent, recipients: set<string>, at: int)
    | Private(event: PlannedEvent, player: string, at: int)
    | Delivered(event: PlannedEvent, player: string, at: int)
    | Published(event: PlannedEvent, at: int)

  /** scheduled is the number of the event last scheduled for previews; outbox holds what timers and purchases
      have prepared. */
  datatype World = World(
    events: EventState, intel: IntelState, todo: seq<Task>, outbox: seq<Parcel>, log: seq<Entry>, clock: int,
    scheduled: int)

  function Start(clock: int): World {
    World(EventState(None, 0), IntelState({}, None), [], [], [], clock, 0)
  }

  /** A delivery comes from the poll's own preview, or from a parcel of the outbox. */
  datatype Action =
    | DoPoll(now: int, first: Option<Draw>, second: Option<Draw>)
    | DoTask(now: int)
    | DoTimer(now: int, seqNo: int)
    | DoBuy(now: int, player: string, lead: int)
    | DoDeliver(now: int, parcel: Option<nat>, player: string)

  function Tasks(plans: seq<PlannedEvent>, fire: Option<PlannedEvent>): seq<Task> {
    if plans != [] then [Schedule(plans[0])] + Tasks(plans[1..], fire)
    else if fire.Some? then [Publish(fire.value)] else []
  }

  /** A poll waits until the one before it is done. */
  function PollStep(w: World, interval: int, a: Action): World
    requires a.DoPoll?
  {
    if w.todo != [] then w
    else
      var r := Events.Step(w.events, interval, a.now, a.first, a.second);
      w.(events := r.st, todo := Tasks(r.plans, r.fire))
  }

  function TaskStep(w: World, lead: int, now: int): World {
    if w.todo == [] then w
    else
      var rest := w.todo[1..];
      match w.todo[0]
      case Schedule(e) =>
        w.(intel := Register(w.intel, e), todo := [Preview(e.seqNo, now)] + rest, scheduled := e.seqNo)
      case Preview(seqNo, asOf) =>
        var (intel, recipients) := Prepare(w.intel, lead, seqNo, asOf);
        if recipients.None? then w.(intel := intel, todo := rest)
        else
          var e := w.intel.next.value.event;
          w.(intel := intel, todo := [HandOut(e, recipients.value)] + rest,
             log := w.log + [Broadcast(e, recipients.value, asOf)])
      case HandOut(e, recipients) =>
        if recipients == {} then w.(todo := rest) else w
      case Publish(e) =>
        w.(todo := rest, log := w.log + [Published(e, now)])
  }

  function TimerStep(w: World, lead: int, seqNo: int, now: int): World {
    var (intel, recipients) := Prepare(w.intel, lead, seqNo, now);
    if recipients.None? then w.(intel := intel)
    else
      var e := w.intel.next.value.event;
      w.(intel := intel, outbox := w.outbox + [Parcel(e, recipients.value)],
         log := w.log + [Broadcast(e, recipients.value, now)])
  }

  function BuyStep(w: World, player: string, lead: int, now: int): World {
    var (intel, p) := BuyPreview(w.intel, player, lead, now);
    if p.Dispatched? then
      w.(intel := intel, outbox := w.outbox + [Parcel(p.event, {player})], log := w.log + [Private(p.event, player, now)])
    else w.(intel := intel)
  }

  function DeliverStep(w: World, parcel: Option<nat>, player: string, now: int): World {
    match parcel
    case None =>
      if w.todo != [] && w.todo[0].HandOut? && player in w.todo[0].recipients then
        w.(todo := [w.todo[0].(recipients := w.todo[0].recipients - {player})] + w.todo[1..],
           log := w.log + [Delivered(w.todo[0].event, player, now)])
      else w
    case Some(k) =>
      if k < |w.outbox| && player in w.outbox[k].recipients then
        w.(outbox := w.outbox[k := w.outbox[k].(recipients := w.outbox[k].recipients - {player})],
           log := w.log + [Delivered(w.outbox[k].event, player, now)])
      else w
  }

  /** One locked section, or one notification. */
  function Step(w: World, interval: int, lead: int, a: Action): World {
    var w1 := w.(clock := a.now);
    match a
    case DoPoll(_, _, _) => PollStep(w1, interval, a)
    case DoTask(now) => TaskStep(w1, lead, now)
    case DoTimer(now, seqNo) => TimerStep(w1, lead, seqNo, now)
    case DoBuy(now, player, buyLead) => BuyStep(w1, player, buyLead, now)
    case DoDeliver(now, parcel, player) => DeliverStep(w1, parcel, player, now)
  }

  function Run(w: World, interval: int, lead: int, actions: seq<Action>): World
    decreases |actions|
  {
    if actions == [] then w else Run(Step(w, interval, lead, actions[0]), interval, lead, actions[1..])
  }

  predicate TimesRise(actions: seq<Action>, clock: int) {
    actions == [] || (clock <= actions[0].now && TimesRise(actions[1..], actions[0].now))
  }

  /** Whether a draw succeeds depends on the catalogue and the tickers, which do not change: all do or none does. */
  predicate DrawsAre(a: Action, able: bool) {
    a.DoPoll? ==> a.first.Some? == able && a.second.Some? == able
  }

  predicate SameDraws(actions: seq<Action>, able: bool) {
    forall i :: 0 <= i < |actions| ==> DrawsAre(actions[i], able)
  }

  // ---- Invariants ----

  /** At most one poll is under way: first its new event is scheduled and previewed, then the old one published. */
  ghost predicate Shape(w: World, able: bool) {
    && (w.intel.next.Some? ==> w.intel.next.value.event.seqNo == w.scheduled)
    && (w.events.planned.Some? ==> able && w.events.planned.value.seqNo == w.events.nextSeq)
    && if w.todo == [] then w.scheduled == w.events.nextSeq
       else
         match w.todo[0]
         case Schedule(e) =>
           e.seqNo == w.events.nextSeq == w.scheduled + 1 && LastPublishes(w.todo, w.scheduled)
         case Preview(seqNo, asOf) =>
           w.scheduled == w.events.nextSeq && asOf <= w.clock && LastPublishes(w.todo, w.scheduled - 1)
         case HandOut(e, recipients) =>
           w.scheduled == w.events.nextSeq == e.seqNo && LastPublishes(w.todo, w.scheduled - 1)
         case Publish(e) =>
           w.scheduled == w.events.nextSeq && |w.todo| == 1 && e.seqNo == w.scheduled - 1
  }

  /** Behind the first task there is at most the publication of event seqNo. */
  predicate LastPublishes(todo: seq<Task>, seqNo: int) {
    |todo| == 1 || (|todo| == 2 && todo[1].Publish? && todo[1].event.seqNo == seqNo)
  }

  /** Published events lie below this number. */
  function Frontier(w: World): int {
    if w.todo == [] || !w.todo[|w.todo| - 1].Publish? then w.scheduled else w.todo[|w.todo| - 1].event.seqNo
  }

  ghost predicate PublishedInOrder(w: World) {
    Rising(w.log, Frontier(w))
  }

  ghost predicate Rising(log: seq<Entry>, frontier: int) {
    && (forall i :: 0 <= i < |log| && log[i].Published? ==> log[i].event.seqNo < frontier)
    && (forall i, j :: 0 <= i < j < |log| && log[i].Published? && log[j].Published? ==>
          log[i].event.seqNo < log[j].event.seqNo)
  }

  lemma OneMoreRising(log: seq<Entry>, x: Entry, frontier: int, frontier': int)
    requires Rising(log, frontier) && frontier <= frontier'
    requires x.Published? ==> frontier <= x.event.seqNo < frontier'
    ensures Rising(log + [x], frontier')
  {
  }

  lemma StillRising(log: seq<Entry>, frontier: int, frontier': int)
    requires Rising(log, frontier) && frontier <= frontier'
    ensures Rising(log, frontier')
  {
  }

  /** Broadcasts are about events scheduled so far; the current one is marked once it has had its broadcast. */
  ghost predicate BroadcastOnce(w: World) {
    && (forall i :: 0 <= i < |w.log| && w.log[i].Broadcast? ==>
          w.log[i].event.seqNo < w.scheduled
          || (w.log[i].event.seqNo == w.scheduled && (w.intel.next.None? || w.intel.next.value.previewSent)))
    && (forall i, j :: 0 <= i < j < |w.log| && w.log[i].Broadcast? && w.log[j].Broadcast? ==>
          w.log[i].event.seqNo != w.log[j].event.seqNo)
  }

  predicate IsPreview(e: Entry) {
    e.Broadcast? || e.Private?
  }

  /** No preview of an event is prepared after its publication, and no broadcast before the lead time. */
  ghost predicate PreviewsComeFirst(w: World, lead: int) {
    && InTime(w.log, lead)
    && (w.intel.next.Some? && w.intel.next.value.previewSent ==> w.intel.next.value.event.scheduledAt - lead <= w.clock)
  }

  ghost predicate InTime(log: seq<Entry>, lead: int) {
    && (forall i, j :: 0 <= i < j < |log| && log[i].Published? && IsPreview(log[j]) ==>
          log[i].event.seqNo < log[j].event.seqNo)
    && (forall i :: 0 <= i < |log| && log[i].Broadcast? ==> log[i].at >= log[i].event.scheduledAt - lead)
  }

  lemma OneMoreInTime(log: seq<Entry>, x: Entry, lead: int)
    requires InTime(log, lead)
    requires IsPreview(x) ==> forall i :: 0 <= i < |log| && log[i].Published? ==> log[i].event.seqNo < x.event.seqNo
    requires x.Broadcast? ==> x.at >= x.event.scheduledAt - lead
    ensures InTime(log + [x], lead)
  {
  }

  /** Previews of the current event are for its buyers only, and later events have none yet. */
  ghost predicate Addressed(w: World) {
    forall i :: 0 <= i < |w.log| && IsPreview(w.log[i]) ==>
      w.log[i].event.seqNo <= w.scheduled
      && (w.intel.next.Some? && w.log[i].event == w.intel.next.value.event ==>
            if w.log[i].Broadcast? then w.log[i].recipients <= w.intel.next.value.buyers
            else w.log[i].player in w.intel.next.value.buyers)
  }

  lemma OneTask(event: PlannedEvent, fire: Option<PlannedEvent>)
    ensures Tasks([event], fire) == [Schedule(event)] + (if fire.Some? then [Publish(fire.value)] else [])
    ensures Tasks([], fire) == if fire.Some? then [Publish(fire.value)] else []
  {
    assert [event][1..] == [];
  }

  /** A poll plans at most one event, the next number; it fires one only when it also plans its successor. */
  lemma PollPlansOne(st: EventState, interval: int, now: int, first: Option<Draw>, second: Option<Draw>)
    requires interval > 0 && (st.planned.Some? ==> second.Some? && st.planned.value.seqNo == st.nextSeq)
    ensures var r := Events.Step(st, interval, now, first, second);
      && (r.st.planned.Some? ==> r.st.planned.value.seqNo == r.st.nextSeq && (st.planned.Some? || first.Some?))
      && (r.plans == [] ==> r.fire.None? && r.st.nextSeq == st.nextSeq)
      && (r.plans != [] ==> |r.plans| == 1 && r.plans[0].seqNo == r.st.nextSeq == st.nextSeq + 1)
      && (r.fire.Some? ==> r.fire.value.seqNo == st.nextSeq)
      && Tasks(r.plans, r.fire) == if r.plans == [] then []
                                   else [Schedule(r.plans[0])] + (if r.fire.Some? then [Publish(r.fire.value)] else [])
  {
    var r := Events.Step(st, interval, now, first, second);
    if r.plans != [] {
      assert r.plans == [r.plans[0]];
      OneTask(r.plans[0], r.fire);
    }
  }

  lemma PollKeepsRest(w: World, interval: int, a: Action)
    requires a.DoPoll?
    ensures var w' := PollStep(w, interval, a);
      w'.intel == w.intel && w'.log == w.log && w'.outbox == w.outbox && w'.clock == w.clock && w'.scheduled == w.scheduled
  {
    hide Events.Step, Tasks;
  }

  lemma StepKeepsShape(w: World, interval: int, lead: int, able: bool, a: Action)
    requires Shape(w, able) && interval > 0 && w.clock <= a.now && DrawsAre(a, able)
    ensures Shape(Step(w, interval, lead, a), able)
  {
    if a.DoPoll? {
      PollPlansOne(w.events, interval, a.now, a.first, a.second);
      hide Events.Step, Tasks;
    }
  }

  lemma StepKeepsPublished(w: World, interval: int, lead: int, able: bool, a: Action)
    requires Shape(w, able) && PublishedInOrder(w) && interval > 0 && w.clock <= a.now && DrawsAre(a, able)
    ensures PublishedInOrder(Step(w, interval, lead, a))
  {
    hide Rising;
    var w' := Step(w, interval, lead, a);
    if a.DoPoll? {
      PollPlansOne(w.events, interval, a.now, a.first, a.second);
      hide Events.Step, Tasks;
    }
    if w'.log != w.log {
      OneMoreRising(w.log, w'.log[|w.log|], Frontier(w), Frontier(w'));
    } else {
      StillRising(w.log, Frontier(w), Frontier(w'));
    }
  }

  lemma StepKeepsBroadcast(w: World, interval: int, lead: int, able: bool, a: Action)
    requires Shape(w, able) && BroadcastOnce(w) && w.clock <= a.now
    ensures BroadcastOnce(Step(w, interval, lead, a))
  {
    if a.DoPoll? {
      PollKeepsRest(w.(clock := a.now), interval, a);
      hide PollStep;
    }
  }

  lemma StepKeepsPreviewsFirst(w: World, interval: int, lead: int, able: bool, a: Action)
    requires Shape(w, able) && PublishedInOrder(w) && PreviewsComeFirst(w, lead) && w.clock <= a.now
    ensures PreviewsComeFirst(Step(w, interval, lead, a), lead)
  {
    hide InTime;
    var w' := Step(w, interval, lead, a);
    if a.DoPoll? {
      PollKeepsRest(w.(clock := a.now), interval, a);
      hide PollStep;
    } else if w'.log != w.log {
      OneMoreInTime(w.log, w'.log[|w.log|], lead);
    }
  }

  lemma StepKeepsAddressed(w: World, interval: int, lead: int, able: bool, a: Action)
    requires Shape(w, able) && Addressed(w)
    ensures Addressed(Step(w, interval, lead, a))
  {
    if a.DoPoll? {
      PollKeepsRest(w.(clock := a.now), interval, a);
      hide PollStep;
    }
  }

  ghost predicate Ok(w: World, lead: int, able: bool) {
    Shape(w, able) && PublishedInOrder(w) && BroadcastOnce(w) && PreviewsComeFirst(w, lead) && Addressed(w)
  }

  lemma StepKeepsOk(w: World, interval: int, lead: int, able: bool, a: Action)
    requires Ok(w, lead, able) && interval > 0 && w.clock <= a.now && DrawsAre(a, able)
    ensures Ok(Step(w, interval, lead, a), lead, able) && Step(w, interval, lead, a).clock == a.now
  {
    hide Shape, PublishedInOrder, BroadcastOnce, PreviewsComeFirst, Addressed, Step;
    StepKeepsShape(w, interval, lead, able, a);
    StepKeepsPublished(w, interval, lead, able, a);
    StepKeepsBroadcast(w, interval, lead, able, a);
    StepKeepsPreviewsFirst(w, interval, lead, able, a);
    StepKeepsAddressed(w, interval, lead, able, a);
    ClockOf(w, interval, lead, a);
  }

  lemma ClockOf(w: World, interval: int, lead: int, a: Action)
    ensures Step(w, interval, lead, a).clock == a.now
  {
    hide Events.Step, Tasks;
  }

  lemma {:induction false} RunIsOk(w: World, interval: int, lead: int, able: bool, actions: seq<Action>)
    requires Ok(w, lead, able) && interval > 0 && TimesRise(actions, w.clock) && SameDraws(actions, able)
    ensures Ok(Run(w, interval, lead, actions), lead, able)
    decreases |actions|
  {
    hide Ok, Step;
    if actions != [] {
      StepKeepsOk(w, interval, lead, able, actions[0]);
      RunIsOk(Step(w, interval, lead, actions[0]), interval, lead, able, actions[1..]);
    }
  }

  /** Under any interleaving of polls, timers, purchases and deliveries: no event is broadcast twice, no broadcast
      is prepared before the lead time, no preview of an event is prepared after its publication, and events are
      published in order. */
  lemma PreviewProtocol(clock: int, interval: int, lead: int, able: bool, actions: seq<Action>)
    requires interval > 0 && TimesRise(actions, clock) && SameDraws(actions, able)
    ensures var log := Run(Start(clock), interval, lead, actions).log;
      && (forall i :: 0 <= i < |log| && log[i].Broadcast? ==> log[i].at >= log[i].event.scheduledAt - lead)
      && forall i, j :: 0 <= i < j < |log| ==>
           && (log[i].Broadcast? && log[j].Broadcast? ==> log[i].event.seqNo != log[j].event.seqNo)
           && (log[i].Published? && IsPreview(log[j]) ==> log[i].event.seqNo < log[j].event.seqNo)
           && (log[i].Published? && log[j].Published? ==> log[i].event.seqNo < log[j].event.seqNo)
  {
    RunIsOk(Start(clock), interval, lead, able, actions);
    hide Run, Shape, Addressed;
  }
}
