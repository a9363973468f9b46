/** Who gets a preview, and when: what is prepared reaches its recipients, possibly after the event is public, and
    a buyer is served exactly when a preview falls due for the event while it is still the scheduled one. */
module Previews {
  import opened Orders
  import opened Events
  import opened Intel
  import opened Feed

  predicate Reaches(e: Entry, event: PlannedEvent, player: string) {
    e.event == event && ((e.Broadcast? && player in e.recipients) || (e.Private? && e.player == player))
  }

  /** A preview of the event has been prepared for the player. */
  ghost predicate Served(w: World, event: PlannedEvent, player: string) {
    exists i :: 0 <= i < |w.log| && Reaches(w.log[i], event, player)
  }

  predicate Handed(e: Entry, event: PlannedEvent, player: string) {
    e.Delivered? && e.event == event && e.player == player
  }

  // ---- From preparation to delivery ----

  /** The player is still to be notified about the event. */
  ghost predicate Waiting(w: World, event: PlannedEvent, player: string) {
    || (w.todo != [] && w.todo[0].HandOut? && w.todo[0].event == event && player in w.todo[0].recipients)
    || exists k :: 0 <= k < |w.outbox| && InParcel(w.outbox[k], event, player)
  }

  predicate InParcel(p: Parcel, event: PlannedEvent, player: string) {
    p.event == event && player in p.recipients
  }

  /** The player has been notified about the event. */
  ghost predicate Notified(w: World, event: PlannedEvent, player: string) {
    exists i :: 0 <= i < |w.log| && Handed(w.log[i], event, player)
  }

  /** Entry j, a notification, has its preparation somewhere before it. */
  ghost predicate Prepared(log: seq<Entry>, j: nat)
    requires j < |log| && log[j].Delivered?
  {
    exists i :: 0 <= i < j && Reaches(log[i], log[j].event, log[j].player)
  }

  /** Whoever is waiting or notified was served before, and nobody served is forgotten. */
  ghost predicate Accounted(w: World) {
    && (forall e, p :: Served(w, e, p) <==> Waiting(w, e, p) || Notified(w, e, p))
    && forall j :: 0 <= j < |w.log| && w.log[j].Delivered? ==> Prepared(w.log, j)
  }

  lemma SameAccounts(w: World, w': World)
    requires Accounted(w) && w'.log == w.log && w'.outbox == w.outbox
    requires w'.todo == w.todo
          || ((w.todo != [] && w.todo[0].HandOut? ==> w.todo[0].recipients == {})
              && (w'.todo != [] && w'.todo[0].HandOut? ==> w'.todo[0].recipients == {}))
    ensures Accounted(w')
  {
    forall e, p ensures Served(w', e, p) <==> Waiting(w', e, p) || Notified(w', e, p) {
      assert Served(w, e, p) <==> Waiting(w, e, p) || Notified(w, e, p);
      assert Waiting(w, e, p) <==> Waiting(w', e, p);
    }
  }

  /** What one more log entry changes. */
  lemma OneEntry(w: World, w': World, x: Entry, e: PlannedEvent, p: string)
    requires w'.log == w.log + [x]
    ensures Served(w', e, p) <==> Served(w, e, p) || Reaches(x, e, p)
    ensures Notified(w', e, p) <==> Notified(w, e, p) || Handed(x, e, p)
  {
    if Served(w, e, p) {
      var i :| 0 <= i < |w.log| && Reaches(w.log[i], e, p);
      assert Reaches(w'.log[i], e, p);
    }
    if Notified(w, e, p) {
      var i :| 0 <= i < |w.log| && Handed(w.log[i], e, p);
      assert Handed(w'.log[i], e, p);
    }
    assert w'.log[|w.log|] == x;
  }

  lemma MorePrepared(log: seq<Entry>, x: Entry)
    requires forall j :: 0 <= j < |log| && log[j].Delivered? ==> Prepared(log, j)
    requires x.Delivered? ==> exists i :: 0 <= i < |log| && Reaches(log[i], x.event, x.player)
    ensures forall j :: 0 <= j < |log + [x]| && (log + [x])[j].Delivered? ==> Prepared(log + [x], j)
  {
    var log' := log + [x];
    forall j | 0 <= j < |log'| && log'[j].Delivered? ensures Prepared(log', j) {
      if j < |log| { assert Prepared(log, j); }
      var i :| 0 <= i < j && Reaches(log[i], log'[j].event, log'[j].player);
      assert Reaches(log'[i], log'[j].event, log'[j].player);
    }
  }

  lemma OneMoreParcel(w: World, w': World, parcel: Parcel, e: PlannedEvent, p: string)
    requires w'.outbox == w.outbox + [parcel] && w'.todo == w.todo
    ensures Waiting(w', e, p) <==> Waiting(w, e, p) || InParcel(parcel, e, p)
  {
    if k :| 0 <= k < |w.outbox| && InParcel(w.outbox[k], e, p) {
      assert InParcel(w'.outbox[k], e, p);
    }
    assert w'.outbox[|w.outbox|] == parcel;
  }

  lemma OneMoreHandOut(w: World, w': World, h: Task, e: PlannedEvent, p: string)
    requires w'.outbox == w.outbox && w'.todo != [] && w'.todo[0] == h && h.HandOut?
    requires w.todo == [] || !w.todo[0].HandOut?
    ensures Waiting(w', e, p) <==> Waiting(w, e, p) || (h.event == e && p in h.recipients)
  {
  }

  /** A preparation makes exactly its recipients served and waiting. */
  lemma PreparationAccounts(w: World, w': World, x: Entry, event: PlannedEvent, recipients: set<string>)
    requires Accounted(w) && w'.log == w.log + [x] && IsPreview(x)
    requires forall e, p :: Reaches(x, e, p) <==> e == event && p in recipients
    requires forall e, p :: Waiting(w', e, p) <==> Waiting(w, e, p) || (e == event && p in recipients)
    ensures Accounted(w')
  {
    hide Reaches, Waiting, Served, Notified;
    forall e, p ensures Served(w', e, p) <==> Waiting(w', e, p) || Notified(w', e, p) {
      OneEntry(w, w', x, e, p);
      assert !Handed(x, e, p);
    }
    MorePrepared(w.log, x);
  }

  lemma PublicationAccounts(w: World, w': World, x: Entry)
    requires Accounted(w) && w'.log == w.log + [x] && x.Published? && w'.outbox == w.outbox
    requires w.todo != [] && w.todo[0].Publish? && (w'.todo != [] ==> !w'.todo[0].HandOut?)
    ensures Accounted(w')
  {
    forall e, p ensures Served(w', e, p) <==> Waiting(w', e, p) || Notified(w', e, p) {
      OneEntry(w, w', x, e, p);
      assert Served(w, e, p) <==> Waiting(w, e, p) || Notified(w, e, p);
      assert Waiting(w, e, p) <==> Waiting(w', e, p);
    }
    MorePrepared(w.log, x);
  }

  /** A notification takes one waiting player off the list, and only that one. */
  lemma DeliveryAccounts(w: World, w': World, event: PlannedEvent, player: string, at: int)
    requires Accounted(w) && w'.log == w.log + [Delivered(event, player, at)] && Waiting(w, event, player)
    requires forall e, p :: e != event || p != player ==> (Waiting(w', e, p) <==> Waiting(w, e, p))
    ensures Accounted(w')
  {
    var x := Delivered(event, player, at);
    hide Waiting, Served, Notified;
    forall e, p ensures Served(w', e, p) <==> Waiting(w', e, p) || Notified(w', e, p) {
      OneEntry(w, w', x, e, p);
      assert !Reaches(x, e, p);
    }
    assert Served(w, event, player);
    ServedAt(w, event, player);
    MorePrepared(w.log, x);
  }

  lemma ServedAt(w: World, event: PlannedEvent, player: string)
    requires Served(w, event, player)
    ensures exists i :: 0 <= i < |w.log| && Reaches(w.log[i], event, player)
  {
  }

  lemma OneLessParcel(w: World, w': World, k: nat, player: string, e: PlannedEvent, p: string)
    requires k < |w.outbox| && player in w.outbox[k].recipients && w'.todo == w.todo
    requires w'.outbox == w.outbox[k := w.outbox[k].(recipients := w.outbox[k].recipients - {player})]
    requires e != w.outbox[k].event || p != player
    ensures Waiting(w', e, p) <==> Waiting(w, e, p)
  {
    if i :| 0 <= i < |w.outbox| && InParcel(w.outbox[i], e, p) { assert InParcel(w'.outbox[i], e, p); }
    if i :| 0 <= i < |w'.outbox| && InParcel(w'.outbox[i], e, p) { assert InParcel(w.outbox[i], e, p); }
  }

  lemma TimerAccounts(w: World, lead: int, seqNo: int, now: int)
    requires Accounted(w)
    ensures Accounted(TimerStep(w, lead, seqNo, now))
  {
    var w' := TimerStep(w, lead, seqNo, now);
    var (intel, recipients) := Prepare(w.intel, lead, seqNo, now);
    if recipients.Some? {
      var event := w.intel.next.value.event;
      hide Waiting, Accounted;
      forall e, p ensures Waiting(w', e, p) <==> Waiting(w, e, p) || (e == event && p in recipients.value) {
        OneMoreParcel(w, w', Parcel(event, recipients.value), e, p);
      }
      PreparationAccounts(w, w', Broadcast(event, recipients.value, now), event, recipients.value);
    } else {
      SameAccounts(w, w');
    }
  }

  lemma BuyAccounts(w: World, player: string, lead: int, now: int)
    requires Accounted(w)
    ensures Accounted(BuyStep(w, player, lead, now))
  {
    var w' := BuyStep(w, player, lead, now);
    var (intel, b) := BuyPreview(w.intel, player, lead, now);
    if b.Dispatched? {
      hide Waiting, Accounted, BuyPreview;
      forall e, p ensures Waiting(w', e, p) <==> Waiting(w, e, p) || (e == b.event && p in {player}) {
        OneMoreParcel(w, w', Parcel(b.event, {player}), e, p);
      }
      PreparationAccounts(w, w', Private(b.event, player, now), b.event, {player});
    } else {
      SameAccounts(w, w');
    }
  }

  lemma TaskAccounts(w: World, lead: int, able: bool, now: int)
    requires Accounted(w) && Shape(w, able)
    ensures Accounted(TaskStep(w, lead, now))
  {
    var w' := TaskStep(w, lead, now);
    if w.todo != [] && w.todo[0].Preview? && w'.log != w.log {
      var recipients := w'.todo[0].recipients;
      var event := w.intel.next.value.event;
      hide Waiting, Accounted;
      forall e, p ensures Waiting(w', e, p) <==> Waiting(w, e, p) || (e == event && p in recipients) {
        OneMoreHandOut(w, w', w'.todo[0], e, p);
      }
      PreparationAccounts(w, w', Broadcast(event, recipients, w.todo[0].asOf), event, recipients);
    } else if w.todo != [] && w.todo[0].Publish? {
      PublicationAccounts(w, w', Published(w.todo[0].event, now));
    } else {
      SameAccounts(w, w');
    }
  }

  lemma DeliverAccounts(w: World, parcel: Option<nat>, player: string, now: int)
    requires Accounted(w)
    ensures Accounted(DeliverStep(w, parcel, player, now))
  {
    var w' := DeliverStep(w, parcel, player, now);
    if w' != w {
      match parcel {
        case None =>
          DeliveryAccounts(w, w', w.todo[0].event, player, now);
        case Some(k) =>
          var event := w.outbox[k].event;
          assert InParcel(w.outbox[k], event, player);
          assert Waiting(w, event, player);
          hide Waiting, Accounted;
          forall e, p | e != event || p != player ensures Waiting(w', e, p) <==> Waiting(w, e, p) {
            OneLessParcel(w, w', k, player, e, p);
          }
          DeliveryAccounts(w, w', event, player, now);
      }
    }
  }

  lemma PollAccounts(w: World, interval: int, able: bool, a: Action)
    requires a.DoPoll? && Accounted(w) && Shape(w, able) && interval > 0 && DrawsAre(a, able)
    ensures Accounted(PollStep(w, interval, a))
  {
    PollKeepsRest(w, interval, a);
    PollPlansOne(w.events, interval, a.now, a.first, a.second);
    hide Events.Step, Tasks;
    SameAccounts(w, PollStep(w, interval, a));
  }

  lemma StepAccounts(w: World, interval: int, lead: int, able: bool, a: Action)
    requires Accounted(w) && Shape(w, able) && interval > 0 && DrawsAre(a, able) && w.clock <= a.now
    ensures Accounted(Feed.Step(w, interval, lead, a))
  {
    var w1 := w.(clock := a.now);
    SameAccounts(w, w1);
    assert Shape(w1, able);
    hide Accounted, PollStep, TaskStep, TimerStep, BuyStep, DeliverStep, Shape;
    match a {
      case DoPoll(_, _, _) => PollAccounts(w1, interval, able, a);
      case DoTask(now) => TaskAccounts(w1, lead, able, now);
      case DoTimer(now, seqNo) => TimerAccounts(w1, lead, seqNo, now);
      case DoBuy(now, player, buyLead) => BuyAccounts(w1, player, buyLead, now);
      case DoDeliver(now, parcel, player) => DeliverAccounts(w1, parcel, player, now);
    }
  }

  lemma {:induction false} RunAccounts(w: World, interval: int, lead: int, able: bool, actions: seq<Action>)
    requires Accounted(w) && Ok(w, lead, able) && interval > 0 && Feed.TimesRise(actions, w.clock) && SameDraws(actions, able)
    ensures Accounted(Feed.Run(w, interval, lead, actions))
    decreases |actions|
  {
    hide Accounted, Ok, Feed.Step, Shape;
    if actions != [] {
      OkShape(w, lead, able);
      StepAccounts(w, interval, lead, able, actions[0]);
      StepKeepsOk(w, interval, lead, able, actions[0]);
      RunAccounts(Feed.Step(w, interval, lead, actions[0]), interval, lead, able, actions[1..]);
    }
  }

  lemma OkShape(w: World, lead: int, able: bool)
    requires Ok(w, lead, able)
    ensures Shape(w, able)
  {
  }

  lemma StartAccounts(clock: int)
    ensures Accounted(Start(clock)) && forall lead, able :: Ok(Start(clock), lead, able)
  {
  }

  /** Notification j comes after the publication of its event. */
  ghost predicate Late(log: seq<Entry>, j: nat)
    requires j < |log| && log[j].Delivered?
  {
    exists k :: 0 <= k < j && Publishes(log[k], log[j].event)
  }

  predicate Publishes(x: Entry, event: PlannedEvent) {
    x.Published? && x.event == event
  }

  /** The event of notification j is published between a preparation for its player and the notification. */
  ghost predicate PublishedBetween(log: seq<Entry>, j: nat)
    requires j < |log| && log[j].Delivered?
  {
    exists i, k :: 0 <= i < k < j && Reaches(log[i], log[j].event, log[j].player) && Publishes(log[k], log[j].event)
  }

  /** Over every interleaving: nobody is notified unprepared, nobody prepared for is forgotten, and a notification
      is late exactly when the publication of its event falls between preparation and notification. */
  lemma NotificationsFollowPreparation(
      clock: int, interval: int, lead: int, able: bool, actions: seq<Action>)
    requires interval > 0 && Feed.TimesRise(actions, clock) && SameDraws(actions, able)
    ensures var w := Feed.Run(Start(clock), interval, lead, actions);
      && (forall e, p :: Served(w, e, p) <==> Waiting(w, e, p) || Notified(w, e, p))
      && forall j :: 0 <= j < |w.log| && w.log[j].Delivered? ==>
           Prepared(w.log, j) && (Late(w.log, j) <==> PublishedBetween(w.log, j))
  {
    StartAccounts(clock);
    RunAccounts(Start(clock), interval, lead, able, actions);
    PreviewProtocol(clock, interval, lead, able, actions);
    var log := Feed.Run(Start(clock), interval, lead, actions).log;
    forall j | 0 <= j < |log| && log[j].Delivered? ensures Prepared(log, j) && (Late(log, j) <==> PublishedBetween(log, j)) {
      assert Prepared(log, j);
      if Late(log, j) {
        var i :| 0 <= i < j && Reaches(log[i], log[j].event, log[j].player);
        var k :| 0 <= k < j && Publishes(log[k], log[j].event);
        assert i < k;
      }
    }
  }

  /** What a poll hands out itself is never late. */
  lemma OwnHandOutIsInTime(w: World, interval: int, lead: int, able: bool, now: int, player: string)
    requires Ok(w, lead, able)
    requires Feed.Step(w, interval, lead, DoDeliver(now, None, player)).log != w.log
    ensures var log := Feed.Step(w, interval, lead, DoDeliver(now, None, player)).log;
      && log[..|w.log|] == w.log && |log| == |w.log| + 1 && log[|w.log|].Delivered?
      && !Late(log, |w.log|)
  {
    hide PreviewsComeFirst, BroadcastOnce, Addressed;
  }

  // ---- Which buyers are served ----

  /** The step tries the preview of the scheduled event at a moment when it is due. */
  predicate FallsDue(w: World, lead: int, a: Action, event: PlannedEvent) {
    && w.intel.next.Some? && w.intel.next.value.event == event
    && match a
       case DoTimer(now, seqNo) => seqNo == event.seqNo && event.scheduledAt - lead <= now
       case DoTask(now) =>
         w.todo != [] && w.todo[0].Preview? && w.todo[0].seqNo == event.seqNo && event.scheduledAt - lead <= w.todo[0].asOf
       case _ => false
  }

  /** Some step of the run does. */
  predicate FallsDueIn(w: World, interval: int, lead: int, actions: seq<Action>, event: PlannedEvent)
    decreases |actions|
  {
    actions != []
    && (FallsDue(w, lead, actions[0], event)
        || FallsDueIn(Feed.Step(w, interval, lead, actions[0]), interval, lead, actions[1..], event))
  }

  /** The event is no longer, and never again, the scheduled one. */
  predicate Gone(w: World, event: PlannedEvent) {
    event.seqNo < w.scheduled || (event.seqNo == w.scheduled && w.intel.next.None?)
  }

  lemma StepWhenGone(w: World, interval: int, lead: int, able: bool, a: Action, event: PlannedEvent, player: string)
    requires Shape(w, able) && Gone(w, event)
    ensures Gone(Feed.Step(w, interval, lead, a), event) && !FallsDue(w, lead, a, event)
    ensures Served(Feed.Step(w, interval, lead, a), event, player) <==> Served(w, event, player)
  {
    var w' := Feed.Step(w, interval, lead, a);
    if a.DoPoll? {
      PollKeepsRest(w.(clock := a.now), interval, a);
      hide PollStep;
    } else if w'.log != w.log {
      OneEntry(w, w', w'.log[|w.log|], event, player);
    }
  }

  lemma {:induction false} RunWhenGone(
      w: World, interval: int, lead: int, able: bool, actions: seq<Action>, event: PlannedEvent, player: string)
    requires Ok(w, lead, able) && Gone(w, event)
    requires interval > 0 && Feed.TimesRise(actions, w.clock) && SameDraws(actions, able)
    ensures Served(Feed.Run(w, interval, lead, actions), event, player) <==> Served(w, event, player)
    ensures !FallsDueIn(w, interval, lead, actions, event)
    decreases |actions|
  {
    hide Ok, Feed.Step, Shape, Gone, Served;
    if actions != [] {
      OkShape(w, lead, able);
      StepWhenGone(w, interval, lead, able, actions[0], event, player);
      StepKeepsOk(w, interval, lead, able, actions[0]);
      RunWhenGone(Feed.Step(w, interval, lead, actions[0]), interval, lead, able, actions[1..], event, player);
    }
  }

  /** A buyer of the scheduled event is served by a step exactly when it is the first preview that is due. */
  lemma StepServesBuyer(w: World, interval: int, lead: int, able: bool, a: Action, player: string)
    requires Shape(w, able) && w.intel.next.Some? && player in w.intel.next.value.buyers
    ensures var s := w.intel.next.value; var w' := Feed.Step(w, interval, lead, a);
      && (Served(w', s.event, player)
          <==> Served(w, s.event, player) || (!s.previewSent && FallsDue(w, lead, a, s.event)))
      && (Gone(w', s.event)
          || (w'.intel.next.Some? && w'.intel.next.value.event == s.event && player in w'.intel.next.value.buyers
              && w'.intel.next.value.previewSent == (s.previewSent || FallsDue(w, lead, a, s.event))))
  {
    var s, w' := w.intel.next.value, Feed.Step(w, interval, lead, a);
    if a.DoPoll? {
      PollKeepsRest(w.(clock := a.now), interval, a);
      hide PollStep;
    } else if w'.log != w.log {
      OneEntry(w, w', w'.log[|w.log|], s.event, player);
    }
  }

  /** Over every run, whatever becomes of the event: a buyer it has is served if and only if that was so already,
      or a preview falls due while the event is still scheduled and none has gone out before. */
  lemma {:induction false} BuyerIsServed(
      w: World, interval: int, lead: int, able: bool, actions: seq<Action>, player: string)
    requires Ok(w, lead, able) && w.intel.next.Some? && player in w.intel.next.value.buyers
    requires interval > 0 && Feed.TimesRise(actions, w.clock) && SameDraws(actions, able)
    ensures var s := w.intel.next.value;
      Served(Feed.Run(w, interval, lead, actions), s.event, player)
      <==> Served(w, s.event, player) || (!s.previewSent && FallsDueIn(w, interval, lead, actions, s.event))
    decreases |actions|
  {
    hide Ok, Feed.Step, Shape, Gone, Served, FallsDue;
    if actions != [] {
      var event, w1 := w.intel.next.value.event, Feed.Step(w, interval, lead, actions[0]);
      OkShape(w, lead, able);
      StepServesBuyer(w, interval, lead, able, actions[0], player);
      StepKeepsOk(w, interval, lead, able, actions[0]);
      if Gone(w1, event) {
        RunWhenGone(w1, interval, lead, able, actions[1..], event, player);
      } else {
        BuyerIsServed(w1, interval, lead, able, actions[1..], player);
      }
    }
  }

  lemma NotServedYet(w: World, event: PlannedEvent, player: string)
    requires Addressed(w)
    requires event.seqNo > w.scheduled
          || (w.intel.next.Some? && event == w.intel.next.value.event && player !in w.intel.next.value.buyers)
    ensures !Served(w, event, player)
  {
  }

  /** Whoever waits for an event when it is scheduled is served if and only if a preview of it falls due while it
      is still scheduled. */
  lemma WaiterIsServed(
      w: World, interval: int, lead: int, able: bool, now: int, actions: seq<Action>, player: string)
    requires Ok(w, lead, able) && w.todo != [] && w.todo[0].Schedule? && player in w.intel.pending
    requires interval > 0 && w.clock <= now && Feed.TimesRise(actions, now) && SameDraws(actions, able)
    ensures var event := w.todo[0].event; var w1 := Feed.Step(w, interval, lead, DoTask(now));
      Served(Feed.Run(w1, interval, lead, actions), event, player)
      <==> FallsDueIn(w1, interval, lead, actions, event)
  {
    var event, w1 := w.todo[0].event, Feed.Step(w, interval, lead, DoTask(now));
    PendingBecomeBuyers(w, interval, lead, now);
    NotServedYet(w, event, player);
    StepKeepsOk(w, interval, lead, able, DoTask(now));
    hide Ok, Feed.Step;
    assert Served(w1, event, player) <==> Served(w, event, player);
    BuyerIsServed(w1, interval, lead, able, actions, player);
  }

  /** Everyone waiting for an event is among its buyers from the moment it is scheduled, and nobody waits on. */
  lemma PendingBecomeBuyers(w: World, interval: int, lead: int, now: int)
    requires w.todo != [] && w.todo[0].Schedule?
    ensures var w' := Feed.Step(w, interval, lead, DoTask(now));
      && w'.intel.next == Some(Scheduled(w.todo[0].event, w.intel.pending, false)) && w'.intel.pending == {}
      && w'.log == w.log
  {
  }

  /** A broadcast is about the scheduled event, is for exactly its buyers of that moment, marks it as sent, and puts
      all of them down for notification. */
  lemma BroadcastGoesToBuyers(w: World, interval: int, lead: int, a: Action)
    requires var log := Feed.Step(w, interval, lead, a).log; |log| > |w.log| && log[|w.log|].Broadcast?
    ensures var w' := Feed.Step(w, interval, lead, a); var e := w'.log[|w.log|];
      && w'.log == w.log + [e] && e.recipients != {}
      && w.intel.next == Some(Scheduled(e.event, e.recipients, false))
      && w'.intel.next == Some(Scheduled(e.event, e.recipients, true)) && w'.intel.pending == w.intel.pending
      && forall p :: p in e.recipients ==> Waiting(w', e.event, p)
  {
    if a.DoPoll? {
      PollKeepsRest(w.(clock := a.now), interval, a);
    }
    hide PollStep;
    var w' := Feed.Step(w, interval, lead, a);
    var e := w'.log[|w.log|];
    if w'.outbox != w.outbox {
      forall p | p in e.recipients ensures Waiting(w', e.event, p) {
        assert InParcel(w'.outbox[|w.outbox|], e.event, p);
      }
    }
  }

  /** A purchase that is told to wait although the preview it waits for has already gone out. */
  predicate LeavesOut(w: World, a: Action) {
    a.DoBuy?
    && var st := Current(w.intel, a.now);
       st.next.Some? && st.next.value.previewSent && a.player !in st.next.value.buyers
       && st.next.value.event.scheduledAt - a.lead > a.now
  }

  /** The purchase makes its player a buyer of this event, which is the scheduled one. */
  predicate Joins(w: World, a: Action, event: PlannedEvent) {
    a.DoBuy?
    && var st := Current(w.intel, a.now);
       st.next.Some? && st.next.value.event == event && a.player !in st.next.value.buyers
  }

  predicate AnsweredAtOnce(a: Action, event: PlannedEvent) {
    a.DoBuy? && event.scheduledAt - a.lead <= a.now
  }

  lemma PurchaseServes(w: World, interval: int, lead: int, a: Action, event: PlannedEvent)
    requires Addressed(w) && Joins(w, a, event)
    ensures var w1 := Feed.Step(w, interval, lead, a);
      && w.intel.next.Some? && w.intel.next.value.event == event
      && w1.intel.next.Some? && w1.intel.next.value.event == event && a.player in w1.intel.next.value.buyers
      && w1.intel.next.value.previewSent == w.intel.next.value.previewSent
      && (Served(w1, event, a.player) <==> AnsweredAtOnce(a, event))
  {
    NotServedYet(w, event, a.player);
    var w1 := Feed.Step(w, interval, lead, a);
    if w1.log != w.log {
      OneEntry(w, w1, w1.log[|w.log|], event, a.player);
    }
  }

  /** Whoever buys into a scheduled event is served if and only if the purchase does not leave its player out, and
      either is answered at once or is followed by a preview falling due while the event is still scheduled. */
  lemma PurchaseIsServed(
      w: World, interval: int, lead: int, able: bool, a: Action, actions: seq<Action>, event: PlannedEvent)
    requires Ok(w, lead, able) && Joins(w, a, event)
    requires interval > 0 && w.clock <= a.now && Feed.TimesRise(actions, a.now) && SameDraws(actions, able)
    ensures var w1 := Feed.Step(w, interval, lead, a);
      Served(Feed.Run(w1, interval, lead, actions), event, a.player)
      <==> !LeavesOut(w, a) && (AnsweredAtOnce(a, event) || FallsDueIn(w1, interval, lead, actions, event))
  {
    PurchaseServes(w, interval, lead, a, event);
    StepKeepsOk(w, interval, lead, able, a);
    hide Ok, Feed.Step, Served, FallsDueIn, Feed.Run;
    BuyerIsServed(Feed.Step(w, interval, lead, a), interval, lead, able, actions, a.player);
  }

  /** A purchase with at least the broadcast's lead time never leaves its player out. */
  lemma LongLeadLeavesNobodyOut(w: World, lead: int, able: bool, a: Action)
    requires Ok(w, lead, able) && w.clock <= a.now && (a.DoBuy? ==> a.lead >= lead)
    ensures !LeavesOut(w, a)
  {
    hide Shape, PublishedInOrder, BroadcastOnce, Addressed;
  }
}
