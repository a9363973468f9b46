/** Insider previews: who has bought a look at the next event, and when it is sent. */
module Intel {
  import opened Orders
  import opened Events

  /** The event buyers are waiting for. */
  datatype Scheduled = Scheduled(event: PlannedEvent, buyers: set<string>, previewSent: bool)

  datatype IntelState = IntelState(pending: set<string>, next: Option<Scheduled>)

  /** A purchase is refused, or arms the buyer, or is answered with the preview at once. */
  datatype Purchase = AlreadyArmed | Armed | Dispatched(event: PlannedEvent)

  /** The next event takes over everyone who was waiting for one. */
  function Register(st: IntelState, event: PlannedEvent): IntelState {
    IntelState({}, Some(Scheduled(event, st.pending, false)))
  }

  /** The buyers to send the preview of an event to, if it is time and they have not had it. */
  function Prepare(st: IntelState, lead: int, seqNo: int, now: int): (IntelState, Option<set<string>>) {
    if st.next.None? || st.next.value.event.seqNo != seqNo || st.next.value.previewSent
       || st.next.value.event.scheduledAt - lead > now then
      (st, None)
    else
      var sent := st.(next := Some(st.next.value.(previewSent := true)));
      (sent, if st.next.value.buyers == {} then None else Some(st.next.value.buyers))
  }

  /** An event whose time has come is no longer the next one. */
  function Current(st: IntelState, now: int): IntelState {
    if st.next.Some? && now >= st.next.value.event.scheduledAt then st.(next := None) else st
  }

  /** A purchase of a definition with its own lead time. */
  function BuyPreview(st: IntelState, player: string, lead: int, now: int): (IntelState, Purchase) {
    var st1 := Current(st, now);
    match st1.next
    case None =>
      if player in st1.pending then (st1, AlreadyArmed) else (st1.(pending := st1.pending + {player}), Armed)
    case Some(s) =>
      if player in s.buyers then (st1, AlreadyArmed)
      else
        (st1.(next := Some(s.(buyers := s.buyers + {player}))),
         if s.event.scheduledAt - lead > now then Armed else Dispatched(s.event))
  }

  /** What a purchase is answered and what it changes. A scheduled event counts until its time has come. Whoever waits for
      it, or for the next one when there is none, is refused and nothing changes for them; everyone else joins those
      waiting, and has the preview at once if and only if there is an event whose time is no further off than the lead. */
  lemma PurchaseInFull(st: IntelState, player: string, lead: int, now: int)
    ensures var (st', p) := BuyPreview(st, player, lead, now);
      var current := st.next.Some? && now < st.next.value.event.scheduledAt;
      var waiting := if current then player in st.next.value.buyers else player in st.pending;
      && (p == AlreadyArmed <==> waiting)
      && (p.Dispatched? <==> !waiting && current && st.next.value.event.scheduledAt <= now + lead)
      && (p.Dispatched? ==> p.event == st.next.value.event)
      && (if current then
            && st'.pending == st.pending
            && st'.next == Some(st.next.value.(buyers := st.next.value.buyers + {player}))
          else st'.next == None && st'.pending == st.pending + {player})
  {
    if player in st.pending { assert st.pending + {player} == st.pending; }
    if st.next.Some? && player in st.next.value.buyers { assert st.next.value.buyers + {player} == st.next.value.buyers; }
  }

  /** A scheduled preview is prepared if and only if the event is the one scheduled, has had none, has buyers, and is no
      further off than the lead; it is then marked as sent, also when nobody has bought. */
  lemma PreviewInFull(st: IntelState, lead: int, seqNo: int, now: int)
    ensures var (st', sent) := Prepare(st, lead, seqNo, now);
      var due := st.next.Some? && st.next.value.event.seqNo == seqNo && !st.next.value.previewSent
                 && st.next.value.event.scheduledAt <= now + lead;
      && (due ==> st' == IntelState(st.pending, Some(Scheduled(st.next.value.event, st.next.value.buyers, true))))
      && (!due ==> st' == st)
      && sent == (if due && st.next.value.buyers != {} then Some(st.next.value.buyers) else None)
  {
  }

  class IntelEngine {
    /** The lead time of the insider definition; None when there is no such definition. */
    const insiderLead: Option<int>
    var pendingInsiderBuyers: set<string>
    var nextRandomEvent: Option<Scheduled>

    constructor (insiderLead: Option<int>)
      ensures this.insiderLead == insiderLead && State() == IntelState({}, None)
    {
      this.insiderLead := insiderLead;
      pendingInsiderBuyers, nextRandomEvent := {}, None;
    }

    function State(): IntelState
      reads this
    {
      IntelState(pendingInsiderBuyers, nextRandomEvent)
    }

    /** The locked half of scheduling; without an insider definition nothing is kept. */
    method RegisterNext(event: PlannedEvent)
      modifies this
      ensures State() == if insiderLead.Some? then Register(old(State()), event) else old(State())
    {
      if insiderLead.None? {
        return;
      }
      nextRandomEvent := Some(Scheduled(event, pendingInsiderBuyers, false));
      pendingInsiderBuyers := {};
    }

    method PrepareScheduledPreview(seqNo: int, now: int) returns (recipients: Option<set<string>>)
      modifies this
      ensures (State(), recipients)
           == if insiderLead.Some? then Prepare(old(State()), insiderLead.value, seqNo, now) else (old(State()), None)
    {
      if insiderLead.None? || nextRandomEvent.None? || nextRandomEvent.value.event.seqNo != seqNo {
        return None;
      }
      if nextRandomEvent.value.previewSent {
        return None;
      }
      var previewAt := nextRandomEvent.value.event.scheduledAt - insiderLead.value;
      if previewAt > now {
        return None;
      }
      var buyers := nextRandomEvent.value.buyers;
      nextRandomEvent := Some(nextRandomEvent.value.(previewSent := true));
      if buyers == {} {
        return None;
      }
      recipients := Some(buyers);
    }

    method BuyInsider(player: string, lead: int, now: int) returns (p: Purchase)
      modifies this
      ensures (State(), p) == BuyPreview(old(State()), player, lead, now)
    {
      if nextRandomEvent.Some? && now >= nextRandomEvent.value.event.scheduledAt {
        nextRandomEvent := None;
      }
      if nextRandomEvent.None? {
        if player in pendingInsiderBuyers {
          return AlreadyArmed;
        }
        pendingInsiderBuyers := pendingInsiderBuyers + {player};
        return Armed;
      }
      var current := nextRandomEvent.value;
      if player in current.buyers {
        return AlreadyArmed;
      }
      var previewAt := current.event.scheduledAt - lead;
      nextRandomEvent := Some(current.(buyers := current.buyers + {player}));
      if previewAt > now {
        return Armed;
      }
      p := Dispatched(current.event);
    }
  }
}
