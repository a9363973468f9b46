/** The open orders and the books stay two views of the same orders. */
module Indexes {
  import opened Orders
  import opened Matching
  import opened Ledger
  import opened Invariants
  import opened Reservations
  import opened Settlement
  import opened Arena
  import opened Placing

  /** How placing changes the open orders, in terms of the opposing list before and after. */
  ghost predicate PlacedOpen(open: map<string, OpenOrder>, open': map<string, OpenOrder>, done: Order, rests: bool,
                             opposing: seq<Order>, opposing': seq<Order>, removed: seq<string>) {
    && (forall j :: j in open' <==> (j in open && j !in removed) || (rests && j == done.id))
    && (forall j :: j in open && j !in removed && !HasId(opposing, j) ==> open'[j] == open[j])
    && (forall j :: j in open && j !in removed ==> SameTerms(open[j].order, open'[j].order))
    && (rests ==> SameOrder(open'[done.id].order, done))
    && Listed(open', opposing', done.symbol)
    && (forall j :: j in removed ==> HasId(opposing, j))
    && (forall j :: HasId(opposing, j) ==> j in removed || HasId(opposing', j))
  }

  /** Every opposing order is either used up or still in the list. */
  lemma UsedUpOrKept(order: Order, opposing: seq<Order>, last: int, now: int)
    ensures var m := Match(order, opposing, last, now);
      && (forall j :: j in m.removed ==> HasId(opposing, j))
      && (forall j :: HasId(opposing, j) ==> j in m.removed || HasId(m.opposing, j))
  {
    MatchConsumesPrefix(order, opposing, last, now);
    var m := Match(order, opposing, last, now);
    hide Match;
    var k := |m.removed|;
    forall j | HasId(opposing, j) ensures j in m.removed || HasId(m.opposing, j) {
      var i :| 0 <= i < |opposing| && opposing[i].id == j;
      if i < k {
        assert m.removed[i] == j;
      } else {
        assert m.opposing[i - k].id == j;
      }
    }
  }

  lemma KeptAreOpen(st1: State, order: Order, opposing': seq<Order>, removed: seq<string>)
    requires InSync(st1, order, opposing')
    requires forall j :: j in removed ==> j in st1.open && j != order.id && st1.open[j].order.remaining == 0
    ensures forall i :: 0 <= i < |opposing'| ==> opposing'[i].id !in removed && opposing'[i].id != order.id
    ensures Listed(st1.open, opposing', order.symbol)
    ensures SameOrder(st1.open[order.id].order, order)
  {
    OtherSideIds(st1, order, opposing');
    hide LedgerOk;
    forall i | 0 <= i < |opposing'| ensures opposing'[i].id !in removed {
      assert RestingOk(opposing'[i], Opposite(order.side));
    }
  }

  lemma ListedElsewhere(open: map<string, OpenOrder>, open': map<string, OpenOrder>, orders: seq<Order>, symbol: string)
    requires Listed(open, orders, symbol)
    requires forall i :: 0 <= i < |orders| ==> orders[i].id in open' && open'[orders[i].id] == open[orders[i].id]
    ensures Listed(open', orders, symbol)
  {
  }

  lemma ComposeFrames(st: State, st0: State, st1: State, st2: State, order: Order, rests: bool, entry: OpenOrder,
                      opposing: seq<Order>, removed: seq<string>, open': map<string, OpenOrder>)
    requires order.id !in st.open && st0.open == st.open[order.id := entry]
    requires Framed(st0, st1, order.id, opposing, removed)
    requires st2.open.Keys == (if rests then st1.open.Keys else st1.open.Keys - {order.id})
    requires forall j :: j in st2.open && j != order.id ==> st2.open[j] == st1.open[j]
    requires open' == st2.open - (set j | j in removed)
    ensures forall j :: j in open' <==> (j in st.open && j !in removed) || (rests && j == order.id)
    ensures forall j :: j in st.open && j !in removed ==> j in open' && open'[j] == st1.open[j]
    ensures forall j :: j in st.open && j !in removed && !HasId(opposing, j) ==> open'[j] == st.open[j]
    ensures forall j :: j in st.open && j !in removed ==> SameTerms(st.open[j].order, open'[j].order)
  {
    hide HasId;
  }

  lemma FramedRemoved(st0: State, st1: State, id: string, opposing: seq<Order>, removed: seq<string>)
    requires Framed(st0, st1, id, opposing, removed)
    ensures forall j :: j in removed ==> j in st1.open && j != id && st1.open[j].order.remaining == 0
    ensures st1.open.Keys == st0.open.Keys
  {
  }

  lemma ReadyFacts(st: State, v: BookView, order: Order, reference: int, r: ReserveResult)
    requires Ready(st, v, order, reference, r)
    ensures Valid(v) && Accepted(order) && r.Reserved?
  {
  }

  /** The frame of the trades and the frame of closing, put together. */
  lemma AssemblePlaced(st: State, st0: State, st1: State, st2: State, done: Order, rests: bool, entry: OpenOrder,
                       opposing: seq<Order>, opposing': seq<Order>, removed: seq<string>, open': map<string, OpenOrder>)
    requires done.id !in st.open && st0.open == st.open[done.id := entry]
    requires Framed(st0, st1, done.id, opposing, removed) && InSync(st1, done, opposing')
    requires st2 == Closed(st1, done.id, rests) && open' == st2.open - (set j | j in removed)
    requires forall j :: j in removed ==> HasId(opposing, j)
    requires forall j :: HasId(opposing, j) ==> j in removed || HasId(opposing', j)
    ensures PlacedOpen(st.open, open', done, rests, opposing, opposing', removed)
  {
    hide InSync, LedgerOk, Closed, Entries, HasId, Listed, Framed, SameTerms, SameOrder;
    RestingIsPriced(st1, done, opposing');
    ClosingFrame(st1, done.id, rests);
    FramedRemoved(st0, st1, done.id, opposing, removed);
    KeptAreOpen(st1, done, opposing', removed);
    ComposeFrames(st, st0, st1, st2, done, rests, entry, opposing, removed, open');
    ListedInside(st.open, st1.open, open', opposing', done, removed, rests);
    RestingEntryFollows(st1, st2, open', done, removed, rests);
    PartsOfPlaced(st.open, open', done, rests, opposing, opposing', removed);
    hide PlacedOpen;
  }

  lemma PartsOfPlaced(open: map<string, OpenOrder>, open': map<string, OpenOrder>, done: Order, rests: bool,
                      opposing: seq<Order>, opposing': seq<Order>, removed: seq<string>)
    requires forall j :: j in open' <==> (j in open && j !in removed) || (rests && j == done.id)
    requires forall j :: j in open && j !in removed && !HasId(opposing, j) ==> open'[j] == open[j]
    requires forall j :: j in open && j !in removed ==> SameTerms(open[j].order, open'[j].order)
    requires rests ==> SameOrder(open'[done.id].order, done)
    requires Listed(open', opposing', done.symbol)
    requires forall j :: j in removed ==> HasId(opposing, j)
    requires forall j :: HasId(opposing, j) ==> j in removed || HasId(opposing', j)
    ensures PlacedOpen(open, open', done, rests, opposing, opposing', removed)
  {
  }

  lemma SettleOpens(st: State, v: BookView, order: Order, reference: int, r: ReserveResult, now: int)
    requires Ready(st, v, order, reference, r)
    ensures var m := Matched(v, order, now);
      PlacedOpen(st.open, Settle(st, order, r, Place(v, order, now).1).open, m.order, Rests(m.order),
                 SideOf(v, Opposite(order.side)), m.opposing, m.removed)
  {
    hide Ready, InSync, LedgerOk, Settle, Place, Settled, Closed, Opened, Entry, CleanupAll, Matched, ApplyTrades,
         AllKnown, Entries, HasId, Listed, Framed, Valid, Accepted, PlacedOpen, Rests;
    var m := Matched(v, order, now);
    var st0, st1, st2 := SettleStages(st, v, order, reference, r, now);
    ReadyFacts(st, v, order, reference, r);
    MatchedTerms(st, v, order, reference, r, now);
    CleanupAllForgets(st2, m.removed);
    MatchedUsesUp(v, order, now);
    EntryTerms(v, order, now);
    OpenedMap(st, v, order, reference, r, now);
    AssemblePlaced(st, st0, st1, st2, m.order, Rests(m.order), OpenOrder(Entry(v, order, now), r.cash, r.quantity),
                   SideOf(v, Opposite(order.side)), m.opposing, m.removed,
                   Settle(st, order, r, Place(v, order, now).1).open);
  }

  lemma MatchedUsesUp(v: BookView, order: Order, now: int)
    ensures var m := Matched(v, order, now); var opposing := SideOf(v, Opposite(order.side));
      && (forall j :: j in m.removed ==> HasId(opposing, j))
      && (forall j :: HasId(opposing, j) ==> j in m.removed || HasId(m.opposing, j))
  {
    hide HasId;
    UsedUpOrKept(Submitted(order), SideOf(v, Opposite(order.side)), v.lastTradePrice, now);
  }

  lemma RestingEntryFollows(st1: State, st2: State, open': map<string, OpenOrder>, done: Order, removed: seq<string>, rests: bool)
    requires done.id in st1.open && SameOrder(st1.open[done.id].order, done)
    requires rests ==> done.id in st2.open && st2.open[done.id].order == st1.open[done.id].order
    requires open' == st2.open - (set j | j in removed)
    requires forall j :: j in removed ==> j != done.id
    ensures rests ==> done.id in open' && SameOrder(open'[done.id].order, done)
  {
  }

  lemma OpenedMap(st: State, v: BookView, order: Order, reference: int, r: ReserveResult, now: int)
    requires Ready(st, v, order, reference, r)
    requires SameOrder(Entry(v, order, now), Submitted(order))
    ensures order.id !in st.open
    ensures Opened(st, Entry(v, order, now), r).open == st.open[order.id := OpenOrder(Entry(v, order, now), r.cash, r.quantity)]
  {
    hide Entry;
  }

  lemma ListedInside(open: map<string, OpenOrder>, open1: map<string, OpenOrder>, open': map<string, OpenOrder>,
                     orders: seq<Order>, order: Order, removed: seq<string>, rests: bool)
    requires Listed(open1, orders, order.symbol)
    requires open1.Keys == open.Keys + {order.id}
    requires forall i :: 0 <= i < |orders| ==> orders[i].id !in removed && orders[i].id != order.id
    requires forall j :: j in open && j !in removed ==> j in open' && open'[j] == open1[j]
    ensures Listed(open', orders, order.symbol)
  {
    forall i | 0 <= i < |orders| ensures orders[i].id in open' && open'[orders[i].id] == open1[orders[i].id] {
      assert orders[i].id in open1;
    }
    ListedElsewhere(open1, open', orders, order.symbol);
  }

  lemma SideOfListed(open: map<string, OpenOrder>, orders: seq<Order>, symbol: string, side: Side, id: string)
    requires Listed(open, orders, symbol) && SideValid(orders, side) && HasId(orders, id)
    ensures id in open && open[id].order.side == side && open[id].order.symbol == symbol
  {
    var i :| 0 <= i < |orders| && orders[i].id == id;
    assert RestingOk(orders[i], side);
  }

  /** A list none of whose orders the placement touched is still listed. */
  lemma UntouchedListed(open: map<string, OpenOrder>, open': map<string, OpenOrder>, orders: seq<Order>, symbol: string,
                        done: Order, rests: bool, opposing: seq<Order>, opposing': seq<Order>, removed: seq<string>)
    requires PlacedOpen(open, open', done, rests, opposing, opposing', removed)
    requires Listed(open, orders, symbol)
    requires forall i :: 0 <= i < |orders| ==> !HasId(opposing, orders[i].id)
    ensures Listed(open', orders, symbol)
  {
    hide HasId;
    forall i | 0 <= i < |orders| ensures orders[i].id in open' && open'[orders[i].id] == open[orders[i].id] {
      assert orders[i].id !in removed;
    }
    ListedElsewhere(open, open', orders, symbol);
  }

  lemma OtherBookAgrees(open: map<string, OpenOrder>, open': map<string, OpenOrder>, v: BookView, symbol: string,
                        done: Order, rests: bool, opposing: seq<Order>, opposing': seq<Order>, removed: seq<string>)
    requires PlacedOpen(open, open', done, rests, opposing, opposing', removed)
    requires Listed(open, opposing, done.symbol) && SideValid(opposing, Opposite(done.side))
    requires BookAgrees(open, v, symbol) && symbol != done.symbol
    ensures BookAgrees(open', v, symbol)
  {
    forall id | HasId(opposing, id) ensures id in open && open[id].order.symbol == done.symbol {
      SideOfListed(open, opposing, done.symbol, Opposite(done.side), id);
    }
    hide HasId, SideValid;
    UntouchedListed(open, open', v.bids, symbol, done, rests, opposing, opposing', removed);
    UntouchedListed(open, open', v.asks, symbol, done, rests, opposing, opposing', removed);
    hide Listed;
    forall id | id in open' && open'[id].order.symbol == symbol
      ensures HasId(SideOf(v, open'[id].order.side), id)
    {
      assert id in open && SameTerms(open[id].order, open'[id].order);
    }
  }

  lemma SpliceIds(orders: seq<Order>, i: nat, order: Order)
    requires i <= |orders|
    ensures forall j :: HasId(orders[..i] + [order] + orders[i..], j) <==> HasId(orders, j) || j == order.id
  {
    var after := orders[..i] + [order] + orders[i..];
    assert after[i] == order;
    forall j | HasId(orders, j) ensures HasId(after, j) {
      var k :| 0 <= k < |orders| && orders[k].id == j;
      assert after[if k < i then k else k + 1].id == j;
    }
    forall j | HasId(after, j) && j != order.id ensures HasId(orders, j) {
      var k :| 0 <= k < |after| && after[k].id == j;
      assert orders[if k < i then k else k - 1].id == j;
    }
  }

  lemma SpliceListed(open: map<string, OpenOrder>, orders: seq<Order>, i: nat, order: Order)
    requires i <= |orders| && Listed(open, orders, order.symbol) && !HasId(orders, order.id)
    requires order.id in open && SameOrder(open[order.id].order, order)
    ensures Listed(open, orders[..i] + [order] + orders[i..], order.symbol)
  {
    var after := orders[..i] + [order] + orders[i..];
    assert forall k :: 0 <= k < |after| ==> after[k] == if k < i then orders[k] else if k == i then order else orders[k - 1];
    forall k | 0 <= k < |orders| ensures orders[k].id != order.id {
    }
    hide HasId, SameOrder;
  }

  /** Filing the remainder adds just that order to its side. */
  lemma InsertListed(open: map<string, OpenOrder>, orders: seq<Order>, order: Order)
    requires Listed(open, orders, order.symbol) && SideValid(orders, order.side) && !HasId(orders, order.id)
    requires order.id in open && SameOrder(open[order.id].order, order)
    ensures Listed(open, Insert(orders, order), order.symbol)
    ensures forall j :: HasId(Insert(orders, order), j) <==> HasId(orders, j) || j == order.id
  {
    hide Listed, SideValid, HasId, Insert, SameOrder;
    var i := InsertPosition(orders, order);
    SpliceIds(orders, i, order);
    SpliceListed(open, orders, i, order);
  }

  /** The book of the placed order agrees with the new open orders. */
  lemma SameBookAgrees(open: map<string, OpenOrder>, open': map<string, OpenOrder>, v: BookView, v': BookView,
                       done: Order, rests: bool, opposing': seq<Order>, removed: seq<string>)
    requires done.side.Buy? || done.side.Sell?
    requires Valid(v) && BookAgrees(open, v, done.symbol) && done.id !in open
    requires PlacedOpen(open, open', done, rests, SideOf(v, Opposite(done.side)), opposing', removed)
    requires SideOf(v', Opposite(done.side)) == opposing'
    requires SideOf(v', done.side) == if rests then Insert(SideOf(v, done.side), done) else SideOf(v, done.side)
    ensures BookAgrees(open', v', done.symbol)
  {
    var own, opposing := SideOf(v, done.side), SideOf(v, Opposite(done.side));
    OwnSide(open, own, opposing, done);
    hide Valid, SideValid, HasId, Insert, Listed;
    UntouchedListed(open, open', own, done.symbol, done, rests, opposing, opposing', removed);
    if rests {
      ValidSide(v, done.side);
      InsertListed(open', own, done);
    }
    forall id | id in open' && open'[id].order.symbol == done.symbol
      ensures HasId(SideOf(v', open'[id].order.side), id)
    {
      SidesCovered(open, open', v, v', done, rests, opposing', removed, id);
    }
  }

  lemma ValidSide(v: BookView, side: Side)
    requires Valid(v) && !side.OtherSide?
    ensures SideValid(SideOf(v, side), side)
  {
  }

  lemma OwnSide(open: map<string, OpenOrder>, own: seq<Order>, opposing: seq<Order>, done: Order)
    requires Listed(open, own, done.symbol) && SideValid(own, done.side) && done.id !in open
    requires Listed(open, opposing, done.symbol) && SideValid(opposing, Opposite(done.side))
    requires done.side.Buy? || done.side.Sell?
    ensures forall i :: 0 <= i < |own| ==> !HasId(opposing, own[i].id)
    ensures !HasId(own, done.id)
  {
    forall i | 0 <= i < |own| ensures !HasId(opposing, own[i].id) {
      assert RestingOk(own[i], done.side);
      if HasId(opposing, own[i].id) {
        SideOfListed(open, opposing, done.symbol, Opposite(done.side), own[i].id);
      }
    }
  }

  lemma SidesCovered(open: map<string, OpenOrder>, open': map<string, OpenOrder>, v: BookView, v': BookView,
                     done: Order, rests: bool, opposing': seq<Order>, removed: seq<string>, id: string)
    requires done.side.Buy? || done.side.Sell?
    requires BookAgrees(open, v, done.symbol)
    requires PlacedOpen(open, open', done, rests, SideOf(v, Opposite(done.side)), opposing', removed)
    requires SideOf(v', Opposite(done.side)) == opposing'
    requires forall j :: HasId(SideOf(v, done.side), j) || (rests && j == done.id) ==> HasId(SideOf(v', done.side), j)
    requires id in open' && open'[id].order.symbol == done.symbol
    ensures HasId(SideOf(v', open'[id].order.side), id)
  {
    hide HasId, Listed;
    if id in open && id !in removed {
      assert SameTerms(open[id].order, open'[id].order);
      var side := open[id].order.side;
      assert HasId(SideOf(v, side), id);
      if SideOf(v, side) == SideOf(v, done.side) && SideOf(v', side) == SideOf(v', done.side) {
        assert HasId(SideOf(v', done.side), id);
      } else {
        assert SideOf(v, side) == SideOf(v, Opposite(done.side)) && SideOf(v', side) == opposing';
      }
    } else {
      assert rests && id == done.id;
    }
  }

  lemma PlacedOpenAnyStatus(open: map<string, OpenOrder>, open': map<string, OpenOrder>, done: Order, rests: bool,
                            opposing: seq<Order>, opposing': seq<Order>, removed: seq<string>, status: Status)
    requires PlacedOpen(open, open', done, rests, opposing, opposing', removed)
    ensures PlacedOpen(open, open', done.(status := status), rests, opposing, opposing', removed)
  {
    hide HasId, Listed;
  }

  lemma PlaceSides(v: BookView, order: Order, now: int)
    requires !order.side.OtherSide? && SameTerms(order, Matched(v, order, now).order)
    ensures var v' := Place(v, order, now).0; var m := Matched(v, order, now);
      var done := m.order.(status := StatusOf(m.order));
      && SideOf(v', Opposite(order.side)) == m.opposing
      && SideOf(v', order.side) == if Rests(m.order) then Insert(SideOf(v, order.side), done) else SideOf(v, order.side)
  {
    hide Match, Insert;
  }

  /** What placing does to the open orders and to the book of the order, in the terms the two agree in. */
  lemma PlacedParts(st: State, v: BookView, order: Order, reference: int, r: ReserveResult, now: int) returns (done: Order)
    requires Ready(st, v, order, reference, r)
    ensures var m := Matched(v, order, now); var v' := Place(v, order, now).0;
      var open' := Settle(st, order, r, Place(v, order, now).1).open; var opposing := SideOf(v, Opposite(order.side));
      && done == m.order.(status := StatusOf(m.order))
      && done.symbol == order.symbol && done.side == order.side && done.id == order.id
      && (order.side.Buy? || order.side.Sell?)
      && PlacedOpen(st.open, open', done, Rests(m.order), opposing, m.opposing, m.removed)
      && SideOf(v', Opposite(order.side)) == m.opposing
      && SideOf(v', order.side) == (if Rests(m.order) then Insert(SideOf(v, order.side), done) else SideOf(v, order.side))
      && Valid(v) && Valid(v') && order.id !in st.open && BookAgrees(st.open, v, order.symbol)
  {
    var m := Matched(v, order, now);
    done := m.order.(status := StatusOf(m.order));
    ReadyFacts(st, v, order, reference, r);
    MatchedTerms(st, v, order, reference, r, now);
    PlaceSides(v, order, now);
    SettleOpens(st, v, order, reference, r, now);
    EntryTerms(v, order, now);
    OpenedMap(st, v, order, reference, r, now);
    PlaceKeepsValid(v, order, now);
    AcceptedSide(order);
    ReadyAgrees(st, v, order, reference, r);
    hide Ready, Settle, Place, Matched, PlacedOpen, Valid, StatusOf, Insert, Rests, Entry, Opened, BookAgrees, Accepted;
    PlacedOpenAnyStatus(st.open, Settle(st, order, r, Place(v, order, now).1).open, m.order, Rests(m.order),
                        SideOf(v, Opposite(order.side)), m.opposing, m.removed, StatusOf(m.order));
  }

  lemma ReadyAgrees(st: State, v: BookView, order: Order, reference: int, r: ReserveResult)
    requires Ready(st, v, order, reference, r)
    ensures BookAgrees(st.open, v, order.symbol)
  {
  }

  lemma AgreeAfterPlacing(open: map<string, OpenOrder>, open': map<string, OpenOrder>, books: map<string, BookView>,
                          v': BookView, done: Order, rests: bool, opposing': seq<Order>, removed: seq<string>)
    requires Agree(open, books) && BooksValid(books) && done.symbol in books && Valid(v')
    requires (done.side.Buy? || done.side.Sell?) && done.id !in open
    requires var v := books[done.symbol];
      && PlacedOpen(open, open', done, rests, SideOf(v, Opposite(done.side)), opposing', removed)
      && SideOf(v', Opposite(done.side)) == opposing'
      && SideOf(v', done.side) == if rests then Insert(SideOf(v, done.side), done) else SideOf(v, done.side)
    ensures Agree(open', books[done.symbol := v']) && BooksValid(books[done.symbol := v'])
  {
    var v, books' := books[done.symbol], books[done.symbol := v'];
    var opposing := SideOf(v, Opposite(done.side));
    hide PlacedOpen, Valid, Insert, BookAgrees;
    AgreeParts(open, books);
    OpposingListed(open, v, done);
    hide Agree, Listed, SideValid;
    SameBookAgrees(open, open', v, v', done, rests, opposing', removed);
    forall s | s in books' && s != done.symbol ensures BookAgrees(open', books'[s], s) {
      OtherBookAgrees(open, open', books[s], s, done, rests, opposing, opposing', removed);
    }
    SymbolsKnown(open, open', books, done, rests, opposing, opposing', removed);
    AgreeFromParts(open', books');
  }

  lemma AgreeParts(open: map<string, OpenOrder>, books: map<string, BookView>)
    requires Agree(open, books)
    ensures forall s :: s in books ==> BookAgrees(open, books[s], s)
    ensures forall id :: id in open ==> open[id].order.symbol in books
  {
  }

  lemma AgreeFromParts(open: map<string, OpenOrder>, books: map<string, BookView>)
    requires forall s :: s in books ==> BookAgrees(open, books[s], s)
    requires forall id :: id in open ==> open[id].order.symbol in books
    ensures Agree(open, books)
  {
  }

  /** Placing an order keeps both indexes equal. */
  lemma PlaceKeepsAgree(st: State, books: map<string, BookView>, order: Order, reference: int, r: ReserveResult, now: int)
    requires order.symbol in books && Ready(st, books[order.symbol], order, reference, r)
    requires Agree(st.open, books) && BooksValid(books)
    ensures var v := books[order.symbol];
      && Agree(Settle(st, order, r, Place(v, order, now).1).open, books[order.symbol := Place(v, order, now).0])
      && BooksValid(books[order.symbol := Place(v, order, now).0])
  {
    var v := books[order.symbol];
    hide Ready, Settle, Place, Matched, PlacedOpen, Valid, StatusOf, Insert, Rests, BookAgrees, Agree, BooksValid;
    ReadyFacts(st, v, order, reference, r);
    var done := PlacedParts(st, v, order, reference, r, now);
    var m := Matched(v, order, now);
    AgreeAfterPlacing(st.open, Settle(st, order, r, Place(v, order, now).1).open, books, Place(v, order, now).0, done,
                      Rests(m.order), m.opposing, m.removed);
  }

  lemma AcceptedSide(order: Order)
    requires Accepted(order)
    ensures order.side.Buy? || order.side.Sell?
  {
  }

  lemma OpposingListed(open: map<string, OpenOrder>, v: BookView, order: Order)
    requires BookAgrees(open, v, order.symbol) && Valid(v) && (order.side.Buy? || order.side.Sell?)
    ensures Listed(open, SideOf(v, Opposite(order.side)), order.symbol)
    ensures SideValid(SideOf(v, Opposite(order.side)), Opposite(order.side))
  {
  }

  lemma SymbolsKnown(open: map<string, OpenOrder>, open': map<string, OpenOrder>, books: map<string, BookView>,
                     done: Order, rests: bool, opposing: seq<Order>, opposing': seq<Order>, removed: seq<string>)
    requires PlacedOpen(open, open', done, rests, opposing, opposing', removed)
    requires forall id :: id in open ==> open[id].order.symbol in books
    requires done.symbol in books
    ensures forall id :: id in open' ==> open'[id].order.symbol in books
  {
    hide HasId, Listed;
    forall id | id in open' ensures open'[id].order.symbol in books {
      if id in open && id !in removed { assert SameTerms(open[id].order, open'[id].order); }
    }
  }
}
