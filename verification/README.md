# Trading arena: order book, settlement and market events

A Dafny model of the trading core of the arena server, with proofs of what that core promises. It covers the
limit order book, the game engine's reservations and settlement, position lots and basis-point charges, the
player store, the exchange service, the price engine, the market event planner and the insider previews.

## How it is built

Code that changes state in place is a class or a method with a loop, proved equal to a function on values; the
promises are lemmas about those functions, over one call, one step or a whole run.

| module | what it holds |
|---|---|
| `Orders`, `Matching`, `Ladders`, `OrderBook`, `Reports` | price-time matching on plain lists; queues per price with a sorted price slice; the class `Book`, whose loop, cuts and inserts are proved to do what the lists do; what a placement, a cancellation and a snapshot report |
| `Charges`, `Lots` | ceiling charges; first-in first-out lots with the in-place compaction over an array |
| `Ledger`, `Effects` | players, open orders, and settlement of one trade with all its clamps at zero; what that does to every field, in numbers |
| `Sums`, `Invariants`, `Reservations`, `Settlement`, `Placing`, `Indexes` | what each stage of placing an order keeps |
| `Arena`, `Runs`, `Theorems`, `Replies` | the whole game state, its actions, and the promises over every legal run; exactly what each request is answered |
| `RoundTrip`, `Fills`, `Quotes`, `Taxes`, `MarketBuys`, `Limits` | place then cancel; what is reserved and given back, and debits against it; lots and taxes over runs; what placements do to each player's cash; where solvency ends |
| `PlayerStore`, `Exchange`, `GameEngine` | the classes: every handler maps the state `WorldNow()` exactly as the function of `Arena` does |
| `Prices`, `Moves`, `Events`, `Intel` | tick-aligned prices, and which way and how far they move; planned events; insider purchases and previews |
| `Feed`, `Previews`, `Schedules` | planner, timers, buyers and notifications interleaved; who is served and notified, and when; runs that show where that ends |

Both sides of a book are treated alike through `Rank`: the best price of a side has the least rank. While an
order is being placed it is carried as one more open order whose remaining quantity counts down, so that every
invariant has the same form in the middle of a placement and between actions.

The ledger also records, as ghost state of the engine, the charges each player has paid (`paid`), and the world
records the players with a market buy whose trades cost more than was reserved for it (`overspent`).

## What comes out

* A player may end below zero, but never by more than the charges paid: cash plus charges covers the notional of
  every open buy (`Theorems.SolventUpToCharges`), for everyone none of whose market buys cost more than was reserved
  for it. The bound is reached for every price and quantity (`Limits.BoundIsReached`), because a resting order keeps
  no fee reserved (internal/gameplay/engine.go:652); the function that would include the fee, `buyReservationTarget`
  (internal/gameplay/engine.go:872), has no caller.
* A market buy is reserved as one market trade of all of it at five quarters of its price, or of a reference price
  (`Quotes.BuyIsReservedAsQuoted`), and pays what rests in the book. Trades no dearer than that cost no more than was
  reserved, but for rounding (`Quotes.PlacedWithinQuote`); dearer ones can miss the bound by any amount
  (`Limits.MarketBuyBreaksBound`). It keeps its player solvent if and only if its trades, shares bought from
  oneself apart, cost at most what the player is worth beyond the open buys, all of which is known before the order
  is placed (`MarketBuys.MarketBuyKeepsSolvencyExactly`).
* No clamp on shares or on share reservations ever fires, a fully filled resting order holds nothing, and the
  pass that normalizes open orders at the end of a placement never changes anything (`Reservations.NormalizeIsIdle`).
* The n fills of a limit buy debit at most n - ceil(n / 1000) more than was reserved, and for every n an actual match
  does (`Fills.FillsStayWithinReservation`, `Fills.RoundingBoundIsTight`).
* The exact condition under which a sale takes no cash from its seller is a cost of at least one unit per charge
  that applies (`Fills.SellerIsNotCharged`); from a cost of three on it always holds.
* The repository's README promises insider previews before public publication (README.md:110). Under every
  interleaving they are prepared before it (`Feed.PreviewProtocol`), but a preview is handed over after the lock is
  released (internal/intel/engine.go:191-198, 339-343), and a player can be notified after the event is public
  (`Schedules.NotificationCanBeLate`): exactly when the publication falls between preparation and notification
  (`Previews.NotificationsFollowPreparation`). What a poll hands out itself is never late.
* Not everyone armed is served. A buyer is served if and only if the purchase is answered at once, or a preview of
  the event falls due while it is still scheduled and had not gone out before the purchase
  (`Previews.PurchaseIsServed`, `Previews.WaiterIsServed`). `Schedules` has a run for each way to miss it: the event
  is replaced before any preview was tried, or a definition with a shorter lead time joins a preview already sent.
* Planning can only succeed always or never, since the catalogue and the tickers are fixed
  (`Events.EventEngine.Drawn`). The preview statements need this: a draw failing right after a firing would let a late
  timer prepare a preview of a published event (`Schedules.FailedDrawWouldAllowLatePreview`).

## Assumptions

They are preconditions of the lemmas, or of the methods they concern:

* A run starts with no open orders, no reservations and empty books (`Theorems.Start`).
* An order's id is not empty and not the id of an open order (`Arena.Legal`); it stands for the request id, or
  for the fresh id the exchange makes up when there is none (internal/exchange/service.go:93-96).
* Orders come to a book with remaining quantity 0 (internal/exchange/service.go:98-108).
* A player keeps user name and player id for life, and no two records share an id (`PlayerStore.Fits`, `Filed`).
* All draws of a run of the planner succeed or none does (`Feed.SameDraws`), as fixed definitions and tickers imply.
* Times do not decrease where a statement needs it (`Taxes.TimesRise`, `Events.TimesRise`, `Feed.TimesRise`).

## Model

| member | source | states |
|---|---|---|
| Charges.ChargeIsCeiling | internal/gameplay/engine.go:896-901 | a charge is the least non-negative integer c with 10000 c >= amount times basis points, both directions |
| Charges.RatesInNumbers | internal/gameplay/engine.go:884-901 | the exchange fee is the least integer covering 10 basis points, the market surcharge 15, the rapid-flip tax 35 |
| Charges.SplitCostsAtMostOne | internal/gameplay/engine.go:896-901 | charging two parts separately costs between 0 and 1 unit more than charging their sum |
| Charges.FeeRoundingBound | internal/gameplay/engine.go:884-901 | the exchange fees of n fills exceed the fee of their total by at most n less one per thousand fills begun |
| Charges.SurchargeRoundingBound | internal/gameplay/engine.go:888-901 | the market surcharges of n fills exceed the surcharge of their total by at most n less one per two thousand fills begun |
| Charges.RoundingBound | internal/gameplay/engine.go:582-583 | the charges of n fills exceed the charge of their total by 0 to n - 1 |
| Charges.SellerProceedsNonNegative | internal/gameplay/engine.go:582-593 | fee, surcharge and flip tax stay within the cost if and only if the cost is at least one unit per applicable charge |
| Lots.CompactInPlace | internal/gameplay/engine.go:917-938 | the two-index compaction of the slice leaves exactly the functional first-in first-out rest in its prefix, and yields the taxable quantity |
| Lots.ConsumeLotsForSale | internal/gameplay/engine.go:913-945 | the holdings after a sale and its taxable quantity; an emptied symbol disappears |
| Lots.ConsumeDropsOldestShares | internal/gameplay/engine.go:921-937 | seen share by share, consuming q drops the first min(q, held) shares and keeps the rest in order |
| Lots.ConsumeTotal | internal/gameplay/engine.go:921-937 | max(0, total - q) shares remain and no empty lot stays behind |
| Lots.TaxableIsFallInExposure | internal/gameplay/engine.go:913-955 | the taxable quantity is exactly the fall of rapidFlipExposure at that moment |
| Lots.TaxableCountsOldestShares | internal/gameplay/engine.go:927-930 | it counts the fresh ones among the oldest min(q, held) shares |
| Lots.TaxableWithinFiveMinutes | internal/gameplay/engine.go:927-930 | taxed are exactly the shares sold that were acquired within the last 300 seconds, that moment included |
| Lots.SaleForgetsEmptied | internal/gameplay/engine.go:938-943 | the holdings keep the symbol only while shares are left of it, and other symbols as they were |
| Lots.OnlyHeadShrinks | internal/gameplay/engine.go:931-936 | what remains is a suffix of the lots, of which only the head may have shrunk |
| Lots.SalesCompose | internal/gameplay/engine.go:913-945 | selling a then b at one time leaves the same lots and taxes as many shares as selling a + b |
| Lots.AnyChoiceTaxesAtLeast | internal/gameplay/engine.go:913-955 | any choice of lots taxes at least the quantity sold minus the stale shares held |
| Lots.OldestFirstTaxesExactly | internal/gameplay/engine.go:913-955 | on lots in order of acquisition, oldest first taxes exactly max(0, min(q, total) - stale) |
| Lots.SaleIsTaxMinimal | internal/gameplay/engine.go:913-955 | hence no choice of lots for the same sale is taxed less |
| Matching.TradesFollowPriority | internal/orderbook/orderbook.go:118-172 | trade i names the incoming order and its player on its own side and order i and its player on the other, reports the incoming side and symbol, now, and order i's price, which the incoming order takes; it is for all of that order or, possibly for the last one, a part |
| Matching.CrossingIsTaking | internal/orderbook/orderbook.go:308-325 | a market order takes any price, a limit buy none above and a limit sell none below its own |
| Matching.MatchConsumesPrefix | internal/orderbook/orderbook.go:157-172 | the removed ids are a prefix of the opposing list, and of the rest only the head has lost quantity |
| Matching.MatchAccounts | internal/orderbook/orderbook.go:157-160 | what is left of the order and the last trade price follow from the trades |
| Matching.FillsAllThatCrosses | internal/orderbook/orderbook.go:118-172 | the filled quantity is min(quantity, quantity resting at accepted prices) |
| Matching.GreedyIsOptimal | internal/orderbook/orderbook.go:281-306 | taking best price first costs no more (a sale: yields no less) than any allocation of the same quantity |
| Matching.BestExecution | internal/orderbook/orderbook.go:118-172 | the trades of a match are such an optimum: a buyer pays no more, a seller receives no less, than under any allocation of the filled quantity |
| Matching.InsertPosition | internal/orderbook/orderbook.go:327-355 | a remainder goes behind every order of equal or better price and ahead of every worse one |
| Matching.PlaceKeepsValid | internal/orderbook/orderbook.go:105-201 | placing keeps both sides sorted, every resting order a priced limit order with something left, best bid below best ask |
| Matching.CancelKeepsValid | internal/orderbook/orderbook.go:203-243 | so does cancelling |
| Matching.RunKeepsValid | internal/orderbook/orderbook.go:105-243 | so does every run of placements and cancellations |
| Reports.AcceptedExactly | internal/orderbook/orderbook.go:420-443 | an order is accepted if and only if nothing is missing, its quantity is positive, side and type are known and a limit price is positive |
| Reports.FirstFault | internal/orderbook/orderbook.go:420-443 | the error of a refused order is its first fault in the order they are checked |
| Reports.PlacementReport | internal/orderbook/orderbook.go:105-201 | the trades of a placement field by field, the quantity filled, the status that says how much that is, the remainder that rests, the orders removed |
| Reports.PlacementLeaves | internal/orderbook/orderbook.go:157-197 | what is left of both sides, the last trade price, and one sequence number per trade and one more |
| Reports.CancelTakesFirst | internal/orderbook/orderbook.go:203-243 | the first bid with the id goes, else the first ask, handed back cancelled; with neither nothing changes |
| Reports.SidesAreSorted | internal/orderbook/orderbook.go:327-355 | in a well-formed book bids fall and asks rise in price, and every bid is below every ask |
| Reports.SnapshotShows | internal/orderbook/orderbook.go:245-271 | a snapshot shows each of the best prices once, in order, with the total quantity and number of orders there; ten of them by default |
| Ladders.LadderIsValidSide | internal/orderbook/orderbook.go:86-94 | sorted non-empty levels flatten to a well-formed list headed by the oldest order of the best price |
| Ladders.AppendIsInsert | internal/orderbook/orderbook.go:347-353 | appending to the queue of a known price is filing by price and time |
| Ladders.NewLevelIsInsert | internal/orderbook/orderbook.go:334-353 | so is opening a queue under a new price of the sorted slice |
| Ladders.TakeOutOfLevel | internal/orderbook/orderbook.go:206-217 | cutting order i out of queue k cuts out exactly one order of the flattened list, at the sum of the queues before plus i |
| Ladders.RemovePrice | internal/orderbook/orderbook.go:398-404 | the slice without the first occurrence of the price, unchanged when absent |
| OrderBook.TakeOut | internal/orderbook/orderbook.go:203-222 | the nested scan finds the first order with the id in price-time order and takes just that one out, or changes nothing |
| OrderBook.TopLevels | internal/orderbook/orderbook.go:257-268 | the levels shown are the first ones of the side, each with its price, total quantity and count |
| OrderBook.Book.ValidMeansWellFormed | internal/orderbook/orderbook.go:86-94 | the two-map representation is valid if and only if its lists are a well-formed book, and the heads agree |
| OrderBook.Book.CanCrossMeansMeets | internal/orderbook/orderbook.go:308-325 | comparing with the best price is asking whether the head of the opposing list crosses |
| OrderBook.Book.BestOpposing | internal/orderbook/orderbook.go:281-306 | the head of the opposing list, or nothing when that is empty |
| OrderBook.Book.RemoveHead | internal/orderbook/orderbook.go:357-388 | takes the head off the list, price included when its queue runs empty; fails exactly when the price has no queue |
| OrderBook.Book.AddResting | internal/orderbook/orderbook.go:327-355 | files the order by price and time into its side, and nothing when nothing is left of it |
| OrderBook.Book.FillBest | internal/orderbook/orderbook.go:119-171 | one turn of the loop is one step of list matching, with the same trade, removal and partial fill |
| OrderBook.Book.MatchLoop | internal/orderbook/orderbook.go:118-172 | the loop terminates and is list matching of the whole order, never meeting an empty level |
| OrderBook.Book.Place | internal/orderbook/orderbook.go:105-201 | refines list matching and fails exactly on orders that do not validate, with the first error and no change |
| OrderBook.Book.Cancel | internal/orderbook/orderbook.go:203-243 | takes out the order with the id, bids before asks, and advances the sequence; an unknown id changes nothing |
| OrderBook.Book.Snapshot | internal/orderbook/orderbook.go:245-271 | the best levels of both sides to the depth asked for, 10 when that is not positive |
| Invariants.SellLegIsExact | internal/gameplay/engine.go:620-645 | no clamp on shares fires: portfolio, reserved shares and the order's reservation all fall by exactly the quantity |
| Invariants.TradeKeepsLedger | internal/gameplay/engine.go:571-647 | a trade keeps reserved cash between zero and what open orders hold, reserved shares exact, lots covered by the portfolio, each entry in order |
| Invariants.TradeKeepsSolvent | internal/gameplay/engine.go:571-647 | a trade keeps everyone solvent up to the charges paid for whom what an incoming buy may still cost falls by at least the trade's cost |
| Invariants.TradeConserves | internal/gameplay/engine.go:571-647 | a trade takes exactly its charges out of total cash and keeps total shares, self-trades included |
| Effects.TradeMovesCash | internal/gameplay/engine.go:571-647 | in numbers, for every player, one trading with itself included: the buyer pays the cost, the least integer covering 10 in 10000 of it and for an incoming market order 15 more, the seller gets the cost less the same and 35 in 10000 of the price of the shares sold within 300 seconds; nobody else's cash changes and the charges are on record |
| Effects.TwoPlayersTrade | internal/gameplay/engine.go:582-620 | the same between two players |
| Effects.SelfTradeCostsCharges | internal/gameplay/engine.go:582-620 | a player trading with itself loses exactly the charges of both sides |
| Effects.TradeMovesShares | internal/gameplay/engine.go:596-643 | portfolios and reserved shares move by the full quantity, and the buyer's reserved cash falls by what the buyer pays, down to zero |
| Effects.TradeMovesLots | internal/gameplay/engine.go:592-597 | the shares sold leave the front of the seller's queue and those bought join the end of the buyer's with price and time of the trade |
| Effects.TradeMovesOrders | internal/gameplay/engine.go:607-644 | the two orders have that much less left and held, no other order changes |
| Reservations.OpeningKeepsLedger | internal/gameplay/engine.go:516-554 | reserving for an incoming order keeps the same invariants with that order in flight |
| Reservations.TrimKeepsLedger | internal/gameplay/engine.go:649-672 | trimming the remainder that rests settles the ledger: a buy holds at most its notional |
| Reservations.ReleaseDrops | internal/gameplay/engine.go:556-569 | releasing an order that does not rest returns exactly its shares and touches no other player |
| Reservations.CleanupDrops | internal/gameplay/engine.go:674-695 | so does cleaning up a removed or cancelled order |
| Reservations.NormalizeIsIdle | internal/gameplay/engine.go:697-731 | between actions normalizing an open order changes nothing |
| Reservations.FilledHoldsNothing | internal/gameplay/engine.go:403-405 | a fully filled resting order holds no cash and no shares; cleaning it up only forgets it |
| Settlement.MatchKeepsSync | internal/gameplay/engine.go:388-392 | settling all trades of a match keeps the ledger in order and the open orders equal to the book's copies |
| Settlement.MatchKeepsSolvent | internal/gameplay/engine.go:388-392 | so does a whole match, when the notional of a limit buy, or the cost of a market buy's trades, was covered at its start |
| Settlement.MatchFrame | internal/gameplay/engine.go:607-644 | only the order and the orders it met change; the removed ones are open and down to zero |
| Placing.SettleKeepsLedger | internal/gameplay/engine.go:385-413 | after a placement no order is in flight and every invariant holds again |
| Placing.SettleKeepsSolvent | internal/gameplay/engine.go:361-413 | a placement keeps everyone solvent but a market buyer whose trades cost more than was reserved |
| Placing.SettleConserves | internal/gameplay/engine.go:385-413 | over a placement total cash falls by exactly the charges of its trades, total shares stay |
| Indexes.PlaceKeepsAgree | internal/gameplay/engine.go:394-408 | placing keeps the open orders equal to the orders resting in all books |
| Runs.ReleaseUndoesReserve | internal/gameplay/engine.go:379-383 | releasing a fresh reservation restores the player |
| Runs.PlacedIsReady | internal/gameplay/engine.go:361-383 | a placed request is an accepted order of its terms, reserved for and matched in the book of its symbol, no other book changing |
| Runs.RefusedOrderKeeps | internal/gameplay/engine.go:361-383 | a refused order changes no cash, holding, reservation, open order or book |
| Runs.CancelKeepsAgree | internal/gameplay/engine.go:448-452 | cancelling takes the order out of both indexes |
| Runs.CancelKeeps | internal/gameplay/engine.go:428-463 | a cancellation keeps every invariant and changes no cash and no shares |
| Runs.IntelKeeps | internal/gameplay/intel_support.go:126-139 | an intel purchase keeps every invariant and conserves shares, and total cash falls by its price if it is granted and not at all otherwise |
| Theorems.StepKeeps | internal/gameplay/engine.go:342-463 | every legal action keeps every invariant |
| Theorems.SolventUpToCharges | internal/gameplay/engine.go:516-731 | over every run: for everyone none of whose market buys cost more than its reservation, cash plus charges paid is at least the notional of all open buys, and so is reserved cash plus charges |
| Theorems.ReservationSandwich | internal/gameplay/engine.go:571-731 | over every run: 0 <= reserved cash <= what the open orders hold, and an open buy holds at most price times remaining |
| Theorems.SharesAreExact | internal/gameplay/engine.go:592-670 | over every run: reserved shares are the sum of open sells, the portfolio covers them, and covers the lots |
| Theorems.IndexesAgree | internal/gameplay/engine.go:385-452 | over every run: each book is well formed, open orders and resting orders are the same ones, each once, equal but for the status |
| Theorems.StepConserves | internal/gameplay/engine.go:342-463 | total cash, charges paid and intel spending add up to a constant; total shares are constant |
| Theorems.RunConserves | internal/gameplay/engine.go:342-463 | the same from the start to the end of every run |
| Theorems.PlacingCostsItsCharges | internal/gameplay/engine.go:361-413 | a placement costs all players together exactly the fees, surcharges and taxes of its trades; a refusal costs nothing |
| Replies.IntelAnswers | internal/gameplay/intel_support.go:108-139 | a purchase is granted if and only if the player is known, has the price free and is sold the intel, and then costs exactly the price; otherwise it is refunded, nothing changes, and the reply names the condition that fails |
| Replies.CancelAnswers | internal/gameplay/engine.go:428-451 | an order is cancelled if and only if its owner asks and names its symbol or none; every refusal names the condition that fails |
| Replies.CancelChanges | internal/gameplay/engine.go:428-463 | a cancellation takes just that order out of the open orders and its book and gives its owner back what it held; a refused one changes nothing |
| Replies.PlaceAnswers | internal/gameplay/engine.go:342-383 | an order is placed if and only if its player is known and has what it needs free, symbol and quantity are given, symbol, side and type are known and a limit price is positive |
| Replies.PlaceRefusals | internal/gameplay/engine.go:342-383 | a refusal names the first condition that fails |
| Replies.RequestedOrder | internal/gameplay/engine.go:351-378 | the order keeps the terms of the request; without a type it is a limit order |
| Replies.UntypedActsAsLimit | internal/gameplay/engine.go:356-359 | a request without a type never trades beyond its price and rests with all it has left |
| MarketBuys.PlacingMovesWorth | internal/gameplay/engine.go:595-620 | a placement changes each player's cash plus charges by exactly what its trades cost or bring that player; the trades are known from the book beforehand |
| MarketBuys.MarketBuyKeepsNotional | internal/gameplay/engine.go:394-405 | a market buy leaves everyone's open buys as they were |
| MarketBuys.MarketBuyKeepsSolvencyExactly | internal/gameplay/engine.go:530-537 | after a market buy cash plus charges covers the open buys if and only if its trades, shares bought from oneself apart, cost at most what cash plus charges exceeded the open buys by before |
| Limits.BoundIsReached | internal/gameplay/engine.go:649-659 | for every price and quantity a run ends with cash at exactly minus the charges paid |
| Limits.MarketBuyBreaksBound | internal/gameplay/engine.go:530-537 | for every shortfall a run with a market buy ends that far below minus the charges paid |
| RoundTrip.BookRoundTrip | internal/orderbook/orderbook.go:105-243 | placing a non-crossing limit order and cancelling it restores the book but for a sequence two higher |
| RoundTrip.PlayerRoundTrip | internal/gameplay/engine.go:649-695 | reserve, trim and refund restore the player |
| RoundTrip.PlaceThenCancel | internal/gameplay/engine.go:342-463 | the same for the whole state: books, open orders, cash, reservations, holdings and lots |
| Fills.DebitIsWhatBuyerPays | internal/gameplay/engine.go:595-606 | the debit of a trade is what settlement takes from a buyer who is not also the seller |
| Fills.FillsStayWithinReservation | internal/gameplay/engine.go:533-543 | the n fills of a limit buy debit at most its reservation plus n - ceil(n / 1000), so plus n - 1; a single fill is covered |
| Fills.RoundingBoundIsTight | internal/gameplay/engine.go:533-606 | for every n a match of n trades debits exactly that much more than was reserved |
| Fills.SellerIsNotCharged | internal/gameplay/engine.go:582-620 | settlement takes no cash from the seller of a trade if and only if its cost is at least one unit per charge that applies |
| Quotes.BuyIsReservedAsQuoted | internal/gameplay/engine.go:516-543 | a buy is granted if and only if the free cash pays for one trade of all of it at its price, the reference price or 100, for a market order five quarters of that rounded down, and reserves exactly the debit of that trade; a refusal says what was needed and free |
| Quotes.QuoteInNumbers | internal/gameplay/engine.go:530-537 | that debit is the notional, the least integer covering 10 basis points of it and for a market order 15 more |
| Quotes.SellIsReserved | internal/gameplay/engine.go:544-550 | a sell is granted if and only if that many shares are free, and reserves exactly those |
| Quotes.FillsWithinQuote | internal/gameplay/engine.go:530-606 | trades within the quantity and the quoted price cost at most what was reserved, and debit at most that and the rounding of n fills |
| Quotes.PlacedWithinQuote | internal/gameplay/engine.go:361-392 | so do the trades of every placed buy, a market one if none is dearer than the quote, and it never counts as overspent |
| Quotes.OverspentExactly | internal/gameplay/engine.go:361-392 | a placement counts its player as overspent if and only if it is a market buy whose trades cost more than was reserved |
| Quotes.ReleaseInNumbers | internal/gameplay/engine.go:556-569 | an order that does not rest gives back the cash or the shares it still holds, down to nothing reserved |
| Quotes.TrimInNumbers | internal/gameplay/engine.go:649-672 | an order that rests keeps the lesser of what it holds and what the rest of it needs, and gives back the difference |
| Quotes.CleanupInNumbers | internal/gameplay/engine.go:674-695 | an order cleaned up is forgotten, its owner has back what it held, and nothing else changes |
| Quotes.NormalizeInParts | internal/gameplay/engine.go:697-731 | normalizing trims an order with something left and cleans up one without |
| Taxes.RunKeepsOrder | internal/gameplay/engine.go:903-945 | over every run with non-decreasing times each player's lots stay in order of acquisition |
| Taxes.SalesAreTaxMinimal | internal/gameplay/engine.go:913-945 | after every such run no choice of lots taxes a sale less than the code does |
| Taxes.LotsCoverHoldings | internal/gameplay/engine.go:592-624 | over every run the shares held without a lot never grow, so shares bought in the run stay taxable by date |
| PlayerStore.IndexAfterUpsert | internal/state/player_store.go:111-129 | writing a record under its user name updates the lookup by player id at exactly that id |
| PlayerStore.Store.GetByPlayerID | internal/state/player_store.go:100-109 | the scan returns the record with that id, whatever the order it visits the map in, or nothing when there is none |
| PlayerStore.Store.Upsert | internal/state/player_store.go:111-129 | changes that record and no other |
| Exchange.Recent | internal/exchange/service.go:120-124 | newest trades first, cut only when there are more than 500 |
| Exchange.Service.PlaceOrder | internal/exchange/service.go:84-124 | places in the book of the symbol and in no other, and records the trades; an unknown symbol or invalid order changes nothing |
| Exchange.Service.CancelOrder | internal/exchange/service.go:177-189 | cancels in the book of the symbol and in no other |
| GameEngine.ReserveForIncoming | internal/gameplay/engine.go:516-554 | the reservation or the refusal with the amounts needed and available |
| GameEngine.FinalizeRestingReservation | internal/gameplay/engine.go:649-672 | the trim of a resting order, on the player's copy and the order |
| GameEngine.Engine.constructor | internal/gameplay/engine.go:24-44 | a fresh engine over clean players and empty books satisfies the invariant of every run |
| GameEngine.Engine.GetTouchedPlayer | internal/gameplay/engine.go:754-764 | reads a stored record once, afterwards its touched copy; the ledger seen through the copies does not change |
| GameEngine.Engine.ApplyTrade | internal/gameplay/engine.go:571-647 | settles one trade on touched copies and open orders as the ledger function does, also when buyer and seller are one; it fails exactly on an unknown player |
| GameEngine.Engine.CleanupOpenOrder | internal/gameplay/engine.go:674-695 | refunds and forgets an open order |
| GameEngine.Engine.NormalizeOpenOrder | internal/gameplay/engine.go:697-731 | trims an open order, or forgets it when nothing is left |
| GameEngine.Engine.CloseIncoming | internal/gameplay/engine.go:394-401 | rests the remainder with a trimmed reservation, or releases what is left of it |
| GameEngine.Engine.WriteBack | internal/gameplay/engine.go:409-413 | the store afterwards holds every touched copy and is otherwise unchanged |
| GameEngine.Engine.HandlePlaceOrder | internal/gameplay/engine.go:342-413 | store, open orders, books and reply change exactly as the placing action says, refusals included, and the invariant of every run is kept |
| GameEngine.Engine.HandleCancelOrder | internal/gameplay/engine.go:428-463 | the same for cancelling |
| GameEngine.Engine.HandleIntelBuy | internal/gameplay/intel_support.go:108-139 | the same for an intel purchase, debit and refund |
| Prices.AlignedIsOnGrid | internal/exchange/price_engine.go:338-346 | with a positive tick the aligned price is a positive multiple of it, less than a tick below the price |
| Prices.MoveIsBounded | internal/exchange/price_engine.go:103-109 | a move of at most m changes a price on the grid by at most m of it plus one tick, and stays on the grid |
| Prices.ApplyIsSound | internal/exchange/price_engine.go:54-128 | a trading step stays on the grid and within 3.5 percent and a tick of the previous price it returns |
| Prices.ShockIsSound | internal/exchange/price_engine.go:130-185 | a shock stays on the grid and within 35 percent and a tick; its effect survives the pruning, last in the list, where it is then indexed |
| Prices.RefreshIsSound | internal/exchange/price_engine.go:199-246 | drift stays on the grid and within 1.2 percent and a tick |
| Prices.PriceRests | internal/exchange/price_engine.go:199-223 | once every effect has expired, reading the price no longer changes it |
| Moves.ApplyFollows | internal/exchange/price_engine.go:103-125 | a trading step follows the sign of its raw move and comes within half a unit and a tick of that move, capped at 3.5 percent |
| Moves.ShockFollows | internal/exchange/price_engine.go:130-185 | a shock follows the sign of its percentage and comes within half a unit and a tick of it, capped at 35 percent; it leaves the running effects and last one of six tenths of its move, from its start for its duration or 30 seconds |
| Moves.ShockInHundredths | internal/exchange/price_engine.go:153-157 | so a hundred times the price is within 50 and a hundred ticks of the previous price times a hundred plus the percentage |
| Moves.RefreshFollows | internal/exchange/price_engine.go:199-246 | drift follows the sign of what pull remains and comes within half a unit and a tick of its move, which is the pull capped at 0.45 times the lesser of 0.18 and a thirtieth of the seconds gone by, capped at 1.2 percent |
| Moves.PruneIsRunning | internal/exchange/price_engine.go:248-261 | kept are exactly the effects that expire later, in order |
| Moves.EffectFades | internal/exchange/price_engine.go:263-278 | an effect's pull fades in proportion to the time it has left and is gone when it expires |
| Moves.BiasAddsUp | internal/exchange/price_engine.go:263-278 | the pulls of several effects add up |
| Moves.UnpricedStartsInitial | internal/exchange/price_engine.go:203-214 | a market without a price yet starts from the initial one |
| Moves.NoTickNoAlignment | internal/exchange/price_engine.go:339-341 | without a positive tick prices are not aligned |
| Moves.RoundsHalfAwayFromZero | internal/exchange/price_engine.go:106 | whole prices stay, and halves are rounded away from zero |
| Prices.RunStaysOnGrid | internal/exchange/price_engine.go:54-246 | over every run of trades, shocks and readings the price is a positive multiple of the tick |
| Prices.PruneExpired | internal/exchange/price_engine.go:248-261 | keeps exactly the effects that expire later, in order |
| Prices.PriceEngine.Apply | internal/exchange/price_engine.go:54-128 | changes the market of one symbol as the trading step does, within its bound; unknown symbols change nothing |
| Prices.PriceEngine.TriggerShock | internal/exchange/price_engine.go:130-185 | the same for a shock; indexing the last effect never fails |
| Prices.PriceEngine.Current | internal/exchange/price_engine.go:187-197 | reading a price stores what drift and expiry make of it |
| Events.EventEngine.ChooseDefinition | internal/marketevents/engine.go:263-285 | the two loops choose the first definition at which the chances reach the roll, always one with a chance, and never fall off the end |
| Events.EventEngine.Drawn | internal/marketevents/engine.go:227-261 | planning succeeds if and only if some definition has a chance and there is a ticker, whatever the random choices |
| Events.ChooseReaches | internal/marketevents/engine.go:273-283 | the roll lies above the chances before the definition chosen and within the chances up to it |
| Events.EventEngine.Tick | internal/marketevents/engine.go:177-208 | one step: what is planned, announced and fired, a draw being possible or not |
| Events.PollInFull | internal/marketevents/engine.go:177-208 | a step plans an interval ahead under the next number with the draw it made, fires what was planned and due, and announces just what it plans |
| Events.PollKeepsRegular | internal/marketevents/engine.go:177-261 | a step keeps the run regular: numbers without gaps, nothing early, the planned event the next one and in the future |
| Events.EventsFireInOrder | internal/marketevents/engine.go:177-261 | over every run: each event i has number i + 1 and fired once and not early, any j and i fired at least j - i intervals apart, and, also before any has fired, only the next one is planned and lies ahead |
| Intel.IntelEngine.RegisterNext | internal/intel/engine.go:296-309 | scheduling hands everyone who was waiting to the event |
| Intel.IntelEngine.PrepareScheduledPreview | internal/intel/engine.go:358-381 | recipients only for the scheduled event, once, and not before the lead time |
| Intel.IntelEngine.BuyInsider | internal/intel/engine.go:220-276 | a purchase arms for the scheduled or the following event, is answered at once, or is refused as already armed |
| Intel.PurchaseInFull | internal/intel/engine.go:220-276 | a purchase is refused if and only if the player already waits for the scheduled event, or for the next when there is none; otherwise the player joins, and is answered at once if and only if the event is no further off than the lead |
| Intel.PreviewInFull | internal/intel/engine.go:358-381 | a preview is prepared if and only if the event is the one scheduled, has had none, is no further off than the lead and has buyers; without buyers it is marked as sent all the same |
| Feed.PreviewProtocol | internal/intel/engine.go:220-381 | under every interleaving: one broadcast at most per event, none prepared before the lead time, no preview prepared after the event is published, publications in order |
| Previews.NotificationsFollowPreparation | internal/intel/engine.go:314-391 | under every interleaving: a preview is prepared for a player if and only if that player is notified or still to be; every notification follows a preparation, and is late exactly when the publication falls between the two |
| Previews.OwnHandOutIsInTime | internal/intel/engine.go:314-319 | what a poll hands out itself is never late |
| Previews.BroadcastGoesToBuyers | internal/intel/engine.go:358-381 | a broadcast is for exactly the buyers of the scheduled event at that moment, marks it as sent and puts all of them down for notification |
| Previews.PendingBecomeBuyers | internal/intel/engine.go:296-309 | everyone pending when an event is scheduled is among its buyers, and nobody stays pending |
| Previews.StepServesBuyer | internal/intel/engine.go:220-381 | a step serves a buyer of the scheduled event if and only if it tries a preview that is due and none has gone out |
| Previews.BuyerIsServed | internal/intel/engine.go:296-381 | over every run, also past the event's replacement: a buyer is served if and only if that was so already, or a preview falls due while the event is scheduled and none had gone out |
| Previews.WaiterIsServed | internal/intel/engine.go:296-381 | whoever waits for an event when it is scheduled is served if and only if a preview of it falls due while it is scheduled |
| Previews.PurchaseIsServed | internal/intel/engine.go:246-381 | whoever buys into a scheduled event is served if and only if the preview had not gone out without them, and the purchase is answered at once or a preview falls due while the event is scheduled |
| Previews.LongLeadLeavesNobodyOut | internal/intel/engine.go:250-275 | a purchase with at least the broadcast's lead time is never left out of a preview already sent |
| Schedules.NotificationCanBeLate | internal/intel/engine.go:191-198 | a run in which a purchase is answered before the event and notified after it is public |
| Schedules.ReplacedBeforePreview | internal/intel/engine.go:300-309 | a run with full lead time whose buyer is never served, the event having been replaced before a preview was tried |
| Schedules.ShortLeadLeavesOut | internal/intel/engine.go:250-270 | a run with a shorter lead time whose buyer is never served |
| Schedules.FailedDrawWouldAllowLatePreview | internal/marketevents/engine.go:188-196 | a run in which a draw fails after a firing and a preview is prepared after publication |

## Left out

- Feed.PreviewProtocol: requires that all draws of a run succeed or none does, which the event engine guarantees (`Events.EventEngine.Drawn`); that no planned event is left unfired for ever depends on polling and is not stated.
- Previews.PurchaseIsServed: says when a preview is prepared for a buyer; that a waiting notification is finally handed over depends on scheduling and is not stated.
- Prices.PriceEngine.Apply: the size of a trading move is any real number; fair value, pressure, trend, volatility and whale impulse, and the volumes and basis points reported beside the price, are not modelled.
- Prices.PriceEngine.TriggerShock: what a shock does to fair value, trend, pressure and volatility is not modelled, for the same reason.
- Prices.PriceEngine.Current: the adjustment of fair value in a drift step is not modelled.
- GameEngine.Engine.HandlePlaceOrder: requires that the request id is not the id of an open order, which the code does not check; the return in the middle of settlement when a trade names an unknown player (internal/gameplay/engine.go:388-392) is not modelled, the proof of the handler showing that it cannot be reached.
- GameEngine.Engine.constructor: requires players without reservations; reservations left in the player file after a restart are not modelled.
- PlayerStore.Store.Upsert: requires that a record keeps user name and player id; the code would also file a changed one.
- OrderBook.Book.AddResting: requires a priced limit order when something is left of it, as its one caller passes after validation.
- GameEngine.Engine.HandleIntelBuy: whether the purchase itself succeeds is a parameter; `Intel` says when an insider purchase is refused.
- Exchange.Service.PlaceOrder: the price update and its error return, the envelopes and the publishing that follow the match are not part of it; `Prices` models the update by itself.
- Exchange.Service.CancelOrder: the price refresh and the publishing that follow the cancellation are not part of it.
- GameEngine.Engine.ApplyTrade: touched copies are values in a map reassigned at each change, not pointers; the snapshot of a self-trader is the one copy under that id.
- OrderBook.Book.Place: requires remaining quantity 0, as its one caller passes; the code also takes a preset remainder. One time stamps all trades of a placement; the code reads the clock for each. The snapshot handed back is `Book.Snapshot` with depth 10 and is not part of the result. Orders rest by value in the queues, not as pointers.
- Order fields that nothing here depends on: request id, role, creation time; trade ids and roles in trades.
- Integers are unbounded; int64 overflow is not modelled. 64-bit floats are reals; 1.25 times a price is five quarters of it, rounded down.
- Locks, goroutines and channels: each action is one atomic step, timers may fire at any time and for any event. That an intel purchase answered at once notifies the player while the engine's own lock is held (internal/gameplay/intel_support.go:76-80 and 134) is outside the model.
- The cache is absent or never fails; its failure after a book has changed (internal/exchange/service.go:144-157) is not modelled. The price engine has a ticker for every book.
- Order of map iteration over buyers; recipients are sets. Event ids are numbers.
- Players registering during a run.
- Decoding, upper-casing and trimming of requests, JSON replies, logging, persistence, trade history, leaderboard, chat, catalog, rumour ticks, analytics, bootstrap tokens, roles: they would add only easy members.
