# Product service: a verified model

The product service of the RunAll platform sells container packages. This project models its flash sale (seckill) from the
first purchase request to the stored order, together with the arithmetic and the queries around it, and proves what the
service relies on.

A purchase request reaches Redis, where a script takes a unit of stock and appends an entry to one stream. A consumer group
drains the stream with two loops that share one consumer name: `consumeLoop` reads new entries, `reclaimLoop` claims entries
that were left pending. Both hand an entry to the same handler, which folds the stream id into a 64-bit key, looks the product
up, draws an order id and an instance id, inserts the order, publishes an event and finally has the entry acknowledged. Nothing
locks anything: two constraints of the orders table are the only thing that keeps a redelivered entry from being booked twice.

The modules, bottom up:

| module | what it models |
|---|---|
| `Int64`, `Bits` | Go's 64-bit wrap-around and bit operations on unsigned words |
| `StreamHash`, `RealIds`, `Residues`, `KeyPairs`, `RealKeys` | `hashStreamID`, and what it does to the ids Redis assigns |
| `IdGenerators` | the order id and the instance id |
| `XorShift` | the pseudo-random generator |
| `Orders`, `Booking`, `BookingLaws` | the orders table, `CreateOrder` and its callers, and laws over several calls |
| `Machine` | the consumer as a machine of atomic steps with any number of interleaved workers, failures and crashes |
| `Delivery`, `Ledgers`, `Guarantees` | what every reachable state of that machine satisfies |
| `Exactness`, `Refinement` | what every run refines, and when it also refines "acknowledge only what is booked", with real ids and clocks as such a case |
| `Loops`, `Solo` | the two loops as code, and the proof that a worker of the machine left alone does what the loop body does |
| `Recovery`, `LostOrder`, `LostEvent` | how every state can be recovered from, why orders and events get lost, and runs in which they do |
| `Admission`, `EndToEnd`, `Fulfilment` | the flash-sale rounds in Redis, alone and composed with the consumer |
| `Paging`, `Stability`, `Products`, `Instances` | paged listings, of an unchanging list and of one whose tied rows move, for products and for instances |
| `FieldMask`, `ProductService` | field masks, and the ListProduct call as a whole |
| `Counting` | counting lemmas |

Code that changes state is modelled by classes whose methods are proved against specification functions (`Booked`,
`HandleAll`, `Bought`, `Masked` and so on); the lemmas are about those functions. The concurrent consumer is a labelled transition
system, because its two loops really interleave. Every answer of Redis, the database, the broker and the clock is a parameter or a choice of a step.
A write can be refused, go through, or go through and still be reported as failed.

## Findings

Five properties one might expect do not hold of the code. For each the project proves when it fails and when it holds.

* *Distinct messages have distinct keys.* False: the stream ids 1738300000000-4407 and 1749562500800-0 have the same key
  (`RealIds.KeysCollide`). `StreamHash.SameKeyIff` says exactly when two ids share a key. What a caller can rely on is the number of
  digits after the dash: until March 2030 ids with up to three never share a key, and with a fourth they do (`RealKeys.ThreeDigitsAtMost`).
* *An acknowledged message has an order.* False, and without any failure: whatever arrives, if two of the messages have one key, or their
  users agree in fifteen bits and both order ids are drawn in one millisecond, there is a run that acknowledges both and books one
  (`LostOrder.AckedWithoutOrder`). There is no other cause than such a collision: `LostOrder.UnbookedHasRival` names the row of another job
  that stood in the way. Where keys differ and no two jobs draw one order id it holds (`Refinement.AckedIsBooked`).
* *An acknowledged message has had its event published.* False: a duplicate insert returns nil and skips the publish.
  `LostEvent.AckedWithoutEvent` is such a run. `Guarantees.MessageAnnouncedIff` says exactly when a message has had its event sent:
  it is booked, no publish of the run that carried the event was refused, no insert of its row was reported as failed, no worker
  crashed over it, and none still holds it.
* *A round's orders are for the round's product.* False once a round of another product is opened than the one the server read when it
  started, for the handler ignores the product the entry carries: `Fulfilment.WrongProductOrdered` is such a run, and
  `EndToEnd.OrderProductIff` the condition.
* *Reading every page yields the whole list.* Of an unchanging list it does exactly if the number of the last page and its offset are
  below 2^32 (`Paging.PagesTileIff`, with `Paging.ThirdPageStartsOver` and `Paging.LastPageUnnamed` as failing inputs). As the database
  may arrange rows with equal sort keys anew for each page, the reader is sure to see the whole list exactly if, moreover, no such tie
  straddles a page border (`Stability.ReadsCompleteIff`, for products `Products.ReadsCompleteIff` and for instances
  `Instances.ReadsCompleteIff`; `Stability.TiesRepeatARow` gives the failing reads).

## Model

| member | source | states |
|---|---|---|
| `StreamHash.HashStreamID` | internal/service/seckill.go:52-61 | the loop over wrapping int64 values computes the fold over unbounded integers, wrapped once and sign-flipped once |
| `StreamHash.HashSign` | internal/service/seckill.go:57-60 | the key is negative exactly when the fold is 2^63 modulo 2^64, and zero, the value that makes `CreateOrder` invent a key, exactly when the fold is a multiple of 2^64 |
| `StreamHash.SameKeyIff` | internal/service/seckill.go:52-61 | two ids present the same key exactly when their folds agree or cancel modulo 2^64 |
| `StreamHash.FoldInjective` | internal/service/seckill.go:53-56 | without wrap-around no two texts of digits and dashes, of whatever lengths, have the same fold |
| `StreamHash.WrappedSeparation` | internal/service/seckill.go:53-56 | two such texts that agree on all but their last thirteen characters have different folds even modulo 2^64, for every common prefix |
| `RealKeys.OrdinaryKeysDistinct` | internal/service/seckill.go:50-61 | distinct ids of thirteen digits starting with 17 or 18, as assigned until March 2030, a dash and one to three digits have distinct keys, wrap-around and sign flip included |
| `RealKeys.OrdinaryKeyPositive` | internal/service/seckill.go:57-60 | the key of such an id lies strictly between 0 and 2^63, so a message never enters the branch for a missing key |
| `RealKeys.ThreeDigitsAtMost` | internal/service/seckill.go:50-61 | three digits are the most: with a fourth, ids share keys with ids of one |
| `RealIds.OneDigitBand` | internal/service/seckill.go:52-61 | with a one-digit sequence, until January 2027, the wrapped fold always has the sign bit set and the key lies in a fixed band |
| `RealIds.KeysCollide` | internal/service/seckill.go:50-61 | a concrete pair of real ids with one key: the fold is not injective once a millisecond has thousands of messages |
| `IdGenerators.RandomBit3` | internal/data/instance_id_generator.go:39-44 | the counter is local, so the three bits are always zero |
| `IdGenerators.GenerateInstanceId` | internal/data/instance_id_generator.go:29-37 | the generated id is the packed word read as a signed number, with zero random bits |
| `IdGenerators.OrderIdDecodes` | internal/data/order_id_generator.go:29-42 | for every clock value, before the epoch too, the id lies in [0, 2^61) and the documented shift and mask recover time and user bits |
| `IdGenerators.OrderIdsEqualIff` | internal/data/order_id_generator.go:29-42 | order ids are equal exactly when both the masked time and the user bits are |
| `IdGenerators.OrderIdsIncrease` | internal/data/order_id_generator.go:29-42 | within 2^46 milliseconds of the epoch a later clock gives a larger order id, whoever the users are |
| `IdGenerators.EpochIs` | internal/data/instance_id_generator.go:14-15 | time starts at 1768665600000: an order id is 2^15 times the milliseconds since then plus the low fifteen bits of the hash |
| `IdGenerators.InstanceIdDecodes` | internal/data/instance_id_generator.go:29-37 | within 2^45 milliseconds of the epoch an instance id is non-negative and decodes to user bits, elapsed milliseconds and zero |
| `IdGenerators.InstanceIdsEqualIff` | internal/data/instance_id_generator.go:29-37 | in that window instance ids are equal exactly when millisecond and user bits are |
| `IdGenerators.IdsAgree` | internal/biz/order.go:217-228 | the low fifteen bits of the order id and the bits from 48 up of the instance id of one booking agree, whatever the two clock readings |
| `IdGenerators.ClockWindowExact` | internal/data/instance_id_generator.go:29-37 | the window is exact: outside it some user's bits can no longer be read back |
| `XorShift.AdvanceIsBijective` | pkg/random/xorshift.go:20-24 | the three-shift update has an explicit inverse on both sides and fixes zero only |
| `XorShift.NeverZero` | pkg/random/xorshift.go:11-26 | no state of a run from a usable seed is zero |
| `XorShift.ReturnsToSeed` | pkg/random/xorshift.go:19-26 | from every usable seed the state comes back to that very seed within 2^64 - 1 calls |
| `XorShift.Repeats` | pkg/random/xorshift.go:19-26 | from then on the run repeats itself |
| `XorShift.OutputUndone` | pkg/random/xorshift.go:25 | the multiplication modulo 2^64 is undone by a constant |
| `XorShift.OutputsTellStates` | pkg/random/xorshift.go:25 | two outputs agree exactly when their states do, and no usable state puts out zero |
| `XorShift.NBitsIsRange` | pkg/random/xorshift.go:31-40 | for 1 to 63 bits, masking and drawing from [0, 2^bits) give the same state and the same value |
| `XorShift.XorShift64Star.constructor` | pkg/random/xorshift.go:11-16 | seed 0 is replaced by 0x9e3779b97f4a7c15, so the state is never zero |
| `XorShift.XorShift64Star.Next64` | pkg/random/xorshift.go:19-26 | one update and its output; a non-zero state stays non-zero and puts out no zero |
| `XorShift.XorShift64Star.RandNBits` | pkg/random/xorshift.go:31-40 | state and value as specified for 0, for 1 to 63 and for 64 and more bits |
| `XorShift.XorShift64Star.Rand3Bits` | pkg/random/xorshift.go:44-46 | the same as RandNBits(3) |
| `XorShift.XorShift64Star.Rand16Bits` | pkg/random/xorshift.go:54-56 | the same as RandNBits(16) |
| `XorShift.XorShift64Star.RandRange` | pkg/random/xorshift.go:70-75 | the value is min plus what the output of one call leaves on division by max - min, so it lies in [min, max) without overflow, and an empty range returns min and leaves the state alone |
| `XorShift.DieShows` | pkg/random/xorshift.go:74 | a draw from [1, 7) is 1 plus the remainder on division by six |
| `Orders.RowRoundTrip` | internal/data/order.go:15-25 | an order is read back unchanged exactly if its status is not empty, for which the column has the default PENDING; a row survives the way back unless it holds the instance id 0, written as NULL, or an empty status |
| `Orders.InsertKeepsKeys` | README.md:95-96 | an insert keeps rows under their primary key and (product_id, req_id) unique |
| `Orders.StoredIff` | internal/data/order.go:61-89 | an insert stores the row exactly if no row has its order id and none its product and key, and is told from a failure otherwise; no other row changes |
| `Orders.StatusReached` | internal/data/order.go:125-140 | after a status change the row has the status passed, paid_at or completed_at is the moment exactly if that status is PAID or COMPLETED, and all else is as before |
| `Orders.OrderRepo.Create` | internal/data/order.go:61-89 | the new table and the reply for every table and fault, both unique constraints reported alike |
| `Orders.OrderRepo.GetByID` | internal/data/order.go:92-121 | the stored order, or nothing on a missing row or an error |
| `Orders.OrderRepo.UpdateStatus` | internal/data/order.go:124-147 | status and the timestamp that belongs to it change in one row; a missing order is no error |
| `Booking.NewRowIs` | internal/biz/order.go:207-243 | the row a booking adds has status PAID, is created and paid at the same moment and not completed, and carries user, product, key, price and the two ids; no other row changes |
| `Booking.PreparedIs` | internal/biz/order.go:200-215 | an order is prepared exactly if the product is found, enabled and has a specification, at its price; otherwise the error says which of these failed |
| `Booking.RefusedEarly` | internal/biz/order.go:200-215 | a booking refused for that reason changes neither table nor events |
| `Booking.PlacedIs` | internal/biz/order.go:243-268 | for any order: row, event and answer by whether it fits the table and what insert and publish meet |
| `Booking.BookingEnds` | internal/biz/order.go:186-271 | the same for a whole booking under the ids drawn: success takes an insert and a publish without failure, a unique violation is reported exactly if the row does not fit, and the event goes out only for a row known to be stored |
| `Booking.AcknowledgesIff` | internal/service/seckill.go:37-47 | the caller acknowledges on success and on a unique violation, and on nothing else |
| `Booking.OrderUsecase.CreateOrder` | internal/biz/order.go:186-271 | table, events and result of all stages, with an exit at each of them |
| `Booking.OrderUsecase.HandleSeckillOrder` | internal/service/seckill.go:31-48 | books under the key of the stream id and reports success also on a unique violation |
| `Booking.OrderUsecase.PurchaseProduct` | internal/biz/order.go:274-297 | an empty user is refused without effect; otherwise the answer is the booked order as the table holds it, exactly if booking and reading succeed |
| `BookingLaws.RedeliveryIsSilent` | internal/service/seckill.go:39-43 | once its key is stored, booking a message again changes neither table nor events, and reports success exactly when product lookup and connection hold up |
| `BookingLaws.DeliveriesAreOne` | internal/service/seckill.go:31-48 | any number of deliveries of a message leaves what a single one of them would have left, or nothing: one row and one event at most |
| `BookingLaws.EventAnnouncesRow` | internal/biz/order.go:245-266 | an attempt sends an event only for a row it stored itself, with the instance and user of that row and the name and specification of the product |
| `BookingLaws.DoneMeansTaken` | internal/service/seckill.go:37-47 | success is reported only over a row with the key of the message or over a row that happens to hold the order id drawn |
| `BookingLaws.PurchasesRepeatIff` | internal/biz/order.go:190-198 | on any table, the second of two purchases without a key, by any users, is stored exactly if it fits the table as it was, its order id differs (clock or user bits), and so does its invented key unless the products differ |
| `BookingLaws.StepEvolves` | internal/data/order.go:61-147 | a booking or a status change loses no row, clears no timestamp, changes no column an order is created with, and adds only its own booking |
| `BookingLaws.RunEvolves` | internal/data/order.go:61-147 | the same over any run of bookings and status changes |
| `BookingLaws.RowsOfAnyRun` | internal/biz/order.go:207-243 | every row of any run goes back to the booking that added it, of an enabled product at the price then read, created and paid at its moment with status PAID, for its user, product and key; it has the timestamps of its status and carries matching order and instance ids |
| `BookingLaws.BookedStays` | internal/data/order.go:92-147 | an order booked with success is stored as PAID and is read back, after anything that happens later, with the user, product, price, key, ids and time of creation it was booked with |
| `Delivery.StepKeeps` | internal/server/redis.go:220-315 | every step keeps pending, acknowledged and delivered entries apart and each worker's batch among delivered entries with a uid where one is handled |
| `Delivery.NoMessageLost` | internal/server/redis.go:220-315 | the same over any run |
| `Machine.TakenByUid` | internal/server/redis.go:246-251 | a worker that takes an entry skips it exactly if its uid is empty or "<nil>" and otherwise goes on to book it |
| `Ledgers.StepKeeps` | internal/biz/order.go:186-271 | every step keeps: rows made for their jobs, one event per announced row, unsent rows in exactly one worker's hands, acknowledgements with a reason |
| `Ledgers.RunKeeps` | internal/biz/order.go:186-271 | the same over any run of any number of workers |
| `Guarantees.DeliveredSplit` | internal/server/redis.go:245-263 | in every reachable state each delivered entry is either pending or acknowledged, and one whose uid is empty or "<nil>" is never acknowledged |
| `Guarantees.PendingLeavesByAck` | internal/server/redis.go:254-262 | an entry leaves the pending list exactly by an XACK that goes through after a handler that returned nil |
| `Guarantees.AckedHasRow` | internal/service/seckill.go:37-47 | for an acknowledged message, some Prepare step of the run drafted a row, and the table holds a row with its order id or with its product and key |
| `Guarantees.DraftedByRun` | internal/biz/order.go:217-243 | the history of drafts is exactly what the steps of the run drafted |
| `Guarantees.RowIsFor` | internal/biz/order.go:207-243 | in every reachable state the row of a message is for the user of its entry, the product of the server and the folded id, and the row of a direct purchase for the user and product asked for |
| `Guarantees.BookedOnce` | README.md:96 | however often a message with a key is redelivered or claimed concurrently, it has at most one row |
| `Guarantees.SharedKeyStarves` | internal/service/seckill.go:39-43 | of two messages with one key at most one is ever booked |
| `Guarantees.EventsMatchRows` | internal/biz/order.go:245-267 | every event carries the instance id of a stored row, and no row is announced twice |
| `Guarantees.RowsConserved` | internal/biz/order.go:245-267 | rows = published events + rows in the hands of workers about to publish + the number of steps of the run that lost an event |
| `Guarantees.AnnouncedIff` | internal/biz/order.go:245-267 | row by row: a stored row has been announced exactly if no worker is about to publish it and no step of the run lost its event |
| `Guarantees.MessageAnnouncedIff` | internal/service/seckill.go:37-47 | a message with a key, acknowledged or not, has had its event sent exactly if it is booked, no step of the run lost the event and no worker still holds the row |
| `Guarantees.LostExactly` | internal/biz/order.go:245-267 | a step loses an event exactly by a refused publish, an insert that is stored but reported as failed, or a crash between insert and publish; none is lost twice or comes back |
| `Guarantees.LostByRun` | internal/biz/order.go:245-267 | after any run an event is lost exactly if it was before or some step of the run lost it |
| `Guarantees.LostCounted` | internal/biz/order.go:245-267 | and as many more are lost as there are losing steps |
| `Exactness.ViolationIsOwn` | internal/service/seckill.go:39-43 | under the stated discipline the row a message's insert collides with is the message's own |
| `Exactness.StepKeeps` | internal/service/seckill.go:31-48 | distinct keys, and order ids no two jobs share, are enough for every step to keep "acknowledged implies booked", several drafts of one message with one id included |
| `Refinement.StepSimulates` | internal/server/redis.go:220-315 | whatever order ids are drawn, keys are shared and calls fail, every step is a stutter or one step of "book at most once, announce at most once and only when booked, finish" |
| `Refinement.RunRefines` | internal/server/redis.go:220-315 | so every run in which no message has the key zero is a safe run of that specification: announced messages are booked |
| `Refinement.OrdinaryRunsRefine` | internal/server/redis.go:220-315 | in particular every run over ids of up to three digits |
| `Refinement.StepIsExact` | internal/service/seckill.go:37-47 | under the discipline (distinct keys, order ids no two jobs share, purchases clear of the keys of messages) a step finishes only a booked message |
| `Refinement.DisciplinedRefines` | internal/server/redis.go:220-315 | so a disciplined run also keeps acknowledged messages among the booked ones |
| `Refinement.AckedIsBooked` | internal/server/redis.go:254-262 | and each acknowledged message has exactly one order, made for its buyer |
| `Refinement.PurchaseKeyBelowBand` | internal/biz/order.go:190-198 | keys invented for direct purchases stay below the keys of messages until the year 2313 |
| `Refinement.CalmRunsBookExactly` | internal/service/seckill.go:31-48 | until January 2027, ten messages a millisecond at most, direct sales of the same product included, and fresh order ids make every run refine the stricter specification and book each acknowledged message exactly once |
| `Refinement.BusyRunsBookExactly` | internal/service/seckill.go:31-48 | so do up to a thousand messages a millisecond, until March 2030, while the product is not sold directly |
| `Loops.AcknowledgedIff` | internal/server/redis.go:247-262 | a message leaves the pending list exactly when the product is bookable, its insert stores and is published or meets a constraint, and the XACK works |
| `Loops.HandledByUid` | internal/server/redis.go:247-262 | an entry whose uid is empty or "<nil>" is passed over without effect; with any other text it is acknowledged if nothing fails |
| `Loops.HandledFor` | internal/server/redis.go:253-255 | an order the loop body adds is for the user of the entry, the product of the server and the folded id |
| `Loops.SmoothBatch` | internal/server/redis.go:301-313 | with nothing failing a batch acknowledges precisely its entries whose uid is neither empty nor "<nil>" |
| `Loops.ClaimCovers` | internal/server/redis.go:281-299 | one claim takes exactly the pending entries between the old cursor and the new one |
| `Loops.SeckillStreamServer.Xadd` | tests/seckill.http:82-83 | the entry is appended to the stream and nothing else changes in the group |
| `Loops.SeckillStreamServer.HandleBatch` | internal/server/redis.go:245-263 | pending list, acknowledgements, table and events after a batch, for every outcome of every call |
| `Loops.SeckillStreamServer.ConsumeOnce` | internal/server/redis.go:228-264 | a pass makes up to 128 new entries pending and handles them in order |
| `Loops.SeckillStreamServer.Round` | internal/server/redis.go:281-313 | one claim and its batch for every outcome of every call: the entries between the two cursors are handled in order |
| `Loops.SeckillStreamServer.Sweep` | internal/server/redis.go:273-313 | whatever fails, a turn of the cursor over n idle entries takes ceil(n/128) rounds and handles each of them once, in order |
| `Loops.AllSettled` | internal/server/redis.go:301-313 | if nothing fails, such a turn leaves pending exactly the entries whose uid is empty or "<nil>" |
| `Solo.SoloIsLoopBody` | internal/server/redis.go:246-263 | from any state of the machine, the steps of one worker alone do to table, events sent, pending list and acknowledgements exactly what the loop body does |
| `LostEvent.AckedWithoutEvent` | internal/service/seckill.go:37-43 | a run in which a message is booked and acknowledged while no event is ever sent: the publish is refused once and the redelivery meets the stored row |
| `Recovery.Recoverable` | internal/server/redis.go:219-315 | from every state, however workers were interrupted and whatever failed before, steps of the first worker alone, which may stop and start again but for which no call fails, get every entry whose uid is neither empty nor "<nil>" delivered and acknowledged without losing an event |
| `Recovery.SupplyExists` | internal/data/order_id_generator.go:29-42 | as long as drafts and entries number less than 2^46 some clock readings give each message an order id no other job has drawn |
| `LostOrder.UnbookedHasRival` | internal/service/seckill.go:37-47 | if an acknowledged message has no order, the table holds the row of another job, drafted in the run, with the order id or with the product and key of a row drafted for the message; another message among these has the same order id or the same key |
| `LostOrder.SharedKeyCostsOrder` | internal/service/seckill.go:37-43 | from every reachable state with two messages of one key in the stream some steps without failure acknowledge both and leave one without an order |
| `LostOrder.SharedIdCostsOrder` | internal/data/order_id_generator.go:29-42 | the same for two messages yet to be drafted whose users agree in fifteen bits, if both order ids are drawn in one millisecond |
| `LostOrder.AckedWithoutOrder` | internal/service/seckill.go:37-43 | whatever sequence of entries with distinct ids arrives, if two of them collide in one of these ways there is a run from the start that loses an order so |
| `Admission.OpenedIsSound` | internal/data/seckill.go:39-59 | opening a round establishes its invariant with the whole stock unsold |
| `Admission.BoughtKeeps` | tests/seckill.http:53-85 | a request sells exactly to a new buyer while a unit is left, is told "already purchased" exactly for a listed buyer and "out of stock" exactly for a new one with nothing left; stock + sold stays the initial stock, and buyers, request numbers and stream entries correspond one to one |
| `Admission.AnswerIs` | tests/seckill.http:53-85 | the same answers, and every key afterwards, also when no round is open |
| `Admission.BuyersDistinct` | tests/seckill.http:60-64 | nobody has two entries in a round |
| `Admission.RoundSells` | tests/seckill.http:53-85 | however requests arrive, a round sells to min(stock, number of different people asking), and to all of them unless it runs out |
| `Admission.ClosedSellsNothing` | internal/data/seckill.go:132-153 | after ClearSeckill nothing sells, whoever asks and however often, until the next opening |
| `Admission.SeckillRepo.InitSeckill` | internal/data/seckill.go:39-84 | the keys afterwards; a stock that is not positive changes nothing; the stream is kept |
| `Admission.SeckillRepo.ClearSeckill` | internal/data/seckill.go:132-153 | all five keys are gone |
| `Admission.SeckillRepo.Purchase` | tests/seckill.http:53-85 | the documented script command by command computes the specified transition |
| `Admission.SeckillRepo.GetCurrentSeckill` | internal/biz/seckill.go:52-64 | product and stock, a missing stock reading as zero, or no sale, or a stock that does not fit 32 bits |
| `EndToEnd.RunKeeps` | internal/data/seckill.go:39-59 | the invariants of all rounds and of the consumer survive any interleaving of sales, openings and consumer steps |
| `EndToEnd.SaleHasSpan` | internal/data/seckill.go:39-59 | every entry of the stream belongs to a round, the open one or one before it |
| `EndToEnd.NoOversell` | internal/data/seckill.go:39-59 | in every run the orders booked for any round, open or past, never outnumber the units it sold, hence never its stock |
| `EndToEnd.OneOrderPerBuyer` | tests/seckill.http:60-64 | within any round no user has two orders |
| `EndToEnd.OrderProductIff` | internal/server/server.go:37-55 | the orders of any round are for its product exactly when the server was started for that product |
| `Fulfilment.FairOpening` | internal/data/seckill.go:39-59 | a round opened over an empty stream and a consumer that has not started satisfies every invariant the next rows start from |
| `Fulfilment.DrainedRoundIsBooked` | internal/server/redis.go:254-262 | once a round is acknowledged its orders are exactly as many as the units sold, if keys are distinct and no two jobs draw one order id |
| `Fulfilment.BuyersGetTheirOrder` | internal/server/redis.go:254-262 | and each buyer of the round, and nobody else, has exactly one of them |
| `Fulfilment.BuyersBought` | tests/seckill.http:76-77 | the buyers of the open round are those its hash lists |
| `Fulfilment.RealSalesAreFulfilled` | internal/server/redis.go:254-262 | both for real ids: ten messages a millisecond at most with direct sales of the product going on, a thousand without |
| `Fulfilment.RoundsCanBeDrained` | internal/server/redis.go:219-315 | from every state of such a sale with less than 2^46 drafts and entries one worker, for which nothing fails, can get every round acknowledged in steps that keep to the same assumptions |
| `Fulfilment.WrongProductOrdered` | internal/server/server.go:37-55 | a run in which a round of the server's product is followed by one of another, and the buyer gets an order for the former product |
| `Paging.PageIsSliceIff` | internal/data/product.go:125-132 | a page holds the rows it should exactly when its 32-bit offset does not wrap, or wraps to beyond the end as well |
| `Paging.PagesPrefix` | internal/data/product.go:125-132 | the first n pages are a prefix of the list as long as no offset wraps |
| `Paging.PagesTileIff` | internal/data/product.go:125-132 | requests for all pages return the list exactly when the number of the last page and its offset are below 2^32 |
| `Paging.ThirdPageStartsOver` | internal/data/product.go:130 | a failing input: at 2^31 rows a page, page 3 lists the first page again |
| `Paging.LastPageUnnamed` | internal/data/product.go:126-130 | a failing input: of 2^32 rows read one by one the last cannot be asked for |
| `Products.BuildFilter` | internal/service/product.go:111-138 | the filter of a request: bounds only when positive, page and size defaulted, unknown enumeration values dropped |
| `Products.RequestsNeverFail` | internal/data/product.go:230-258 | whatever numbers a request holds, its filter never reaches an error branch: 1 to 4 sort by price, cpu, memory and gpu, downwards exactly for 2, anything else by nothing; page 0 is page 1 and size 0 is 20 |
| `Products.AnswerIsSorted` | internal/data/product.go:230-258 | which column the rows of an answer ascend or descend in, for each number of the request |
| `Products.ProductIs` | internal/data/product.go:140-160 | the product of a row, column by column |
| `Products.NoSizeListsAll` | internal/data/product.go:121-132 | without a page size the whole answer is listed |
| `Products.OrderingFailsIff` | internal/data/product.go:230-258 | the ordering fails exactly on an unknown sort field, or an unknown direction for a known one |
| `Products.ProductRepo.List` | internal/data/product.go:100-163 | fails only with the database or on an unknown ordering; otherwise the copied window of the answer and the number of matching rows |
| `Products.PagesTileIff` | internal/data/product.go:100-137 | requests for all pages return every product in the price range once, in the requested order, exactly under that condition; total is their number |
| `Products.MatchingIff` | internal/service/product.go:117-124 | which products a request selects: a bound that is not positive is no bound |
| `Products.ReadsCompleteIff` | internal/data/product.go:121-132 | if tied rows may move between the reads, all pages together are sure to show every product in the price range once exactly if the rows on the two sides of every page border differ in the sort column, and the last page can be asked for |
| `Stability.OneArrangementIff` | internal/data/product.go:230-258 | for rows and orders of any kind, an answer is the only arrangement exactly if no two of its rows are tied |
| `Stability.TiesRepeatARow` | internal/data/product.go:121-132 | any answer with a tie has a second arrangement, and one page of each can show a row twice |
| `Stability.ReadsCompleteIff` | internal/data/product.go:121-132 | with each page from an arrangement of its own, all pages together are sure to show every row, and once, exactly if no tie straddles a page border and number and offset of the last page are below 2^32 |
| `ProductService.ListProduct` | internal/service/product.go:47-67 | the reply holds the masked products of the requested page, echoes page and size as used, and fails only with the database |
| `ProductService.MessageIs` | internal/service/product.go:166-195 | what a reply without a mask shows of a row, column by column, an enabled product as 1 and any other as 0 |
| `ProductService.RepliesAreMasked` | internal/service/product.go:54-60 | with a mask each row shows what the mask leaves of that, in the order of the rows |
| `Instances.InstanceRepo.GetProductByID` | internal/data/order.go:167-202 | a product needs both its row and its specification row |
| `Instances.InstanceRepo.BuildInstanceInfo` | internal/data/order.go:287-318 | the info of an order with an instance and a known product, with the status derived from the order |
| `Instances.InstanceRepo.ListInstances` | internal/data/order.go:238-284 | the infos of a page in order, rows with failing lookups skipped, and the count before skipping |
| `Instances.InstanceUsecase.ListInstances` | internal/biz/order.go:323-333 | the same with page and size defaulted |
| `Instances.BuiltInOrder` | internal/data/order.go:272-281 | the infos come from rows taken in order, and a row is passed over only if its product cannot be read |
| `Instances.SelectedIff` | internal/data/order.go:240-252 | an order is selected exactly if it has an instance and agrees with the user and the status asked for, if any |
| `Instances.ListedDescribes` | internal/data/order.go:287-318 | every info listed has the ids, user and time of a selected order, name and specification of its product, and the status CREATING, RUNNING, DELETED or UNKNOWN as the order is PAID, COMPLETED, CANCELLED or other; every selected order whose lookups succeed has such an info |
| `Instances.ListedOrLost` | internal/data/order.go:272-281 | the orders listed and the orders lost make up the selected ones, each listed once |
| `Instances.PagesTile` | internal/data/order.go:238-284 | over all pages, if number and offset of the last are below 2^32: every selected order with a readable product, newest first, once; total minus listed is the number lost |
| `Instances.PagesTileIff` | internal/data/order.go:259-264 | where no lookup fails that condition is exact: beyond it an order is listed twice |
| `Instances.AnswersAre` | internal/data/order.go:241-270 | the answers of the query are the arrangements of the selected rows by time of creation |
| `Instances.ReadsCompleteIff` | internal/data/order.go:259-270 | if orders of one creation time may move between the reads, all pages together are sure to show every selected order once exactly if no such tie straddles a page border and the last page can be asked for |
| `FieldMask.TrimCuts` | internal/service/product.go:273 | trimming cuts white space from the two ends and nothing else |
| `FieldMask.SpacesAre` | internal/service/product.go:273 | the 25 characters that count as white space |
| `FieldMask.NormalizeMaskPaths` | internal/service/product.go:270-280 | the trimmed paths that are not empty |
| `FieldMask.HasSpecField` | internal/service/product.go:282-289 | whether some path lies below "spec", in whatever order the map is walked |
| `FieldMask.ApplySpecMask` | internal/service/product.go:242-268 | exactly the allowed fields of the specification survive |
| `FieldMask.MaskedSpecIs` | internal/service/product.go:242-268 | with "spec" the whole specification stays, otherwise each of the five fields exactly by its own path |
| `FieldMask.MaskSays` | internal/service/product.go:206-240 | which fields of a product stay under a list of paths, field by field, and that all stay without paths |
| `FieldMask.ApplyProductMask` | internal/service/product.go:206-240 | the field-by-field copy is the projection onto what the mask keeps, and without paths the identity |
| `FieldMask.MaskLaws` | internal/service/product.go:206-240 | masking twice is masking once, and two masks commute |
| `FieldMask.Combined` | internal/service/product.go:206-240 | one mask always does the work of two, keeping what both keep |
| `FieldMask.UnionJoins` | internal/service/product.go:206-268 | the paths of a mask act independently: together they keep what any of them keeps |
| `FieldMask.SamePaths` | internal/service/product.go:270-280 | order, repetition, blanks around a path and blank paths make no difference |
| `FieldMask.SpecDominates` | internal/service/product.go:242-248 | beside "spec" the paths below it say nothing |
| `FieldMask.OneSpecPath` | internal/service/product.go:236-238 | a path below "spec" keeps its own field, if it names one, and an otherwise empty specification |
| `FieldMask.BlankKeepsNothing` | internal/service/product.go:210-212 | a list of blank paths is not an empty list: it keeps nothing |
| `FieldMask.SameEffectIff` | internal/service/product.go:206-240 | two masks act alike on every product exactly when they keep the same |

## Left out

- Solo.SoloIsLoopBody: the machine's events carry order and instance id, the loops' events the whole message; compared are the instance ids in order.
- Loops.SeckillStreamServer.Sweep: one loop running alone over entries that are all idle; XAUTOCLAIM's scan limit and its handling of deleted entries are not modelled.
- Loops.SeckillStreamServer.ConsumeOnce: the two-second block and the pause after an error are not modelled; reads in the machine may return any number of entries up to 128.
- Orders.RowRoundTrip: the default of created_at, which applies to the zero time, is not modelled; no order is built with it.
- Products.ProductRepo.List: the database's answer is any arrangement the query allows; product timestamps and the specification's own id are not carried.
- Instances.PagesTile: the catalogue and the failing lookups are fixed over the reads of all pages; `Instances.ReadsCompleteIff`, where the arrangement may change, speaks of the rows before the lookups.
- XorShift.ReturnsToSeed: gives periodicity, not the maximal period 2^64 - 1, which needs the order of a matrix over GF(2).
- EndToEnd.NoOversell: assumes that no message has the key zero, which real ids never have (`RealKeys.OrdinaryKeyPositive`); ClearSeckill, which deletes the stream under the consumer, is not among its moves.
- Fulfilment.BuyersGetTheirOrder: assumes that no two jobs draw one order id; two users with the same fifteen bits in one millisecond do (`LostOrder.SharedIdCostsOrder`).
- Refinement.RunRefines: says nothing of runs in which a message has the key zero; no real id of up to three digits has it (`RealKeys.OrdinaryKeyPositive`).
- LostOrder.AckedWithoutOrder: ids arrive in any order here, while Redis assigns ascending ones, which are among these; ids are compared for equality only.
- Rand8Bits, Rand32Bits and Rand64Bits: further masks of the same kind as Rand3Bits and Rand16Bits.
- The `redis == nil` errors and the errors of Redis commands in internal/data/seckill.go.
- Interleaving inside InitSeckill's pipeline, which is not a transaction: it is one step here. Its comments in tests and docs say that it clears the stream; the code does not, and the model follows the code.
- The purchase script exists only as documentation, with the key names seckill:req_seq, seckill:uid2req and seckill:stream_orders; the model uses the keys of internal/data/seckill.go.
- A product query without a row: with `Scan` it leaves a zero product, which is refused as disabled, although the code also has a branch for "not found"; the model refuses it as not found, and no caller tells the two errors apart.
- Matching of error texts: errors are kinds, and both unique constraints give the same kind.
- xxhash: an arbitrary 64-bit function of the user id. The clock: a parameter of each reading, never assumed monotone.
- Timers, tickers and the ten seconds of idleness: an entry may become idle at any time, also while a worker still handles it.
- `Start`, `Stop` and `ensureGroup`: workers start and crash at any time; cancellation is a crash.
- `GetInstanceByID` and `GetInstanceByOrderID`, `CreateProduct` with its validation, converters, wiring, transports, generated code and the fallback publisher that drops events.
- The designs in docs/ that the code has left behind.
