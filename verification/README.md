# Orders, reservations and stock: a verified model

The service takes orders for products kept in several warehouses. An order reserves stock when it is created; a
worker charges the payment and uses the stock up or gives it back; a cancellation gives it back; a sweeper gives
back what was reserved too long ago; a relay hands events from an outbox table to a task queue; admins adjust
stock and set low-stock thresholds. All of these run at the same time against the same tables, and every safety
argument is spread over several functions. This project models the tables, every statement the repositories issue
and every transaction built from them, and proves what the whole protocol keeps.

`dafny verify dfyconfig.toml` checks everything.

## How it is built

* `Schema` has a value per row and a `State` for all tables, together with what a worker remembers between its
  commits, the set of events handed to the broker, and a clock.
* `Statements` gives each SQL statement as a function from the row as it stands to what becomes of it, with its
  WHERE guard. `Transactions` writes each service and worker function as the tree of statements it may issue, with
  both outcomes of every guard; `Run` executes a tree with nobody else around.
* `Ledgers`, `Discipline` and `WellTyped` prove the sums over tables for any statement tree at once: six families of
  double-entry accounts, a typing judgement under which a tree leaves all of them balanced and never meets an
  ignored guard that fails, and a proof that all nine transactions are well typed.
* `Effects` and `Creation` say without statements what each transaction leaves behind and exactly when it commits.
  `Invariant` and `Runs` prove the invariant over every run of whole transactions with crashes, lost workers,
  duplicate deliveries and time in between.
* `Locks` and `Interleaving` run many transactions at once, statement by statement. A statement sees committed
  rows under the transaction's own writes; a guarded UPDATE that matches takes its row lock and keeps it to the end;
  any transaction may abort before any statement. Every interleaving is proved to commit exactly what the committed
  transactions would have committed one after the other, in commit order, so what is proved of runs holds there too.
* `NoOversell`, `Races` and `LastUnits` are about orders competing for stock in any interleaving: who is refused, what
  the grants add up to, and how many of N customers get the last K units. `Overlaps` has one such interleaving.
* `Answers`, `Payments`, `Adjustments` and `Logs` say outright what a creation, a delivery and an adjustment leave
  behind: rows, prices, tokens, reasons and log entries, value by value.
* `GiveBacks` and `Concurrency`, `Accounts`, `Lifecycle`, `Deliveries`, `Fulfilment`, `LowStock`, `StockSteps`,
  `Alerts`, `Idempotency` and `Outbox` draw the conclusions in the service's own words. `Scenarios` has concrete runs
  where a promise one might expect does not hold.
* `Services` has the tables as the fields of a class `Database`, the repositories as methods that change one table,
  and the services and workers with their own loops; each method is proved against the transaction it carries out.
  `Requests` and `Sweeps` hold the predicates and lemmas these methods use.

## What the code does that its comments do not say

* Expiry claims a reservation whatever the status of its order, PROCESSING included, so a COMPLETED order can hold
  RELEASED reservations and a retried order can be RESERVED with none ACTIVE (`Scenarios.OvertakenOrder`). A COMPLETED
  order used up all it reserved, and a RESERVED or PROCESSING one still holds all of it, if and only if no batch took
  a row from it while PROCESSING (`Fulfilment.ConsumedIffSpared`, `Fulfilment.ActiveIffSpared`).
* Expiry puts stock back without the low-stock check, so a flag can stay up on stock above its threshold
  (`Scenarios.StaleFlag`); a batch does this if and only if it lifts flagged stock above its threshold
  (`Alerts.ExpiryKeepsTheRule`). The next crossing is then silent (`Scenarios.SilentCrossing`): in any state a
  crossing raises its alert if and only if it does not find the flag up (`Alerts.AlertIffUnflaggedCrossing`).
* An empty idempotency key is not claimed but is stored under a unique index, so its repeat fails instead of being
  answered from the store (`Idempotency.RecognisedIffNotEmpty`, `Scenarios.EmptyKeyRepeat`).
* Using up stock logs minus its quantity although `available` does not change, against the comment on
  `src/models/audit_log.py:23` (`Scenarios.UnitUsedUp`). Summing the whole log gives `available` if and only if nothing
  of that product and warehouse was ever used up (`Accounts.WholeLogIsAvailableIffNothingUsed`); leaving these entries
  out gives it always (`Accounts.AuditRebuildsStock`).
* The claiming of expired reservations is two statements, and the second has no guard of its own; it relies on the
  row locks of the first. The dead-letter row is a commit of its own.
* A worker that dies between its first two commits leaves its order PROCESSING for good (`Scenarios.LostWorker`,
  `Lifecycle.LostWorkerStrands`): a PROCESSING order can still move if and only if a worker remembers it
  (`Deliveries.MovableIffRemembered`).

## Assumptions

Row locks are held to the end of the transaction; a guarded UPDATE is evaluated on the latest committed row; a unique
key refuses a second row. What a plain SELECT returned is part of a transaction's name and is checked only where the
code relies on it, so order creation may pick any warehouse and expiry may claim any overdue rows. Identifiers are
natural numbers: arbitrary in a `Tx`, guarded by the unique keys, and fresh where a method takes them as parameters.
The hash of a request is taken to be injective, prices are in cents, products, warehouses and settings do not change,
and the list of retry delays is not empty. Handing an event to the broker is a step of its own, since no rollback
takes it back: it needs a PENDING row, and a relay transaction may rely on an earlier hand-over of the same row, which
allows more runs than the code has.

## Model

| member | source | states |
|---|---|---|
| Ledgers.SlackMoves | src/repositories/inventory_repository.py:79-231 | every statement moves each of the six accounts by an amount known from its text, whatever the rows |
| Ledgers.SumPick | src/repositories/reservation_repository.py:26-36 | a sum over the reservations does not depend on the order in which rows are taken |
| Discipline.TypedRun | src/services/inventory_service.py:106-157 | a well-typed transaction that commits leaves every account balanced and every due flag up |
| Discipline.SurelyMatches | src/services/inventory_service.py:131-148 | at a give-back whose answer is ignored, the guard holds because the accounts balance |
| WellTyped.CodeTyped | src/services/order_service.py:57-173 | all nine transactions are well typed and leave no account in debt |
| Effects.CancelEffect | src/services/order_service.py:242-278 | cancelling commits if and only if the order is there, visible to the caller and PENDING or RESERVED; then it is CANCELLED and everything it held is RELEASED |
| Effects.BeginEffect | src/workers/order_processor.py:55-67 | a delivery takes the order if and only if it is RESERVED: PROCESSING, one attempt more |
| Effects.FinishEffect | src/workers/order_processor.py:70-98 | the second half commits only for the activation that took the order, and settles order and reservations by the payment's outcome |
| Effects.RecordEffect | src/workers/order_processor.py:101-105 | the dead letter is written once by the activation that gave up |
| Effects.CreateEffect | src/services/order_service.py:93-171 | a committed order has its row, one ACTIVE reservation per line, one PENDING event and the stored answer |
| Effects.KeyTakenStops | src/services/idempotency_service.py:44-74 | a taken key gives the stored answer, a mismatch or a conflict, and never writes |
| Effects.ExpireEffect | src/workers/reservation_cleanup.py:46-77 | a batch commits if and only if its rows are ACTIVE and overdue; they become RELEASED, and of their orders exactly the RESERVED ones EXPIRED |
| Effects.RelayEffect | src/workers/outbox_relay.py:49-71 | a batch commits if and only if all its rows are PENDING and all were handed over; then exactly these are PUBLISHED |
| Invariant.TransactionKeepsInv | src/services/order_service.py:138-171 | every committed transaction keeps the whole invariant over all tables |
| Invariant.TransactionEvolves | src/models/enums.py:30-36 | no committed transaction takes anything back: terminal orders, settled reservations, stored answers, published events, alerts and dead letters stay |
| Runs.NextKeepsInv | src/workers/order_processor.py:46-112 | transactions, crashes between commits, repeated hand-overs and time all keep the invariant |
| Runs.RunsKeepInv | src/workers/order_processor.py:46-112 | the invariant holds in every state of every run from an empty database |
| Runs.RunsEvolve | src/models/enums.py:30-36 | over a whole run later states only move forward from earlier ones |
| Locks.ExecIsMerge | src/repositories/inventory_repository.py:79-152 | executing a statement is merging its pending writes into the committed rows |
| Locks.EffectIsLocal | src/repositories/inventory_repository.py:79-152 | a statement's answer and writes depend on the rows it locks and on nothing else |
| Locks.WritesStayWithin | src/repositories/inventory_repository.py:79-152 | a statement writes only rows it locks |
| Interleaving.LiveRuns | src/services/order_service.py:93-171 | what a transaction under way will come to, unless it can only give up, is what it would come to run alone at this moment |
| Interleaving.SameAnswer | src/repositories/reservation_repository.py:45-63 | an answer taken under a lock, or that a reservation is no longer ACTIVE, stays the same whatever others commit |
| Interleaving.MoveRefines | src/services/order_service.py:93-171 | each move of an interleaving keeps all transactions sound and changes committed state only as one step of a one-at-a-time run |
| Interleaving.Serializable | src/repositories/inventory_repository.py:79-152 | the committed states of every interleaving, with locks to the end and aborts anywhere, are those of a run of whole transactions in commit order |
| Interleaving.InterleavingsKeepInv | src/workers/reservation_cleanup.py:42-86 | the invariant holds of the committed tables at every point of every interleaving |
| Accounts.ReservedIsHeld | src/services/inventory_service.py:124-157 | `reserved_quantity` is the sum of the ACTIVE reservations, for every product and warehouse |
| Accounts.AuditRebuildsStock | src/services/inventory_service.py:92-100 | the audit log alone gives back `available` and `reserved` of every row |
| Accounts.WholeLogIsAvailableIffNothingUsed | src/models/audit_log.py:20-25 | summing the whole log gives `available` if and only if nothing of that product and warehouse was used up |
| Accounts.StockIsConserved | src/services/inventory_service.py:144-157 | available plus reserved is what was delivered or written off, less what completed orders used up |
| Accounts.EachUnitLoggedOnce | src/services/inventory_service.py:129-156 | per order, each reserved unit is taken once and each released or consumed unit goes back or is used up once, never both |
| Logs.CodeLogs | src/models/enums.py:48-54 | each transaction writes only its own kinds of log entries, each with its sign and its reference |
| Logs.LogsAreWellSigned | src/services/inventory_service.py:92-100 | over every run a STOCK_ADDED entry is never negative and a STOCK_REMOVED one always is, the other kinds have their signs too, and the log is only ever added to |
| Logs.StepGivesBack | src/services/inventory_service.py:124-157 | cancelling, processing and expiring change `available` by what reservations gave back, for every product and warehouse, and no other way |
| GiveBacks.CodeCommits | src/services/inventory_service.py:131-148 | in all nine transactions the code after a give-back can still commit |
| Concurrency.IgnoredGuardsHold | src/services/inventory_service.py:131-148 | the guards of `release` and `consume`, whose answers are ignored, hold at every statement of every interleaving |
| Lifecycle.StepOnOrder | src/models/enums.py:16-36 | every committed step does to every order exactly what one explicit state machine says, from the statuses it says |
| Lifecycle.StepAddsOrder | src/services/order_service.py:138-146 | orders appear only by creation, RESERVED and with no attempts |
| Lifecycle.TerminalIsFinal | src/models/enums.py:30-36 | the four terminal statuses are absorbing over every run |
| Lifecycle.LeavesActiveOnce | src/repositories/reservation_repository.py:45-93 | a reservation leaves ACTIVE at most once over every run |
| Lifecycle.StockFollowsStatus | src/services/order_service.py:267-271 | COMPLETED, FAILED and CANCELLED orders hold nothing, consumed stock belongs to COMPLETED orders, and what EXPIRED orders hold is overdue |
| Lifecycle.OneDeadLetter | src/workers/order_processor.py:101-105 | at most one dead letter per order, and only for a FAILED one with its attempts used up |
| Lifecycle.OnlyTheOwnerMoves | src/workers/order_processor.py:55-80 | a PROCESSING order moves if and only if the activation that took it finishes |
| Lifecycle.TakenOrdersAreFree | src/workers/order_processor.py:55-67 | an order that can be taken is in no activation's hands |
| Concurrency.RelockFindsProcessing | src/workers/order_processor.py:72-75 | in every interleaving the second lock, which does not look at the status, finds PROCESSING with the same attempt and token |
| Lifecycle.StrandedForGood | src/workers/order_processor.py:67-75 | a PROCESSING order that no worker remembers is never touched again, whatever else the run does |
| Lifecycle.LostWorkerStrands | src/workers/order_processor.py:67-75 | a crash while the order is PROCESSING leaves it PROCESSING, unchanged, over the whole rest of the run |
| Deliveries.MovableIffRemembered | src/workers/order_processor.py:55-75 | a PROCESSING order can make a further move if and only if a worker remembers it |
| Lifecycle.AttemptsCountStarts | src/workers/order_processor.py:63-67 | `processing_attempts` is the number of times the order entered PROCESSING |
| Lifecycle.StartsAreLimited | src/workers/order_processor.py:82-86 | that is at most PAYMENT_MAX_ATTEMPTS, or once if it is less than 1 |
| Lifecycle.RankFalls | src/workers/order_processor.py:77-98 | every step that moves an order lowers a rank of remaining attempts and status |
| Lifecycle.OrdersMoveFinitely | src/workers/order_processor.py:46-112 | no order moves more than twice per allowed attempt plus once, however often its message is delivered |
| Deliveries.DeliveryOutcome | src/workers/order_processor.py:63-105 | an uninterrupted delivery always gets through; the order ends unless the payment is retryable and attempts are left |
| Deliveries.DeliveriesEnd | src/workers/order_processor.py:82-105 | as many uninterrupted deliveries as attempts are left bring the order to COMPLETED or FAILED |
| Payments.FinishByToken | src/services/payment_service.py:32-42 | in any run the second half settles the order by its token: "fail" FAILED and RELEASED, "fail_retryable" RESERVED again or, on the last attempt, FAILED, any other token COMPLETED and CONSUMED; and a dead letter is due exactly after a failed last attempt |
| Payments.RecordByToken | src/workers/order_processor.py:101-105 | the third commit writes that letter, with its reason and attempt |
| Payments.DeliveryByToken | src/workers/order_processor.py:46-105 | the same for both halves of one delivery |
| Fulfilment.EveryLineBacked | src/services/order_service.py:113-148 | in every reachable state the lines of an order and its reservations match one to one |
| Fulfilment.SparedOrdersKeepStep | src/workers/order_processor.py:115-126 | as long as no batch takes a row of the PROCESSING order, RESERVED and PROCESSING mean all lines ACTIVE and COMPLETED all CONSUMED |
| Fulfilment.ActiveIffSpared | src/repositories/reservation_repository.py:77-92 | a RESERVED or PROCESSING order still holds all it reserved if and only if no expiry batch took a row from it during any of its payments |
| Fulfilment.ConsumedIffSpared | src/repositories/reservation_repository.py:77-92 | a COMPLETED order used up all it reserved if and only if no expiry batch took a row from it while PROCESSING |
| Creation.ReserveLinesExact | src/services/order_service.py:93-111 | all lines are taken if and only if each fits the stock as it was at the start, whatever their order |
| Creation.ReserveExact | src/services/inventory_service.py:106-121 | one line takes its units, its log entry and its alert if there are enough, and stops otherwise |
| Creation.TookAllStock | src/services/order_service.py:93-111 | every line changes just the row it picked, as if it were alone |
| Creation.CreateExact | src/services/order_service.py:46-173 | when a creation is refused, for which reason, and otherwise what every table holds |
| Creation.PlacedMeans | src/services/order_service.py:113-171 | a placed order's total is the sum of price times quantity, and its rows, its event and the stock match its lines |
| Answers.CommittedInFull | src/services/order_service.py:57-195 | every creation that commits in any run: order row, items, reservations, stock, log, event, key and answer are line by line what the request says, and no other row moved |
| Answers.RunsKeepPrices | src/services/order_service.py:113-124 | over every run each order's items are at catalogue price and its total is their sum |
| Idempotency.TakenKeyAnswers | src/services/idempotency_service.py:51-74 | on a reachable database a taken key is answered from the store or refused, never with a conflict |
| Idempotency.TakenIffOrdered | src/services/idempotency_service.py:47-49 | a key is taken if and only if a committed order carries it |
| Idempotency.OneOrderPerKey | src/models/order.py:45 | no two committed orders of any run carry the same key |
| Idempotency.RepeatsGetTheFirstAnswer | src/services/idempotency_service.py:63-78 | any later request with the key of a committed order gets the first answer, or is refused if it asks for something else |
| Answers.StoredAnswersInRun | src/services/idempotency_service.py:63-86 | over every run the answer kept under a key has the id of its order and the lines, prices and total of the request the key was used with |
| Answers.RepeatsAreAnswered | src/services/order_service.py:64-69 | whatever has become of an order, the answer kept for its key stays the answer to its request |
| Idempotency.RecognisedIffNotEmpty | src/services/order_service.py:64-69 | a repeat is recognised if and only if its key is not empty |
| LowStock.CreateMoved | src/services/inventory_service.py:173-200 | an order raises one alert for each flag it raises, with the quantity and threshold of that row, and no other |
| LowStock.AdjustMoved | src/services/inventory_service.py:82-100 | so does an adjustment; one that restocks takes a stale flag down |
| Adjustments.AdjustedInFull | src/services/inventory_service.py:50-103 | every adjustment that commits in any run: its row, its flag, its one log entry and its alert, and nothing else |
| LowStock.SettleStock | src/services/inventory_service.py:129-140 | giving stock back raises no flag and leaves none stale |
| Alerts.FlagIsTheRule | src/repositories/inventory_repository.py:177-231 | without expiry the flag is up if and only if stock is at or below its threshold |
| StockSteps.ThresholdSet | src/repositories/inventory_repository.py:161-183 | a new threshold sets its own flag by the rule and touches no other row |
| Alerts.AlertsAtCrossings | src/services/inventory_service.py:160-202 | without expiry alerts are written exactly when stock crosses its threshold downwards, and none for a new threshold |
| Alerts.DueFlagsAreUp | src/repositories/inventory_repository.py:186-231 | over every run stock at or below a threshold is flagged, and only pairs with a threshold are |
| StockSteps.ExpireGivesBack | src/workers/reservation_cleanup.py:52-69 | a batch gives back, at each product and warehouse, exactly the units it claimed |
| Alerts.ExpiryKeepsTheRule | src/workers/reservation_cleanup.py:61 | a batch keeps the flags right if and only if it lifts no flagged stock above its threshold |
| Alerts.AlertIffUnflaggedCrossing | src/services/inventory_service.py:173-200 | on every step, expiry and thresholds included, an alert is written if and only if stock crosses its threshold downwards and the flag is not up already |
| Alerts.AlertsOverRuns | src/services/inventory_service.py:173-200 | that is so at every step of every run |
| Alerts.RearmedBetweenAlerts | src/repositories/inventory_repository.py:217-231 | over every run, between two alerts for one pair its stock rose above the threshold or it got a new one |
| NoOversell.RefusedOnlyWhenShort | src/repositories/inventory_repository.py:79-95 | in every interleaving an order's request for units is refused if and only if the committed row has fewer at its turn |
| Races.CommittedTakes | src/services/order_service.py:93-111 | a committed order, with or without a key, takes exactly its lines' units from the rows it picked |
| Races.GrantsFit | src/repositories/inventory_repository.py:79-95 | over any stretch of any interleaving of orders of any shape, aborts anywhere, what is granted and what is left add up to what there was |
| LastUnits.OrderRace | src/services/order_service.py:93-111 | in every interleaving of N one-unit orders after K units, once all are through, exactly min(N, K) are placed, K - min(N, K) units are left and the others gave up |
| Overlaps.OneOfTwo | src/services/order_service.py:93-111 | an interleaving in which two orders for one last unit are under way together; one is placed, the other is refused |
| Outbox.AnnouncedOnce | src/services/order_service.py:156-162 | every committed order has exactly one ORDER_RESERVED event |
| Outbox.PublishedWasSent | src/workers/outbox_relay.py:57-65 | a PUBLISHED event was handed to the broker at an earlier step of the run, when its row was written and PENDING |
| Outbox.PollsEmptyBacklog | src/workers/outbox_relay.py:49-71 | polls that get through empty any backlog, a full batch at a time |
| Sweeps.ReleaseCounts | src/repositories/reservation_repository.py:77-93 | each claimed row is one ACTIVE reservation less |
| Sweeps.BatchSweeps | src/workers/reservation_cleanup.py:70-75 | a batch expires exactly the RESERVED orders of the reservations it released |
| Sweeps.SweptTwice | src/workers/reservation_cleanup.py:42-84 | so do any number of batches one after the other |
| Scenarios.OvertakenOrder | src/workers/reservation_cleanup.py:42-77 | a run to a COMPLETED order with a RELEASED reservation, or to a RESERVED one with none ACTIVE |
| Scenarios.StaleFlag | src/workers/reservation_cleanup.py:61 | a run to a raised flag on stock above its threshold |
| Scenarios.SilentCrossing | src/workers/reservation_cleanup.py:61 | a run in which stock crosses its threshold downwards and no alert is written |
| Scenarios.UnitUsedUp | src/services/inventory_service.py:144-157 | a run after which the whole log does not sum to `available` |
| Scenarios.LostWorker | src/workers/order_processor.py:67-75 | a run to a PROCESSING order that no worker remembers |
| Scenarios.EmptyKeyRepeat | src/services/order_service.py:64-69 | a run after which the repeat of an order under the empty key fails |
| Services.Database.FindBestWarehouse | src/repositories/inventory_repository.py:56-69 | the warehouse with the most stock among those that can serve the line alone, or none if there is none |
| Services.Database.TryReserve | src/repositories/inventory_repository.py:79-95 | moves the units if enough are available and says whether it did |
| Services.Database.Release | src/repositories/inventory_repository.py:98-114 | moves the units back if so many are reserved and says whether it did |
| Services.Database.Consume | src/repositories/inventory_repository.py:117-131 | drops the units from reserved if so many are and says whether it did |
| Services.Database.AdjustAvailable | src/repositories/inventory_repository.py:134-152 | applies the delta unless stock would go below zero |
| Services.Database.TryFlipLowStock | src/repositories/inventory_repository.py:186-214 | raises the flag of a row that is due and not flagged, and returns the row |
| Services.Database.TryResetLowStock | src/repositories/inventory_repository.py:217-231 | takes down the flag of a row above its threshold |
| Services.Database.ListActiveForOrder | src/repositories/reservation_repository.py:26-36 | all ACTIVE rows of the order and nothing else |
| Services.Database.CheckLowStockTransition | src/services/inventory_service.py:160-202 | the transition check, with the alert and its event |
| Services.Database.Reserve | src/services/inventory_service.py:106-121 | takes and logs the units and checks the flag if and only if there are enough, else touches nothing |
| Services.Database.ReleaseReservation | src/services/inventory_service.py:124-141 | gives one ACTIVE reservation back, and does nothing to one that is not |
| Services.Database.ConsumeReservation | src/services/inventory_service.py:144-157 | uses one ACTIVE reservation up, and does nothing to one that is not |
| Services.Database.SettleAll | src/workers/order_processor.py:115-126 | the loop over the reservations carries out all of them |
| Services.Database.TakeLines | src/services/order_service.py:93-134 | the line loop goes through if and only if every line has one warehouse with enough at the start, and each line comes from the best one |
| Services.Database.BeginKey | src/services/idempotency_service.py:44-74 | claims a free key, or says what a taken one leads to |
| Services.Database.SetThresholdRow | src/repositories/inventory_repository.py:161-183 | sets threshold and flag of the row in one go and says whether there was one |
| Services.Database.MarkReleased | src/repositories/reservation_repository.py:45-53 | ACTIVE becomes RELEASED, anything else stays, and the answer says which |
| Services.Database.MarkConsumed | src/repositories/reservation_repository.py:56-63 | ACTIVE becomes CONSUMED, anything else stays, and the answer says which |
| Services.Database.CreateAlert | src/services/inventory_service.py:177-200 | the alert and its PENDING event carry the quantity and threshold the flip returned |
| Services.Database.TakeLine | src/services/order_service.py:95-111 | takes one line from the best warehouse, or touches nothing when none has enough |
| Services.Database.InsertReservations | src/services/order_service.py:147-148 | all reservations go in, each under its own id |
| Services.Database.BeginProcessing | src/workers/order_processor.py:55-67 | takes the order if and only if it is RESERVED |
| Services.Database.Close | src/workers/order_processor.py:115-126 | settles what is ACTIVE, then sets the status, in one commit |
| Services.Database.FinishProcessing | src/workers/order_processor.py:70-98 | from the charge to the second commit, token by token: FAILED and RELEASED, back to RESERVED, or COMPLETED and CONSUMED, and the dead letter to write |
| Services.Database.RecordDeadLetter | src/workers/order_processor.py:101-105 | the dead letter in a commit of its own |
| Services.Database.GiveBackClaim | src/workers/reservation_cleanup.py:61-75 | one claimed row: stock back, logged, its order EXPIRED if RESERVED |
| Services.Database.ExpireBatch | src/workers/reservation_cleanup.py:46-77 | one batch from claim to commit: up to 100 rows, all overdue ones if there are fewer; an empty claim means nothing is overdue |
| Services.Database.SweepOnce | src/workers/reservation_cleanup.py:42-77 | one turn: exactly the RESERVED orders that lost a reservation in it are EXPIRED, and available rises by what was released |
| Services.Database.CreateOrder | src/services/order_service.py:46-173 | all or nothing: which refusal it is and when; a new order is in every table what its request says and the answer has its lines, prices and total; a repeat gets that answer; any failure leaves every table as it was |
| Services.Database.CancelOrder | src/services/order_service.py:242-278 | accepted if and only if the caller may cancel, else which refusal; then the order is CANCELLED, all it held is RELEASED, and stock rises by just that |
| Services.Database.ProcessOrder | src/workers/order_processor.py:46-126 | one delivery from first to last commit, by token and attempt: order, reservations, stock, dead letter, and the retry delay for the attempt or the last one there is |
| Services.Database.SelectExpired | src/repositories/reservation_repository.py:77-85 | up to the limit of rows, all ACTIVE and overdue; all such rows, unless the limit is reached |
| Services.Database.ReleaseClaims | src/repositories/reservation_repository.py:87-93 | the claimed rows become RELEASED |
| Services.Database.ExpireReservations | src/workers/reservation_cleanup.py:35-86 | ends; returns the number released; exactly the RESERVED orders that lost a reservation are EXPIRED; available rises by what was released; nothing ACTIVE is overdue; a second run at the same time does nothing |
| Services.Database.CreateAdjustment | src/services/inventory_service.py:50-103 | accepted if and only if product and warehouse exist and stock does not go below zero, else which refusal; row, flag and alert change accordingly, and one entry is logged under the name its sign asks for |
| Services.Database.SetThreshold | src/services/low_stock_service.py:19-59 | accepted if and only if threshold, product and warehouse are valid, else which refusal; threshold and flag of that row change and nothing else |
| Services.Database.ClaimPendingBatch | src/repositories/outbox_repository.py:28-41 | distinct PENDING rows, all of them if there are fewer than the limit |
| Services.Database.RelayOnce | src/workers/outbox_relay.py:49-71 | publishes min(50, backlog) events, each handed over; if the broker raises at a position before that, just so many were handed over, which nothing takes back, and all rows stay PENDING |
| Services.Database.PublishInTurn | src/workers/outbox_relay.py:56-62 | the loop hands over and publishes row by row up to the position at which the broker raises |
| Services.Database.MarkPublished | src/repositories/outbox_repository.py:44-47 | the row becomes PUBLISHED and no other changes |
| Services.Database.Rollback | src/services/order_service.py:46-54 | every table is as it was saved |

## Left out

- HTTP routing, authentication, schemas of other endpoints, logging, health checks, migrations: input and output around the protocol.
- Order listing, pagination, product and warehouse maintenance: they share no state with the protocol and would add only easy members; the catalogue is constant.
- `total_available`, `list_for_product`, `get_by_id`: used for error details and pages only.
- SHA-256 and JSON: the payload stands for its hash. UUIDs: fresh ids.
- Timestamps other than `expires_at`, and the order in which a SELECT returns rows.
- Backoff scheduling and Celery's own retry limit: deliveries may come at any time and any number of times; the delay is a result of `ProcessOrder`.
- Session details of the ORM (identity map, flush timing), deadlock detection and lock queues: a deadlock victim is an abort.
- 32-bit column limits and the rounding of `Numeric(12, 2)`.
- Fairness: a transaction that waits for a lock may wait for ever; progress is claimed for uninterrupted runs only.
- Services.Database.ClaimPendingBatch: does not say that the oldest rows come first; `created_at` is not modelled, so a batch below the backlog may be any of its rows.
- Services.Database.Enqueue: has no branch for an event type without a handler; both types any transaction writes have one, and an `Event` cannot have another.
- Services.Database.CreateOrder: runs with nobody else around, so that `reserve` cannot fail after the warehouse was found; the race is in `Interleaving`, where the pick is arbitrary.
- Idempotency.TakenKeyAnswers: says that the conflict answer is not given on committed keys; a transaction does not see the key another one is still claiming.
