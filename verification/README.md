# Verified model of the licensing engine

This project models the application-scoped licensing engine of the backend (`backend/internal/licensing`, with
the parts of `service`, `store` and `httpapi` it depends on) and proves what the engine promises over whole runs.

Every transaction is modelled as a function from the tables and its inputs to either new tables or an error
that leaves them unchanged; a run is a sequence of such steps with a clock that never goes backwards. Where the
program changes rows step by step, a class with the same fields does so with the same branches and loops, and
each of its methods is proved to leave exactly the tables of its specification. The theorems are then about
the specification and hold for every run.

| module | models |
|---|---|
| `Basics`, `Text` | instants in nanoseconds, whole seconds, identifiers; splitting and joining text |
| `Ledger` | the dates of one license: kept up to date redemption by redemption, and rebuilt from base terms |
| `Money` | agent balances, money ledgers of the platform and of each application |
| `SalesModel` | plans, orders, cards, licenses, refunds, renewals, signed sales events, agent sales |
| `SalesInvariants` | what each sales transaction keeps: well-formed tables, one-way lifecycles, event receipts |
| `SalesHistory` | runs with the history of each license; stored dates against the rebuild and against erased refunds |
| `SalesRefunds` | when a refund goes through, when two refunds commute; a refund never moves a date later |
| `SalesRuns` | what holds after every run: ownership, lifecycles, idempotency, money per order |
| `SalesGuards` | when each sales transaction goes through and what it writes, in plain terms of the rows; signed events and terms over runs |
| `SalesDesk` | the sales service as it runs, row by row, proved against `SalesModel` |
| `Seats` | installations, seat budgets, leases, borrowed seats, rebinds, owners |
| `Anchors` | binding anchor groups and the rows they are kept in |
| `Tokens` | token times: clamping in nanoseconds, cutting to seconds, acceptance |
| `Keys` | signing keys, rotation, acceptance and publication |
| `Replay` | the timestamp window, nonces and their deletion |
| `Bindings` | the index of binding values against a scan of all bindings |
| `Usage` | metered consumption by period |
| `Releases` | version order and the choice of a release |
| `Mfa` | one-time codes, recovery codes and login challenges |
| `Limiter` | the fixed-window limiter and the failure lockout |
| `Audit` | the chained audit log and its paged check |

## What was found to differ

Eight statements one would expect of the engine hold only under a condition, or with another bound. Each is
proved with its exact condition, and an input shows the condition is needed.

* The rebuild after a refund compares a card's use time strictly with the activation instant, so a card redeemed
  before activation at the very same instant is not counted in its day counter, for usage as for updates (the
  dates agree). A counter agrees exactly when every credit of its purpose redeemed before activation was used
  strictly before it: `Ledger.CountersAfterStart`, `Ledger.SameInstantCreditUncounted`.
* Two refunds give the same result in either order, except two refunds to one agent whose costs fit under the
  balance cap one at a time and not together; then the first one wins: `SalesRefunds.RefundsCommute`,
  `SalesRefunds.NearCapRivals`.
* A refund is recorded under the request key `refund:` followed by the order's id, in the same key space as the
  agent's own requests. A confirmed order can be refunded exactly when that key is free and the account takes the
  cost; once the agent has used the key as the request id of another sale, the order stays confirmed for ever:
  `SalesRefunds.RefundIff`, `SalesRefunds.AgentRequestTakesKey`, `SalesRefunds.TakenKeyBlocksRefund`.
* A client that checks tokens with the published keys sees at most the newest thousand keys. An unexpired
  token's key is always accepted (unless it was retired at once), but it is published exactly when fewer than a
  thousand keys precede it, that is, with rotations at different instants, when fewer than a thousand rotations
  followed: `Keys.PublishedIff`, `Keys.PublishedByAge`, `Keys.RotationsUnpublish`.
* The timestamp of a request is checked on an earlier clock reading than the one at which its nonce is reserved.
  Each request is accepted at most once in every run if and only if no request waits more than 60 seconds
  between the two: `Replay.SafeIff`.
* The indexed lookup of bindings reads at most twenty rows per kind. It returns what a scan would exactly when
  every active binding that covers the query does so under a kind in which fewer than twenty later activated
  bindings are registered with a candidate value: `Bindings.LookupIsScanIff`, `Bindings.LookupMissesBeyondLimit`.
* The state a login challenge is bound to never returns once a code was accepted in it, nor does any state with a
  secret once it was left. The state without a secret that disabling leaves behind may return; no code is
  accepted in it: `Mfa.StateNeverReturns`, `Mfa.EnrolledStateNeverReturns`, `Mfa.DisabledStateReturns`.
* The limiter lets through at most `2 * limit - 1` requests in any half-open span of one window, one fewer than
  twice the limit, and a limit below one still lets one through: `Limiter.LimiterBound`,
  `Limiter.LimiterBoundReached`.

## Model

| member | source | states |
|---|---|---|
| `Ledger.UseOrderIrrelevant` | backend/internal/licensing/renewal_ledger.go:30-42 | any two lists of the same credits that both respect use times rebuild to the same dates, so the tie-break by id and the stability of the sort do not matter |
| `Ledger.RebuildIsLatest` | backend/internal/licensing/renewal_ledger.go:43-81 | the rebuilt expiry is the latest over all starting points (base date or some credit's own use time) of that point plus all days credited from there on: an independent closed form of the extend loop |
| `Ledger.LiveAgreesWithRebuild` | backend/internal/licensing/renewal_ledger.go:12-87 | for every life of a license (redemptions and first activation in clock order) the dates kept redemption by redemption equal the rebuild from base terms and the credits |
| `Ledger.CountersAfterStart` | backend/internal/licensing/renewal_ledger.go:60-74 | in every life with an activation, each day counter (usage and updates) of the rebuild equals the kept one if and only if every credit of that purpose redeemed before activation was used strictly before the activation instant |
| `Ledger.SameInstantCreditUncounted` | backend/internal/licensing/renewal_ledger.go:61 | a usage or update card redeemed on the same clock reading as the activation that follows: same dates, and the rebuilt counter of its purpose lacks its days |
| `Ledger.RefundIsErasure` | backend/internal/licensing/renewal_ledger.go:9-11 | rebuilding without some cards gives the dates of the same life in which those cards were never redeemed |
| `Ledger.RefundIsNoLater` | backend/internal/licensing/renewal_ledger.go:41-81 | leaving credits out never yields a later expiry or update date |
| `Money.RunReconciles` | backend/internal/service/commerce.go:262-311 | in every run of debits, refunds, adjustments and package purchases each balance is its opening value plus all recorded amounts, every row shows the running sum, request keys stay unique, balances stay between zero and the cap |
| `Money.AdjustOnce` | backend/internal/service/commerce.go:275-283 | an adjustment that went through is answered from its row whatever happened in between, and the same request id with other inputs is refused |
| `Money.PackageOnce` | backend/internal/service/commerce.go:418-427 | a package order is charged once per request id; later copies change nothing or are refused when they differ |
| `Money.UnitCost` | backend/internal/licensing/agents.go:74-77 | the quoted unit cost is the plan's cost at the agent's rate rounded up, unless the grant overrides it |
| `Money.AdjustIff` | backend/internal/service/commerce.go:262-311 | when a new adjustment goes through, with its bounds; it books exactly its amount |
| `Money.PackageIff` | backend/internal/service/commerce.go:371-480 | when a new package order goes through, with its bounds; it books exactly the confirmed price of every card |
| `Money.PostIssueIff` | backend/internal/licensing/agents.go:210-226 | an agent's order is paid exactly when the agent is active, its account holds the cost and the request is new |
| `Money.PostRefundIff` | backend/internal/store/application_store.go:984-1012 | a refund is credited exactly when the account exists, the balance stays within a trillion and the key is new |
| `Money.AgentFunds.AdjustAgentBalance` | backend/internal/service/commerce.go:262-311 | the method leaves exactly the books of the specified adjustment, blank reasons refused, and returns the balance recorded for it |
| `Money.AgentFunds.GeneratePackageCards` | backend/internal/service/commerce.go:371-480 | the method leaves exactly the books of the specified package purchase and says whether it was a replay |
| `SalesInvariants.NextKeepsTables` | backend/internal/licensing/sales.go:114-178 | every transaction keeps the tables well-formed: keys unique, rows linked both ways, one card per license, licenses with the plan, model and base terms of their order, terms within their bounds, refunded orders with revoked licenses and refunded cards, cards used before their deadline only, spent renewal cards with revoked sources of a compatible plan and model and with days to give, used activation cards with started licenses |
| `SalesInvariants.NextForward` | backend/internal/licensing/lifecycle.go:44-46 | no transaction moves a lifecycle backwards: revoked licenses stay revoked, licenses keep order, plan, model and the instant they were started at, card and order status only advance, redeemed cards keep license and use time |
| `SalesInvariants.NextKeepsReceipts` | backend/internal/licensing/sales.go:382-443 | every channel order is the one its event's receipt names, and receipts never change |
| `SalesInvariants.ChannelEventOnce` | backend/internal/licensing/sales.go:386-393 | a repeated signed event changes nothing, or is refused when its contents differ |
| `SalesInvariants.RefundedLicense` | backend/internal/licensing/sales.go:477-512 | what a refund does to one license: status revoked iff it belongs to the order, dates changed only if a refunded card was redeemed on it, base terms never |
| `SalesHistory.StoredDatesAreRecomputed` | backend/internal/licensing/renewal_ledger.go:12-87 | in every run the stored expiry and update dates of every license equal the rebuild over any use-ordered list of its redeemed cards, and the whole record does until activation |
| `SalesHistory.StoredDatesEraseRefunds` | backend/internal/licensing/sales.go:463-524 | in every run the stored dates are those of the license's own history with the refunded redemptions erased |
| `SalesHistory.RecomputeAnyOrder` | backend/internal/licensing/renewal_ledger.go:30-42 | any sort of the redeemed rows by use time, stable or not, leads to the dates the service stores |
| `SalesHistory.RunTraceable` | backend/internal/licensing/lifecycle.go:354-391 | in every run each license's history accounts for exactly the cards redeemed on it, each once, and for its dates |
| `SalesHistory.StepContinues` | backend/internal/licensing/lifecycle.go:305-413 | every single transaction extends the history of every license by exactly what it did to it |
| `SalesRefunds.RefundsCommute` | backend/internal/licensing/sales.go:463-524 | two refunds, each at its own instant, leave the same licenses, orders and balances in either order, and the same cards up to the instants stamped on them, if and only if they are not two refunds to one account that both fit under the balance cap alone and not together; in any state, for any two orders |
| `SalesRefunds.RefundsCommuteInRuns` | backend/internal/licensing/sales.go:463-524 | the same at any moment of any run: continuing it with two refund steps in either order |
| `SalesRefunds.NearCapRivals` | backend/internal/store/application_store.go:995-997 | two confirmed orders of an agent whose balance is below the cap by the dearer of the two are such a pair |
| `SalesRefunds.RefundAlike` | backend/internal/licensing/sales.go:486-505 | the instant at which an order is refunded is seen in the stamps of its cards and nowhere else |
| `SalesRefunds.RefundIff` | backend/internal/store/application_store.go:984-1012 | a confirmed order is refunded exactly when it has no agent, or its agent's account exists, its cost is not negative and fits under the balance cap, and the request key of the refund is free |
| `SalesRefunds.TakenKeyBlocksRefund` | backend/internal/licensing/sales.go:513-522 | in every run, once the request key of a confirmed order's refund is taken, the order stays confirmed and its refund is refused ever after |
| `SalesRefunds.AgentRequestTakesKey` | backend/internal/licensing/agents.go:155-180 | an agent sale whose request id is that key takes it |
| `SalesRefunds.RefundsShorten` | backend/internal/licensing/sales.go:463-524 | in every run a refund leaves no license with a later date than before |
| `SalesRefunds.RecomputedReads` | backend/internal/licensing/renewal_ledger.go:12-81 | the rebuild depends on base dates and on use, purpose, refund and days of the redeemed cards only, so the order in which affected licenses are rebuilt is immaterial |
| `SalesRuns.OrdersOverRuns` | backend/internal/licensing/sales.go:114-178 | pending orders own nothing; confirmed and refunded orders own exactly their quantity of distinct licenses with at most one card each; refunded orders keep only revoked licenses and cards for ever after |
| `SalesRuns.StatusOverRuns` | backend/internal/licensing/sales.go:246-266 | between any two moments of a run revocation is final and a card only moves from unused to used to revoked, keeping its license and use time |
| `SalesRuns.ChannelEventsOverRuns` | backend/internal/licensing/sales.go:382-443 | over a run a channel event confirms at most one order, and once received it changes nothing |
| `SalesRuns.RenewalRetriesAreNoOps` | backend/internal/licensing/lifecycle.go:328-336 | once a renewal went through, any later attempt with the same key on any license changes nothing |
| `SalesRuns.RenewalTouchesOnly` | backend/internal/licensing/lifecycle.go:340-411 | a first renewal moves one date (or day counter) of one license by the days of the source, from the later of now and the running date, reactivates it only if it was expired and usage was bought, spends the card, revokes the source, and leaves every other field and row as it was |
| `SalesRuns.CardCreditedOnce` | backend/internal/licensing/lifecycle.go:393-411 | over a run a card is credited to at most one license, at most once |
| `SalesRuns.MoneyOverRuns` | backend/internal/licensing/agents.go:168-228 | in every run balances reconcile with the ledgers, and an order's rows add up to minus its cost while it is confirmed and to zero once it is refunded |
| `SalesRuns.AgentRequestOverRuns` | backend/internal/licensing/agents.go:169-180 | an agent request that went through changes nothing when sent again, ever after |
| `SalesRuns.TablesOwn` | backend/internal/licensing/sales.go:463-500 | what an order owns in any well-formed state, by status |
| `SalesGuards.TermsAcceptedIff` | backend/internal/licensing/policy.go:84-128 | which terms are accepted, with the bounds of a century, and what normalizing makes of them |
| `SalesGuards.SaleValidIff` | backend/internal/licensing/sales.go:42-65 | which sales are valid: quantity, lengths and amount within their bounds, cards for renewals, and one lower-case SHA-256 digest per printed card, all different |
| `SalesGuards.IssueIff` | backend/internal/licensing/sales.go:114-131 | in well-formed tables an order is issued exactly when it is pending, the application runs and still has its model, the deadline of its cards is ahead and no key is taken |
| `SalesGuards.IssueGives` | backend/internal/licensing/sales.go:132-199 | issuing writes one license per unit with the order's plan and terms, started at that instant exactly when the order is for activation and starts on issue, and one unused card bound to each with the order's purpose and deadline; the order lists the licenses and nothing else changes |
| `SalesGuards.CreateSaleIff` | backend/internal/licensing/sales.go:66-113 | when an operator's sale is placed, and when it is confirmed at once |
| `SalesGuards.CreateSaleGives` | backend/internal/licensing/sales.go:86-111 | the order a sale leaves, pending or issued, with the accepted terms |
| `SalesGuards.UsableIff` | backend/internal/licensing/policy.go:173-205 | a license may be used exactly when it is active, not for renewal only, its application runs with its model, and its end and the grace seconds after it are not over |
| `SalesGuards.ActivateIff` | backend/internal/licensing/sales.go:179-199 | an admitted activation goes through exactly for a usable license; a first one starts it now with all bounds the days of its terms later |
| `SalesGuards.ActivateWithCardIff` | backend/internal/licensing/runtime.go:161-183 | in well-formed tables an admitted activation by a card's key goes through exactly when the card is for activation, not revoked and within its deadline and its license is usable; the card is marked used at its first use |
| `SalesGuards.FirstRenewalIff` | backend/internal/licensing/lifecycle.go:305-385 | in well-formed tables the first redemption of a card on a license goes through exactly when the license can be renewed, the card is an unused renewal card within its deadline, and its source is active, of the same model and a compatible plan, with days that fit |
| `SalesGuards.RenewalRetryIff` | backend/internal/licensing/lifecycle.go:334-336 | a card already spent on the license is acknowledged without effect, past its deadline too, exactly while the license can be renewed at all |
| `SalesGuards.SavePlanIff` | backend/internal/licensing/catalog.go:27-84 | a plan is saved exactly when its terms are acceptable, renew known plans only and, where a license of the plan exists, are the old ones |
| `SalesGuards.SoldTermsFrozen` | backend/internal/licensing/catalog.go:74-84 | in every run, once a license of a plan exists, the plan and its terms stay |
| `SalesGuards.AgentSaleIff` | backend/internal/licensing/agents.go:147-209 | when a new agent sale goes through: request, sale, grant, plan, batch limit, the price the agent confirmed, and a balance that holds the price of every unit |
| `SalesGuards.AgentSaleCharges` | backend/internal/licensing/agents.go:210-228 | a new agent sale takes the price the agent confirmed times the quantity from its balance, records that amount negated under the request, and issues an order of that cost and quantity with that many licenses and cards |
| `SalesGuards.SigningRefusalIff` | backend/internal/licensing/sales.go:361-381 | an event is refused unless its channel is enabled, its signature valid and its timestamp at most two minutes from the clock |
| `SalesGuards.ReceivePaymentIff` | backend/internal/licensing/sales.go:351-432 | when a new payment event is accepted |
| `SalesGuards.ReceivePaymentGives` | backend/internal/licensing/sales.go:420-440 | an accepted payment issues its order with the purpose and deadline of the event, keeps the order without them, and is receipted |
| `SalesGuards.ReceiveRefundIff` | backend/internal/licensing/sales.go:394-405 | a new refund event is accepted exactly when it is signed and names the event of one of the channel's orders that can be refunded, and it is that order that is refunded |
| `SalesGuards.EventsWereSigned` | backend/internal/licensing/sales.go:361-443 | in every run each recorded sales event was received signed, on an enabled channel, at most two minutes from its timestamp, with the contents its receipt names |
| `SalesGuards.LicenseTermsOverRuns` | backend/internal/licensing/sales.go:132-199 | in every run a license has the plan, model, renewal targets and base terms of its order, within their bounds, and its base dates lie those days after its start |
| `SalesGuards.CardUseOverRuns` | backend/internal/licensing/lifecycle.go:328-411 | in every run a used card was used before its deadline; a renewal card renewed another license of the same model and a compatible plan, and its source is revoked |
| `SalesDesk.Desk.InsertUnits` | backend/internal/licensing/sales.go:132-168 | the loop inserts exactly the license and card rows of the order, and fails exactly when some key is taken |
| `SalesDesk.Desk.IssueOrder` | backend/internal/licensing/sales.go:114-178 | the method leaves exactly the tables of the specified issue, or the tables as they were |
| `SalesDesk.Desk.CreateSale` | backend/internal/licensing/sales.go:42-113 | the method leaves exactly the tables of the specified sale, or the tables as they were, with the checks of plan, quantity, customer, amount, printed digests, purpose and reason |
| `SalesDesk.Desk.ConfirmSale` | backend/internal/licensing/sales.go:201-227 | the method leaves exactly the tables of the specified confirmation |
| `SalesDesk.Desk.ActivateLicense` | backend/internal/licensing/sales.go:179-199 | first activation sets base and current dates; later ones leave them alone |
| `SalesDesk.Desk.ActivateWithCard` | backend/internal/licensing/runtime.go:161-183 | a card activates its license and is marked used once |
| `SalesDesk.Desk.RedeemRenewal` | backend/internal/licensing/lifecycle.go:305-413 | the method leaves exactly the tables of the specified renewal, refusals in the source's order |
| `SalesDesk.Desk.AllRedeemed` | backend/internal/licensing/renewal_ledger.go:17-29 | reading a thousand rows at a time returns exactly the redeemed rows |
| `SalesDesk.Desk.SortCards` | backend/internal/licensing/renewal_ledger.go:30-42 | the sort returns the same rows in use order |
| `SalesDesk.Desk.RecomputeRenewals` | backend/internal/licensing/renewal_ledger.go:12-87 | paging, sorting and folding stores exactly the rebuilt dates |
| `SalesDesk.Desk.RefundCards` | backend/internal/licensing/sales.go:486-505 | the loops refund exactly the cards behind the order's licenses and collect exactly the licenses they were redeemed on |
| `SalesDesk.Desk.ReconcileAll` | backend/internal/licensing/sales.go:506-510 | rebuilding the affected licenses in any order gives each its own rebuilt dates |
| `SalesDesk.Desk.RefundOrder` | backend/internal/licensing/sales.go:463-524 | the method leaves exactly the tables of the specified refund, or the tables as they were |
| `SalesDesk.Desk.ReceiveSale` | backend/internal/licensing/sales.go:351-448 | the method leaves exactly the tables of the specified event: shape, timestamp window, channel and signature refused in order, replays answered, and the order kept without the purpose of its cards |
| `SalesDesk.Desk.AgentSale` | backend/internal/licensing/agents.go:147-230 | the method leaves exactly the tables and books of the specified agent sale |
| `Seats.SeatsNeverOversold` | backend/internal/licensing/runtime.go:254-287 | at every instant of every run a floating license has at most MaxSeats live leases and any other at most MaxActivations installations not deactivated |
| `Seats.NextKeepsSite` | backend/internal/licensing/runtime.go:530-639 | every transaction, and time passing, keeps every license within its budget |
| `Seats.SeatGrantedIff` | backend/internal/licensing/runtime.go:254-287 | an admitted installation gets a seat exactly when the others leave room, it is not holding a borrowed seat it does not borrow anew, any borrow is within the policy, and the lease asked for and the usage deadline lie ahead; the query limit never interferes |
| `Seats.NextKeepsBorrow` | backend/internal/licensing/runtime.go:547-561 | while a borrowed lease is recorded as live no transaction frees the seat or moves its end; a new borrow by the same session replaces it by another live borrowed lease |
| `Seats.BorrowOutlastsRuns` | backend/internal/licensing/lifecycle.go:247-260 | over a run a seat borrowed until some instant is untouched by everything before it, short of a new borrow by the same session |
| `Seats.ExtendLeaseGives` | backend/internal/licensing/runtime.go:419-439 | a lease is extended exactly when a borrow is within the policy and the time asked for and the deadline lie ahead; it then ends at the earliest of that many seconds from now and the usage deadline |
| `Seats.SeatGranted` | backend/internal/licensing/runtime.go:233-298 | what the row of an installation holds once it has its seat, and that no other row changes |
| `Seats.HeartbeatIff` | backend/internal/licensing/runtime.go:530-639 | when a heartbeat goes through: the installation is running or released itself, a seat is free for it if it needs one, and a lease can be extended |
| `Seats.HeartbeatGives` | backend/internal/licensing/runtime.go:612-639 | a heartbeat keeps a live borrow whole and otherwise extends a floating seat from now on |
| `Seats.ReleaseFrees` | backend/internal/licensing/runtime.go:546-561 | when a release goes through, and that the seat is free afterwards for the client to take back |
| `Seats.DeactivateFrees` | backend/internal/licensing/lifecycle.go:279-304 | when a deactivation goes through, and that the seat is free afterwards |
| `Seats.StoppedIsFree` | backend/internal/licensing/runtime.go:538-545 | a stopped installation occupies no seat, and one that was stopped for the client verifies no more |
| `Seats.HeldIff` | backend/internal/licensing/lifecycle.go:247-254 | the query for borrowed seats finds one exactly when a live borrowed lease of the license exists |
| `Seats.RebindClears` | backend/internal/licensing/lifecycle.go:199-273 | when a rebind goes through, and what it leaves of the license's installations and counters |
| `Seats.AssignOwnerIff` | backend/internal/licensing/installations.go:151-197 | when an owner is assigned, and that only a move to another owner stops the installations |
| `Seats.ClaimIff` | backend/internal/licensing/installations.go:107-150 | when a customer may claim a license by card |
| `Seats.AddLicenseIff` | backend/internal/licensing/policy.go:114-138 | which quotas a license may have |
| `Seats.OwnerReplacedOnlyByTransfer` | backend/internal/licensing/installations.go:151-197 | an owner is replaced only by an allowed transfer, after which no installation of the license is running; it is refused while a borrowed seat is held |
| `Seats.SelfRebindsLimited` | backend/internal/licensing/lifecycle.go:225-232 | in every run a customer rebinds only its own license, only while its terms allow it, less often than they allow, and not before the cooldown since every earlier rebind has passed |
| `Seats.SeatDesk.Activate` | backend/internal/licensing/runtime.go:233-298 | the method leaves exactly the specified activation rows; the loop counts the other active installations |
| `Seats.SeatDesk.Verify` | backend/internal/licensing/runtime.go:530-639 | the method leaves exactly the specified activation rows |
| `Seats.SeatDesk.Release` | backend/internal/licensing/runtime.go:546-561 | the method frees the seat unless it is borrowed and live |
| `Seats.SeatDesk.Deactivate` | backend/internal/licensing/lifecycle.go:279-304 | the method deactivates an installation unless its seat is borrowed and live |
| `Seats.SeatDesk.Rebind` | backend/internal/licensing/lifecycle.go:199-273 | the method deactivates every installation of the license, counts the rebind and notes its time, unless a borrowed seat is held or a customer may not rebind |
| `Seats.SeatDesk.AssignOwner` | backend/internal/licensing/installations.go:151-197 | the method changes the owner and, when it moves, deactivates every installation unless a borrowed seat is held |
| `Seats.SeatDesk.ClaimLicense` | backend/internal/licensing/installations.go:107-150 | the method sets the owner of an unowned license and nothing else |
| `Anchors.EnsureGroupGuarantees` | backend/internal/licensing/runtime.go:356-418 | outside the rule case success returns a group in which every requested value is active, registering them and nothing else in a new group if the value in use was not bound; mismatch and limit refusals happen exactly when stated |
| `Anchors.EnsureGroupTwice` | backend/internal/licensing/runtime.go:368-388 | registering the same binding again changes nothing and returns the same group |
| `Anchors.RuleStandsIn` | backend/internal/licensing/runtime.go:356-367 | a rule that matches a domain or address stands in for a group and nothing is registered; other kinds ignore it |
| `Anchors.OneRowPerValue` | backend/internal/licensing/runtime.go:396-416 | in every run each license, kind and value has at most one row, under an id of its own; rows are never deleted and never come to stand for another value |
| `Anchors.EnsureRowsRefines` | backend/internal/licensing/runtime.go:368-416 | registration on rows is registration on the table with one anchor per value; it never leans on the unique constraint, only a taken id makes an insertion fail |
| `Anchors.NextIs` | backend/internal/licensing/runtime.go:356-418 | with drawn ids that are new, registering or rebinding on rows leaves exactly the table that registering or rebinding on the table leaves, and succeeds whenever that does |
| `Anchors.GroupsWithinLimit` | backend/internal/licensing/runtime.go:389-395 | in every run no license has more active groups than its terms allow |
| `Anchors.RebindLeavesOneGroup` | backend/internal/licensing/lifecycle.go:255-267 | a rebind never runs out of groups and leaves exactly the requested values active, in one group, other licenses untouched |
| `Anchors.AnchorStore.Register` | backend/internal/licensing/runtime.go:356-418 | the find-then-save-or-insert loops leave exactly the specified anchor rows |
| `Tokens.TokensOrdered` | backend/internal/licensing/runtime.go:440-483 | every issued token has issue, refresh, expiry and grace in order, expires strictly after issue, and at the whole second of the earliest of its bounds |
| `Tokens.TokensRefusedIff` | backend/internal/licensing/runtime.go:444-456 | tokens are refused exactly when a bound ends within the current second or before |
| `Tokens.TokensGive` | backend/internal/licensing/runtime.go:457-482 | the refresh time is the verify interval, or a third of the lease for a floating seat, from now, and one second before expiry at the latest; an offline token is issued exactly when grace outlasts the token or the seat is borrowed |
| `Tokens.GraceOutlastsIff` | backend/internal/licensing/runtime.go:440-453 | grace outlasts the token exactly when the policy grants any and neither deadline nor lease ends with the token or before |
| `Tokens.CheckTokenIff` | backend/internal/licensing/jwt.go:124-181 | which claims are accepted, with two minutes of allowance for the issue time and half a minute for the start |
| `Tokens.TokensEndWithTheirBounds` | backend/internal/licensing/jwt.go:124-181 | from issue on a token is accepted up to its expiry second and never after, so an accepted token outlives neither the usage deadline nor the lease recorded when it was issued, online or offline |
| `Tokens.ExpiredTokensAssociate` | backend/internal/licensing/jwt.go:118-123 | an expired token still identifies its installation, and only under its own use |
| `Tokens.ManifestRefusedIff` | backend/internal/licensing/updates.go:421-437 | a manifest is refused exactly when an entitlement ends within the current second or before |
| `Tokens.ManifestEnds` | backend/internal/licensing/updates.go:421-432 | an update manifest lasts five minutes at most and outlives no entitlement |
| `Tokens.IssueTokens` | backend/internal/licensing/runtime.go:440-483 | the loop over the limits computes the specified tokens |
| `Keys.OneActiveKey` | backend/internal/licensing/keys.go:65-101 | in every run exactly one key is active, the current one, and signing and rotating never lack a key |
| `Keys.TokensStayAcceptable` | backend/internal/licensing/keys.go:71-83 | in every run an unexpired token names an accepted key however many rotations followed, unless that key was retired at once, and then it is refused from that moment |
| `Keys.PublishedIff` | backend/internal/licensing/keys.go:11-46 | an unexpired token's key is published exactly when fewer than a thousand keys precede it, and always up to a thousand versions |
| `Keys.PublishedByAge` | backend/internal/licensing/keys.go:26-43 | with rotations at different instants an unexpired token's key is published exactly when fewer than a thousand rotations followed it |
| `Keys.RotationsUnpublish` | backend/internal/licensing/keys.go:26 | a thousand or more rotations within a token's life leave its key accepted but not published |
| `Keys.SignIff` | backend/internal/licensing/keys.go:104-129 | when a token is signed, and that the key's mark is then the latest expiry it signed |
| `Keys.RotateGives` | backend/internal/licensing/keys.go:65-101 | when keys are rotated; the old key stays acceptable exactly up to the later of the overlap and its last token, or not at all |
| `Keys.RetiredStays` | backend/internal/licensing/keys.go:65-101 | in every run a key that is no longer current never changes again |
| `Keys.PublicKeys` | backend/internal/licensing/keys.go:26-43 | the loop over one page publishes exactly the live keys with fewer than a page of keys ahead of them |
| `Keys.KeyRing.SignClaims` | backend/internal/licensing/keys.go:104-129 | signing raises the key's high-water mark to the token's expiry |
| `Keys.KeyRing.RotateSigningKey` | backend/internal/licensing/keys.go:65-101 | rotation retires the current key no earlier than its last token and activates the next version |
| `Replay.SafeIff` | backend/internal/licensing/runtime.go:71-100 | each signed request is accepted at most once in every run if and only if no request waits more than 60 seconds between its timestamp check and its nonce transaction |
| `Replay.ReplayNeedsDelay` | backend/internal/licensing/jwt.go:214-217 | a second acceptance means the request waited longer than the nonce lifetime less twice the window |
| `Replay.RememberedThroughRun` | backend/internal/licensing/runtime.go:82-97 | a used nonce stays in the table until a transaction runs later than its lifetime, whatever is deleted in between |
| `Replay.LateRunReplays` | backend/internal/licensing/runtime.go:71-100 | a run of well-formed requests one nanosecond beyond the bound in which a request is accepted twice |
| `Replay.AcceptedIff` | backend/internal/licensing/jwt.go:214-234 | which requests get through: signature, two minutes of window, the form of the nonce, and no row with it |
| `Replay.ReceiveGives` | backend/internal/licensing/runtime.go:76-100 | an accepted request leaves its nonce for five minutes and deletes at most a hundred expired rows, no live one; a refused one leaves the rows alone |
| `Replay.NonceGate.Reserve` | backend/internal/licensing/runtime.go:76-100 | the transaction refuses a used nonce, deletes at most a hundred expired rows and inserts the new one |
| `Replay.NonceGate.Authenticate` | backend/internal/licensing/runtime.go:62-105 | the gate accepts exactly the specified deliveries |
| `Bindings.CandidatesCover` | backend/internal/service/binding_subjects.go:30-52 | every registered value that matches a domain or address is among the looked-up candidates: exact, every wildcard suffix, every masked network |
| `Bindings.MatchDomainOnLabels` | backend/internal/service/authorization_terms.go:269-289 | the domain rule on labels: a wildcard matches its base only with the apex included, names one label below, and names further below only with all depths included |
| `Bindings.CandidatesAre` | backend/internal/service/binding_subjects.go:30-52 | the candidates are exactly the value, its wildcards of two labels and more, and its prefixes of one bit and more |
| `Bindings.CollectCandidates` | backend/internal/service/binding_subjects.go:30-52 | the loops collect exactly the candidates |
| `Bindings.ScannedIff` | backend/internal/service/authorization_terms.go:269-311 | the scan in plain terms: active bindings with the value itself, a wildcard rule that covers the domain, or a network whose bits the address begins with |
| `Bindings.LookupIsScan` | backend/internal/service/binding_subjects.go:53-90 | with at most twenty hits per kind the lookup finds exactly what a scan of all bindings with the matching rule finds |
| `Bindings.LookupIsScanIff` | backend/internal/store/authorization.go:44-68 | the lookup is the scan exactly when every active binding that covers the query does so under some kind in which fewer than twenty bindings activated later are registered with a candidate value |
| `Bindings.FoundIff` | backend/internal/store/authorization.go:44-68 | one binding is found exactly when it is active and covers the query under a kind in which fewer than twenty later activated bindings compete |
| `Bindings.LookedIff` | backend/internal/store/authorization.go:54 | under one kind a binding is among the returned rows exactly when it competes and fewer than twenty compete ahead of it |
| `Bindings.LookupMissesBeyondLimit` | backend/internal/store/authorization.go:54 | more than twenty bindings on one domain hide a covering one |
| `Bindings.Lookup` | backend/internal/service/binding_subjects.go:53-90 | the loops return each found binding once, and nothing else |
| `Bindings.IndexingKeeps` | backend/internal/service/binding_subjects.go:13-29 | indexing one more binding keeps the index faithful for all |
| `Bindings.BindingIndex.IndexBinding` | backend/internal/service/binding_subjects.go:13-29 | the loop replaces a binding's rows by one per component |
| `Usage.QuotaOverRuns` | backend/internal/licensing/runtime.go:663-700 | in every run the receipts of any period add up to at most the quota, each key is charged at most once, each receipt shows the running remainder, and the reported remainder is the quota less the current period's receipts |
| `Usage.ChargeIff` | backend/internal/licensing/runtime.go:663-700 | a charge under a new key goes through exactly when the license is metered, the units and the key are within their bounds and they fit the quota less what the receipts of the period add up to; it leaves one more receipt and lowers the remainder by its units |
| `Usage.ReplayedKey` | backend/internal/licensing/runtime.go:673-678 | a key that was charged is answered without a charge ever after, in any month, and refused with other units |
| `Usage.UsageMeter.Charge` | backend/internal/licensing/runtime.go:663-700 | the method leaves exactly the specified meter, or the meter as it was |
| `Releases.CompareVersionOrders` | backend/internal/licensing/updates.go:26-39 | the version comparison is a total order on version texts whose zero is text equality; what it calls greater is said by CompareVersionMeans |
| `Releases.CompareVersionMeans` | backend/internal/licensing/updates.go:26-39 | one version compares greater exactly when at the first part in which the texts differ its number is longer, or as long and greater at the first differing digit |
| `Releases.EligibleIff` | backend/internal/licensing/updates.go:264-282 | which releases are eligible for a request |
| `Releases.BestIsNewest` | backend/internal/licensing/updates.go:387-404 | the best eligible release is newer than the current version and no eligible one is newer |
| `Releases.VersionIff` | backend/internal/licensing/updates.go:21 | a version text is three dotted numbers of one to nine digits without leading zeros |
| `Releases.NumeralsInjective` | backend/internal/licensing/updates.go:21 | numbers without leading zeros are equal only if written alike |
| `Releases.BetterOrders` | backend/internal/licensing/updates.go:401 | the loop's test orders releases by version and then specificity |
| `Releases.Choose` | backend/internal/licensing/updates.go:387-404 | the loop returns the best eligible release, the first among exact ties, and none exactly when none is eligible; the release it returns is newer than the current version as the texts say it, and no eligible one is newer still |
| `Releases.ChoiceIgnoresOrder` | backend/internal/licensing/updates.go:387-404 | the chosen version and specificity do not depend on the order of the list, nor does the release up to exact ties |
| `Mfa.ProofsAreOneTime` | backend/internal/service/admin_mfa.go:38-70 | in every run, within one enrolment, accepted time steps strictly rise and a recovery code is accepted no more often than it was issued |
| `Mfa.StateNeverReturns` | backend/internal/service/admin_login.go:39-47 | the state in which a code was accepted never returns, whatever becomes of the factor |
| `Mfa.EnrolledStateNeverReturns` | backend/internal/service/admin_login.go:39-47 | a state with a secret that was left for another never returns |
| `Mfa.DisabledStateReturns` | backend/internal/service/admin_mfa.go:173-193 | the state without a secret left by disabling does return: two enrolments within one time step, each disabled with a recovery code |
| `Mfa.ChallengeCompletesOnce` | backend/internal/service/admin_login.go:100-149 | a login challenge completes at most once in every run |
| `Mfa.ChallengeCompletes` | backend/internal/service/admin_login.go:51-99 | a fresh challenge completes exactly with an acceptable code while the account is unchanged and five minutes have not passed |
| `Mfa.RevokedChallengesFail` | backend/internal/store/admin_mfa.go:34-37 | a challenge issued before the factor was enabled or disabled, or sessions were revoked, never completes afterwards |
| `Mfa.CheckCodeRises` | backend/internal/service/admin_mfa.go:38-70 | an accepted code either raises the last step to a fresh step within one of the current, or removes one copy of a recovery code |
| `Mfa.CodeAcceptedIff` | backend/internal/service/admin_mfa.go:38-70 | which codes are accepted: those of a later time step within one of the clock, and recovery codes still held where allowed; the time step is tried first |
| `Mfa.BeginIff` | backend/internal/service/admin_mfa.go:94-132 | when enrolment begins and what it leaves |
| `Mfa.ConfirmIff` | backend/internal/service/admin_mfa.go:133-172 | enrolment is confirmed within ten minutes by a code of its secret; all sessions end |
| `Mfa.DisableIff` | backend/internal/service/admin_mfa.go:173-193 | when an enabled factor is disabled and what it leaves |
| `Mfa.VerifyLoginIff` | backend/internal/service/admin_mfa.go:194-214 | a login needs a code exactly when the factor is enabled, and spends it |
| `Mfa.CompleteIff` | backend/internal/service/admin_login.go:100-149 | when a challenge completes: address, end, account, session version, state and code |
| `Mfa.StartLoginIff` | backend/internal/service/admin_login.go:51-99 | when a challenge is issued, for five minutes, and what it is bound to |
| `Mfa.FactorRow.VerifyCode` | backend/internal/service/admin_mfa.go:38-70 | the method accepts and updates the row exactly as specified, candidates in the source's order |
| `Mfa.Admin.ConfirmMfa` | backend/internal/service/admin_mfa.go:133-172 | the method enables the factor as specified, or changes nothing |
| `Mfa.Admin.DisableMfa` | backend/internal/service/admin_mfa.go:173-193 | the method disables the factor as specified, or changes nothing |
| `Mfa.Admin.VerifyMfa` | backend/internal/service/admin_mfa.go:194-214 | the method checks and spends a code as specified, or changes nothing |
| `Mfa.Admin.CompleteLogin` | backend/internal/service/admin_login.go:100-149 | the method completes a challenge as specified, or changes nothing |
| `Limiter.LimiterBound` | backend/internal/httpapi/middleware.go:57-73 | in every run at most twice the limit less one requests of a key pass in any half-open span of one window |
| `Limiter.LimiterBoundReached` | backend/internal/httpapi/middleware.go:57-73 | that many do pass in some run, for every limit |
| `Limiter.CleanupInvisible` | backend/internal/httpapi/middleware.go:75-84 | the guard that cleans up answers every operation as one that never does |
| `Limiter.RetryAfter` | backend/internal/httpapi/middleware.go:67-69 | the reported wait is positive and exact |
| `Limiter.LockoutNeedsFailures` | backend/internal/httpapi/middleware.go:106-132 | a key is locked out only after at least the threshold of failures within the last window, and the lock ends |
| `Limiter.LockedIff` | backend/internal/httpapi/middleware.go:106-132 | in every run a key is locked out exactly while its window lasts and at least the threshold of failures were recorded since it was opened |
| `Limiter.RefusedIff` | backend/internal/httpapi/middleware.go:57-73 | when a request or attempt is refused |
| `Limiter.AfterGives` | backend/internal/httpapi/middleware.go:57-84 | what an operation leaves of the table, with the size from which expired windows are dropped |
| `Limiter.Guard.Clean` | backend/internal/httpapi/middleware.go:75-84 | the loop deletes exactly the expired windows of a large table |
| `Limiter.Guard.Request` | backend/internal/httpapi/middleware.go:57-73 | the method answers and updates the table as specified |
| `Limiter.Guard.Failed` | backend/internal/httpapi/middleware.go:120-132 | recording a failure updates the table as specified |
| `Audit.TamperingShows` | backend/internal/licensing/lifecycle.go:435-479 | rows pass the check against the head of the true log if and only if they are the true log |
| `Audit.AuditIntegrity` | backend/internal/licensing/lifecycle.go:438-479 | the paged loop succeeds exactly when the rows form a chain that ends in the recorded head |
| `Audit.LogIsChained` | backend/internal/store/application_store.go:627-668 | appending builds a chain with one event per append |

## Left out

- Money.UnitCost: amounts are unbounded integers; the source uses 64-bit integers, which the caps on balances, costs and quantities keep far from overflow.
- Ledger.LiveAgreesWithRebuild: calendar days are 24 hours, as they are in UTC; dates do not overflow.
- SalesDesk.Desk.ActivateLicense: the credential, binding, seat and token checks around an activation are one input that says whether they passed; seats, anchors and tokens have modules of their own.
- SalesDesk.Desk.CreateSale: printed digests are checked, but the cards' key hashes are drawn as inputs either way.
- SalesDesk.Desk.ReceiveSale: the signature is an input that says whether it is valid, and the body arrives parsed.
- SalesDesk.Desk.ConfirmSale: the reason that has to be given, and is kept with the order, is not modelled.
- Seats.SeatDesk.Activate: the checks around the seat count are one input; the usage deadline and the lease policy of the moment are inputs of each step.
- Seats.SeatDesk.Verify: the token, binding and usability checks are one input; consumption has its own module, `Usage`.
- Seats.SeatDesk.Rebind: whether the license is usable and the new binding acceptable is one input; the anchors it replaces have their own module, `Anchors`.
- Bindings.Lookup: the limit of twenty is modelled per kind on active bindings in the order of the query; loading the license for its terms cannot fail here.
- Money.AgentFunds.GeneratePackageCards: the cards themselves, batches and the checks of product, policy and quota; whether the agent is active and whether those checks pass are inputs.
- Keys.PublicKeys: the check that a stored key id carries the application's prefix, and key material, are not modelled.
- Limiter.Guard.Request: the mutex; each call is one atomic step.
- Identifiers, secrets, card keys and key material drawn at random are inputs; a second draw of a taken identifier fails as the unique keys do, and an MFA secret is never drawn twice.
- Hashes and keyed hashes are injective, so tables hold the values themselves; signatures are inputs that say whether they are valid.
- Role and principal checks: a step happens only for a permitted caller.
- Terms other than those that sales, seats, anchors, usage and renewals read, and the parts of an application record that nothing modelled here reads.
- Parsing of domains, addresses, URLs and JSON; IDNA and the public suffix list: canonical values are the starting point.
- HTTP routing and handlers, e-mail, metrics, exports, backups, release files, integration kits and the command-line and SDK clients.
- The first version of activation and seats, except its binding index.
- Installation requests, approvals and invitations; an activation through them is an activation of their license.
- Composite bindings matched against composite values; the lookup matches one component at a time.
