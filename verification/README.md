# A verified model of the Billing money ledger

OpenVibe.Billing keeps every balance of the network in one double-entry journal. Each operation in
`server/ops/` runs as one serializable transaction: it reads the store, decides, posts at most a few balanced
transactions and updates the tables beside the journal, or it fails and nothing has changed.

This project models that store and those operations in Dafny and proves what they keep. One value, `Schema.State`,
is the whole store between two operations: the clock, the freeze switch, the journal with its cached balances,
payment intents, cashouts, subscriptions and their periods, sweep reads in flight, allowances, budgets, usage
readings, provider events, Vibes Pay charges, Balance holds and settlements. `Store.Db` is the same store as an
object with fields, and every operation is written twice:

- a *specification function* from a state and arguments to `Done(state, answer)` or `Fail(error)`;
- an *imperative method* on a `Db` that follows the source statement by statement, loops included, and is proved to
  answer what the function says and to leave the object in exactly that state (`Db.Answers`: on a failure, the old state).

Everything else is proved about the functions, so it holds of the methods.

## What is proved

*Every run.* `Runs.Command` lists the operations; a run is any sequence of them from the empty store, with provider
events arriving in any order and repeatedly, sweeps whose key is computed in one step and charged in a later one, and the
freeze switched at will. In every state any run reaches: the reconciliation's checks pass (fx.mirror exactly when
no Vibes were bought from a Balance), no credit, payable or escrow account is below zero, periods chain without overlap,
one renewal charge stands for each period end, every balance is an exact integer, reversals telescope, promo credit equals the open windows, Vibes
spending stays in its rolling limit, each receipt settles once, each settled event owns one transaction, and a rated
reading is never rated again. As long as no top-up is reversed while a hold is open on the account it went to, no
account's holds exceed its balance; that condition is needed (`Effects.RefundUncoversHold`) and
`Effects.ClawCoversExactly` says exactly when a reversal breaks the cover.

*What callers promise* (`Runs.Allowed`): a cashout that still waits is approved or denied under a key not used before.
It matters, because `approve` and `deny` do not look at the replay flag of `post`: under any used key the row is marked
and escrow keeps the amount (`Cashouts.ApproveUnderUsedKey`, `Cashouts.DenyUnderUsedKey`). Any other operation may come
under a used key, as a retry or by mistake, and no run loses any of this by it.

*Each operation.* Beside what it keeps, three things are proved of each operation without naming its body. *When it goes through*
(`Admission`): if and only if a condition a caller could check before the call, with the range of the balances as the only
other reason to refuse. *What it does*: the transaction it records, every account that moves and by how much, the row it
writes and that nothing else changes (`Movements` for the money, `Memberships` for subscription payments, renewals and each
end of a sweep, `Recoveries` for reversals and the periods they revoke, `Reservations` for holds, `Rows` for checkouts,
budgets and charge links, `Deliveries` for provider events). *What repeating or undoing it does*: every command under a key, a
receipt, a reference or an event id does when sent twice what it does when sent once (`Repeats.CommandsRepeat`); request and deny,
give and refund, hold and release, pay and refund, top up or buy and reverse leave what was there (`RoundTrips`, `Movements`, `Reservations`).

*The algorithms inside.* The price-tier search is the largest affordable amount, the entitlement loop finds the first uncovered
instant, the renewal-key search ends at the first attempt not reversed, the allowance draw is optimal for every deadline, the usage
charge is the least whole number covering the exact product, a rating pass leaves no reading of its batch undecided, the importer
converges and is idle when repeated, the canonical JSON text of a request identifies it up to the order of names.

## Conventions

Times are integers (milliseconds) and the clock never goes back. Rates and settings are one `Config` value for a run.
Amounts are mathematical integers, with the source's range checks kept (`Journal.InRange`, `Credits.Storable`).
`Math.round(a / b)` is the nearest integer with halves upwards on the exact rational (`Basics.RoundDiv`); prices per bit are
exact multiples of `1 / scale` of a cent, and the value rate is positive (`Rates.ValueRate`). Keys, account owners and receipt references are datatypes whose constructors are the source's string
prefixes, so two keys built for different purposes never collide. Ids are positions in their tables.

Two places where the code differs from its own description are modelled as the code is: a top-up reversal takes from the balance,
held or not (`server/ops/reversals.js:83-84`), and `buyVibes` posts its fx bits leg with no cents leg
(`server/ops/balance.js:206-211`), which `Reconcile.MirrorsPass` turns into an if and only if. Two properties one would expect hold
only under a condition on the configuration, which is stated exactly: the price of bits rises with their number if and
only if it does at every tier edge (`Rates.PriceRisesExactly`; not at the default tiers, `Rates.PriceNotMonotone`), and the
part of a purchase reversal that is not fx is never negative if and only if the value rate is a multiple of 50 and at least
100 bits a dollar (`PartCover.RatesThatCover`), while the entries balance at any rate (`Reversals.PartShape`).

## Files

`Basics`, `Schema`, `Journal`, `Rates`, `Common`, `Invariants`, `Store` hold the data model, the arithmetic, the ledger and the invariant, part by part.
`Purchases`, `Transfers`, `Cashouts`, `Entitlements`, `Subscriptions`, `Reversals`, `Promo`, `Rating`, `Credits`, `Topups`, `Balance`,
`Vibes` are the files of `server/ops/`; `Providers` and `Draining` the event pipeline; `Importer`, `Idempotency`,
`Reconcile` their namesakes. `Movements`, `Memberships`, `Recoveries`, `Reservations`, `Rows`, `Deliveries` say what each operation does,
`Admission` when it goes through, `Repeats` and `RoundTrips` what repeating and undoing it does. `PartCover` finds the value rates at which
every part of a purchase reversal is covered; `Growth` and `Effects` say which operations post what kind of transaction and which leave holds
alone. `Runs` puts all operations together, and `RatingRuns` follows the usage readings and budgets through a run.

## Model

| member | source | states |
|---|---|---|
| `Store.Db.constructor` | server/ledger.js:55-68 | a new store is empty: every balance reads 0 |
| `Store.Db.Balance` | server/ledger.js:64-68 | the cached balance, 0 for an account with no row |
| `Store.Db.Post` | server/ledger.js:96-168 | the loops of `post` (merge, sums, range checks, cache) leave the store as the function `Post` says: a known key replays, an unbalanced, out of range or duplicate posting changes nothing |
| `Store.Db.MergeEntries` | server/ledger.js:105-125 | one row an account in order of first appearance, the sum of each currency, stopping at an entry out of range |
| `Store.Db.CheckSums` | server/ledger.js:126-134 | the first currency that does not cancel decides the failure, and none fails exactly when all cancel |
| `Store.Db.CheckRows` | server/ledger.js:147-158 | true exactly when every merged amount and every balance it leaves is an exact integer |
| `Store.Db.WriteRows` | server/ledger.js:159-164 | the rows that move something are stored and each bumps its own balance |
| `Store.Db.Holds` | server/ledger.js:180-187 | requireFunds: enough exactly when the balance covers the amount |
| `Journal.PostEffect` | server/ledger.js:96-168 | a posting appends one transaction with no empty row and no account twice, moves every account by exactly its entries, cancels in every currency, and keeps cache = sum of entries, exact integers, unique keys and unique receipts |
| `Journal.SumsErrorNone` | server/ledger.js:126-134 | the balance check passes if and only if every currency's entries cancel |
| `Journal.PostAccepts` | server/ledger.js:96-168 | entries in range that cancel, under a fresh key and receipt, are posted when the resulting rows are in range; range is the only reason left to refuse |
| `Journal.PostDecides` | server/ledger.js:96-168 | entries that cancel, under a fresh key and receipt, are posted exactly when every entry, what every account moves by and the balance it is left with are exact integers |
| `Journal.JournalCancels` | server/reconcile.js:49-54 | zero-sum per currency follows from every transaction balancing |
| `Common.ShapeStored` | server/ops/common.js:41-60 | what an operation's entries satisfy (fx mirror, promo isolation, receipt booking) survives the merge that stores them |
| `Common.KindUntouched` | server/ledger.js:159-164 | an account kind no entry names keeps every balance |
| `Invariants.PostKeeps` | server/ledger.js:96-168 | which parts of the invariant one posting cannot disturb, by its key, type, reversal and the kinds it touches |
| `Invariants.ReceiptShape` | server/ops/common.js:49-60 | receipt entries cross fx at the recorded rate, clear exactly the paid cents and credit only the target |
| `Rates.ComputeBitsForPriceCents` | server/rates.js:25-32 | the loop over the tiers returns the best qualifying candidate |
| `Rates.TierIndex` | server/rates.js:19-22 | the first tier the amount reaches, or the last one |
| `Rates.SharesAreNearest` | server/rates.js:34-35 | the creator's bits are the nearest value-rate amount of the whole cents of the percentage, never below 0 |
| `Rates.BestIsMax` | server/rates.js:25-32 | the result is a qualifying candidate (or 0) and no qualifying candidate is larger |
| `Rates.BitsForPriceIsLargest` | server/rates.js:25-32 | with prices that fall as tiers rise, the largest number of bits whose exact tier price is at most the money |
| `Rates.BitsForPriceMonotone` | server/rates.js:25-32 | more money never buys fewer bits |
| `Rates.BitsForPriceCovered` | server/rates.js:25-32 | when every tier costs at least the value rate, never buys more value than was paid |
| `Rates.PriceRoundTrip` | server/rates.js:19-32 | paying the rounded price of n bits buys at least n - 1, for tiers that start on whole cents and cost at least half a cent a bit |
| `Rates.DefaultTiersRoundTrip` | server/config.js:20-28 | the default tiers give at least n - 1 bits for the price of n |
| `Rates.PriceRisesExactly` | server/rates.js:19-22 | more bits never cost less, for all amounts, if and only if at each tier edge the first amount of the tier costs no less than the last one below it |
| `Rates.PriceNotMonotone` | server/rates.js:19-22 | at the default tiers the price falls at the edge of the dearest quantity: priceCents(25000) is below priceCents(24999) |
| `Purchases.ChooseBits` | server/ops/purchases.js:41-49 | the intent's package when the payment covers it to the cent, else the explicit bits, else the tiers |
| `Purchases.SettleReceipt` | server/ops/purchases.js:19-72 | the method does what `Settle` says, errors and replays included |
| `Purchases.SettleKeeps` | server/ops/purchases.js:19-72 | settling a receipt keeps the whole invariant, a retry under a used key included |
| `Movements.PurchaseMoves` | server/ops/purchases.js:19-72 | a settlement that posts records one purchase of one choice of bits (package, explicit or tiers), worth at most what was paid, moves exactly the receipt's accounts, settles the intent and nothing else; a known receipt or key changes nothing |
| `Transfers.Create` | server/ops/transfers.js:23-54 | the gift method does what `Give` says |
| `Transfers.RefundTransfer` | server/ops/transfers.js:56-83 | the refund method does what `RefundGift` says |
| `Transfers.FromReceipt` | server/ops/transfers.js:85-109 | the site-routed tip method does what `TipFromReceipt` says |
| `Transfers.GiveKeeps` | server/ops/transfers.js:23-54 | a gift keeps the invariant and takes nobody below zero |
| `Transfers.RefundGiftKeeps` | server/ops/transfers.js:56-83 | partial refunds of a gift never add up to more than the gift |
| `Transfers.TipKeeps` | server/ops/transfers.js:85-109 | a tip from a receipt keeps the invariant, a retry under a used key included |
| `Movements.GiveMoves` | server/ops/transfers.js:23-54 | the recorded gift, the giver's loss and the receiver's payable are exactly the amount, and nothing else changes |
| `Movements.RefundGiftMoves` | server/ops/transfers.js:56-83 | what is asked, or all that is left, and never more, moves back from the receiver to the giver, and counts towards what was refunded |
| `Movements.GiveThenRefund` | server/ops/transfers.js:23-83 | a gift given and wholly refunded leaves every balance as it was and nothing to refund again |
| `Movements.TipMoves` | server/ops/transfers.js:85-109 | the tip becomes payable, to the nearest Vibe of the value rate, worth at most what was paid; a known receipt or key changes nothing |
| `Cashouts.RequestCashout` | server/ops/cashouts.js:56-101 | the method does what `Request` says, replays with other terms refused |
| `Cashouts.ApproveCashout` | server/ops/cashouts.js:103-134 | the method does what `Approve` says |
| `Cashouts.DenyCashout` | server/ops/cashouts.js:136-160 | the method does what `Deny` says |
| `Cashouts.RecycleToCredit` | server/ops/cashouts.js:162-181 | the method does what `RecyclePayable` says |
| `Cashouts.RequestKeeps` | server/ops/cashouts.js:56-101 | pending escrow stays the sum of the requested rows, and project wallets their charges less cashouts |
| `Cashouts.ApproveKeeps` | server/ops/cashouts.js:103-134 | paying out keeps the invariant, escrow included, for every key when the cashout no longer waits, and for a fresh key when it does |
| `Cashouts.DenyKeeps` | server/ops/cashouts.js:136-160 | denying keeps the invariant, for every key when the cashout no longer waits, and for a fresh key when it does |
| `Cashouts.RecycleKeeps` | server/ops/cashouts.js:162-181 | recycling keeps the invariant |
| `Cashouts.ApproveUnderUsedKey` | server/ops/cashouts.js:113-121 | under a key already in the journal the row is marked paid while escrow keeps the amount, so pending no longer matches the rows |
| `Cashouts.DenyUnderUsedKey` | server/ops/cashouts.js:144-154 | denying a waiting cashout under a key already in the journal marks it denied while escrow keeps the amount |
| `Movements.RequestMoves` | server/ops/cashouts.js:56-101 | the amount goes from payable or the project's wallet into escrow, with one requested row of its value that may be paid after the escrow time |
| `Movements.ApproveMoves` | server/ops/cashouts.js:103-134 | the amount leaves escrow across fx to the payout provider, only after its escrow time, and the row carries the payout |
| `Movements.DenyMoves` | server/ops/cashouts.js:136-160 | the amount returns from escrow to payable |
| `Movements.RequestThenDeny` | server/ops/cashouts.js:56-160 | asking and being denied leaves a person's balances as they were; a project's money ends with its owner |
| `Movements.RecycleMoves` | server/ops/cashouts.js:162-181 | payable becomes credit, one for one |
| `Admission.PurchaseAccepted` | server/ops/purchases.js:19-72 | a fresh payment settles if and only if it is in range, fits its intent, names somebody, and buys between one bit and the limit, worth at most the payment |
| `Admission.GiftAccepted` | server/ops/transfers.js:23-54 | a gift goes through if and only if the amount is in range, the two differ and the giver holds it |
| `Admission.GiftRefundAccepted` | server/ops/transfers.js:56-83 | a gift can be refunded if and only if what is asked is left of it and its receiver still holds it |
| `Admission.TipAccepted` | server/ops/transfers.js:85-109 | a tip is booked if and only if the payment is in range, not one's own, and worth its Vibes |
| `Admission.CashoutAccepted` | server/ops/cashouts.js:56-101 | a cashout is accepted if and only if the amount is in range, not below the minimum, the project is owned, and the source holds it |
| `Admission.PayoutAccepted` | server/ops/cashouts.js:103-134 | a payout goes through if and only if the row waits and its escrow is over, or it was this payout |
| `Admission.DenialAccepted` | server/ops/cashouts.js:136-160 | a denial goes through if and only if the row waits or was denied |
| `Admission.RecyclingAccepted` | server/ops/cashouts.js:162-181 | recycling goes through if and only if the amount is in range and the payable holds it |
| `Entitlements.Entitlement` | server/ops/subscriptions.js:50-63 | active exactly when an unrevoked period covers now; the expiry is the first instant from now on that none covers; the chaining loop ends |
| `Subscriptions.PayPeriod` | server/ops/subscriptions.js:85-193 | the method does what `Pay` says; `Memberships` says what that writes and moves, from credit and from a receipt |
| `Subscriptions.CancelAtPeriodEnd` | server/ops/subscriptions.js:205-228 | the method does what `Cancel` says |
| `Rows.CancelWrites` | server/ops/subscriptions.js:205-228 | a running membership stops renewing and is marked to end, nothing else of it changes; any other is left as it is |
| `Subscriptions.EndSubscription` | server/ops/subscriptions.js:234-247 | the method does what `SetStatus` says, guarded by the period end it read |
| `Subscriptions.TurnPastDue` | server/ops/subscriptions.js:254-267 | the method does what `MarkPastDue` says, a no-op when the row changed since |
| `Subscriptions.Attempt` | server/ops/subscriptions.js:275-284 | the search stops at the first attempt whose charge is not reversed, all earlier ones being reversed |
| `Subscriptions.RenewalKey` | server/ops/subscriptions.js:275-284 | the loop ends and returns that attempt's key |
| `Subscriptions.FamilyBound` | server/ops/subscriptions.js:275-284 | a family of reversed renewal keys is never larger than the journal, so the search terminates |
| `Subscriptions.RevokeForTxn` | server/ops/subscriptions.js:287-312 | the loop over the periods does what `RevokeFrom` says and answers how many it revoked |
| `Subscriptions.RevokeFromKeeps` | server/ops/subscriptions.js:287-312 | exactly the unrevoked periods of the payment become revoked, and the chain, the end and the grace stay in order |
| `Subscriptions.LastEndIs` | server/ops/subscriptions.js:296-301 | the end left to a subscription is that of a standing period, none of them ends later, and there is none exactly when none stands |
| `Subscriptions.Due` | server/ops/subscriptions.js:324-325 | active and past-due rows whose end is over, soonest end first, none twice, all of them when fewer than the limit |
| `Subscriptions.SweepRow` | server/ops/subscriptions.js:326-357 | one row of the sweep does what `SweepOne` says; `Memberships` says how each kind of due row ends |
| `Subscriptions.Sweep` | server/ops/subscriptions.js:319-359 | a whole sweep does what its steps say, answers the failure that stopped it, and keeps the invariant |
| `Subscriptions.PayKeeps` | server/ops/subscriptions.js:85-193 | paying a period, renewals included, keeps the invariant: periods do not overlap, the end is the latest of them, charges match periods |
| `Subscriptions.SweepOneKeeps` | server/ops/subscriptions.js:319-359 | a sweep step on a row read earlier keeps the invariant whatever happened in between |
| `Subscriptions.ReadDueKeeps` | server/ops/subscriptions.js:319-345 | reading a due row and computing its key keeps the invariant: the key's earlier attempts are all reversed |
| `Subscriptions.ChargeReadKeeps` | server/ops/subscriptions.js:319-359 | charging a key computed in an earlier step keeps the invariant |
| `Subscriptions.OneStandingCharge` | server/ops/subscriptions.js:275-284 | of two renewal charges for one subscription and period end the earlier attempt is reversed |
| `Subscriptions.SetStatusKeeps` | server/ops/subscriptions.js:234-247 | ending a subscription keeps the invariant |
| `Subscriptions.MarkPastDueKeeps` | server/ops/subscriptions.js:254-267 | turning past due keeps grace = period end + the grace |
| `Subscriptions.CancelKeeps` | server/ops/subscriptions.js:205-228 | cancelling keeps the invariant |
| `Memberships.SweepStripe` | server/ops/subscriptions.js:333-337 | a due Stripe row is left alone until the grace after its end is over, then expires; nothing is charged |
| `Memberships.SweepEnds` | server/ops/subscriptions.js:338-341 | a due row that is cancelled or does not renew ends Canceled or Expired, and nothing else changes |
| `Memberships.SweepGraceOver` | server/ops/subscriptions.js:342-345 | a row past due whose grace is over expires without a charge |
| `Memberships.SweepRenews` | server/ops/subscriptions.js:330-353 | a renewing row whose member holds the price at the value rate is charged exactly that, the creator gets the share, one period is granted and the row is active at the same price until its end |
| `Memberships.SweepFallsDue` | server/ops/subscriptions.js:346-357 | when the credit falls short no balance moves: past due exactly while now is before the period end plus the grace, else expired |
| `Memberships.SweepStale` | server/ops/subscriptions.js:234-267 | a row whose period end moved on since the sweep read it is left alone or paid for again, and one whose status changed is not turned past due |
| `Memberships.ReadThenCharge` | server/ops/subscriptions.js:319-357 | reading a due row and charging its key at once is the sweep's one step |
| `Memberships.PayGrants` | server/ops/subscriptions.js:85-193 | a payment from credit or from a receipt writes one period from now or from the running end, its subscription (tier, price, provider, renewal) active until its end, the settled intent, and nothing else; a replay writes nothing |
| `Memberships.PayMoves` | server/ops/subscriptions.js:105-127 | paid from credit, the member pays the nearest value of the price on the row, the creator gets the percentage of it and revenue the rest |
| `Memberships.PayReceiptMoves` | server/ops/subscriptions.js:128-145 | paid directly nothing moves; otherwise the payment clears and the creator gets the nearest value of the whole cents of the percentage of the payment less a positive fee, never below 0 |
| `Memberships.PaidCovers` | server/ops/subscriptions.js:50-63 | after a payment exactly its subscriber is entitled to its streamer for its period, beside who was before |
| `Memberships.RevokedCovers` | server/ops/subscriptions.js:287-312 | revoking a payment ends exactly the entitlement its periods gave |
| `Admission.MembershipAccepted` | server/ops/subscriptions.js:85-127 | a payment from credit goes through if and only if there is a price, the credit covers it, it is not to oneself, and no other tier is still running |
| `Admission.PaidPeriodAccepted` | server/ops/subscriptions.js:85-145 | a payment from a receipt is refused only for its range, for oneself, or for a share worth more than it |
| `RoundTrips.PayThenRefundPeriod` | server/ops/reversals.js:152-211 | a membership paid from credit and refunded at once leaves every balance and every entitlement as they were |
| `Reversals.ReverseReceipt` | server/ops/reversals.js:34-147 | the method does what `Reverse` says, periods revoked and the intent marked |
| `Reversals.BuildPart` | server/ops/reversals.js:56-108 | the entries pushed part by part are those of `PartOf`; `Recoveries` says what each of them moves |
| `Reversals.RefundCreditPeriod` | server/ops/reversals.js:152-211 | the method does what `RefundPeriod` says |
| `Reversals.NanoPartCovered` | server/ops/reversals.js:77-91 | a top-up part never takes back more than the cents it returns, so its revenue part is never negative |
| `Reversals.PurchasePartCovered` | server/ops/reversals.js:57-69 | at 100 bits a dollar the part of a purchase that is not fx is never negative |
| `PartCover.RatesThatCover` | server/ops/reversals.js:57-69 | that part is never negative, whatever was bought, paid, returned before and clawed now, if and only if the value rate is at least 100 bits a dollar and a multiple of 50 |
| `PartCover.HalvesCover` | server/ops/reversals.js:57-69 | at every multiple of 50 from 100 up, a part of the bits is worth at most the cents returned with it |
| `PartCover.OtherRatesFail` | server/ops/reversals.js:57-69 | at every rate that is no multiple of 50 there is a purchase and a part of it worth more than the cents returned, and the lemma computes one |
| `PartCover.HalfBitFails` | server/ops/reversals.js:57-69 | and at 50 bits a dollar half of a two-cent payment of one bit is one |
| `Reversals.PartShape` | server/ops/reversals.js:56-124 | every partial reversal balances in every currency, mirrors fx and takes nobody below zero |
| `Reversals.PartTotals` | server/ops/reversals.js:42-97 | adding one part to the totals of the parts before it gives the totals of both: bits round(B·done/paid), Balance floor(amount·done/paid) |
| `Reversals.FullyReversed` | server/ops/reversals.js:42-97 | fully reversed, a purchase gave back exactly its bits and a top-up exactly its amount |
| `Reversals.ReverseKeeps` | server/ops/reversals.js:34-147 | a reversal keeps the invariant, periods against charges included |
| `Reversals.RefundPeriodKeeps` | server/ops/reversals.js:152-211 | refunding a credit period keeps the invariant |
| `Reversals.PeriodRefundedOnce` | server/ops/reversals.js:170-175 | a second refund of the same period, under any key, does nothing |
| `Reversals.NoticeMoves` | server/ops/reversals.js:26-47 | a cumulative notice moves the total to the larger of what is done and what it says, never past what was paid |
| `Reversals.NoticesCommute` | server/providers/stripe.js:108-116 | after any sequence of notices that are not refused, in any order and repeated, the total is min(paid, largest seen); repeats ask for the same, and one known before asks for no more than was returned |
| `Reversals.RunKnows` | server/ops/reversals.js:27-33 | a run of notices leaves the journal knowing only what it knew before and the notices of the run |
| `Reversals.NoticesAgree` | server/ops/reversals.js:42-58 | two such runs with the same largest notice agree on the cents and on the bits taken back |
| `Recoveries.RefundPeriodMoves` | server/ops/reversals.js:177-203 | the member gets the whole cost back, the creator's share is taken as far as it is there, what is missing is a loss across fx; the periods are revoked and the intent refunded |
| `Admission.PeriodRefundAccepted` | server/ops/reversals.js:152-176 | a period refund goes through if and only if the payment was from credit and granted a period of that subscription |
| `Recoveries.ReversePurchaseMoves` | server/ops/reversals.js:56-71 | the bits the part bought are taken as far as the buyer has them, across fx, the cents leave clearing, and loss and refunds share the rest by kind |
| `Recoveries.ReverseTopupMoves` | server/ops/reversals.js:72-97 | the Balance falls by what the part bought as far as it is there, the debt takes the rest, clearing rises by the cents, revenue falls by the fee's part, and no other account moves |
| `Recoveries.ReverseKeptMoves` | server/ops/reversals.js:98-108 | a reversed tip or period payment leaves the creator's payable alone: the cents are refunds, or a loss when charged back, and nothing for a direct payment |
| `Recoveries.ReverseWrites` | server/ops/reversals.js:109-147 | exactly the payment's standing periods carry the reason, their subscriptions run on to what is left or expire, and the intent is refunded once all is returned |
| `Recoveries.ReverseReviews` | server/ops/reversals.js:56-147 | a reversal is set aside for review exactly when something could not be taken back |
| `Admission.ReversalAccepted` | server/ops/reversals.js:34-58 | a new reversal goes through if and only if its payment is known and was paid, or leaves nothing to return |
| `RoundTrips.TopupThenReverse` | server/ops/reversals.js:72-97 | a top-up returned whole at once leaves every balance as it was; a Balance that was below zero keeps what it was short of and owes that as debt |
| `RoundTrips.PurchaseThenReverse` | server/ops/reversals.js:56-71 | a purchase refunded whole at once leaves every balance as it was but for revenue, which becomes refunds |
| `Promo.EndedOrder` | server/ops/promo.js:52-53 | exactly the ended windows that still hold something, each once |
| `Promo.Lapse` | server/ops/promo.js:49-67 | the loop does what `LapseAll` says |
| `Promo.GrantAllowance` | server/ops/promo.js:73-104 | the method does what `Grant` says and a failure leaves the store as it was |
| `Promo.ConsumeAllowance` | server/ops/promo.js:128-166 | the method does what `Consume` says |
| `Promo.DrawDown` | server/ops/promo.js:149-157 | the loop takes from the rows in turn what `Take` says |
| `Promo.DrawOrder` | server/ops/promo.js:146-148 | exactly the eligible windows, soonest end first |
| `Promo.DrawTakes` | server/ops/promo.js:145-156 | the draw takes all that is asked for or all there is, and by every deadline as much as could be |
| `Promo.DrawIsOptimal` | server/ops/promo.js:145-156 | for every deadline no other draw of the same size leaves less unspent in windows ending by then |
| `Promo.LapseKeeps` | server/ops/promo.js:49-67 | lapsing keeps promo credit = open windows and reserve = minus all of it, closing ended windows only |
| `Promo.LapseCloses` | server/ops/promo.js:49-67 | every ended window of the person is closed to the last bit and no other row changes |
| `Promo.GrantKeeps` | server/ops/promo.js:73-104 | granting keeps them |
| `Promo.ConsumeKeeps` | server/ops/promo.js:128-166 | a draw keeps every part but that of the ratings under any key, and the whole invariant when its reading is marked |
| `Promo.ConsumeDraws` | server/ops/promo.js:110-166 | a fresh draw is exactly min(wanted, remaining), with ended windows lapsed or not |
| `Repeats.DrawRepeats` | server/ops/promo.js:128-143 | a draw happens once for a reading: asked again it answers what it drew, and for another person or service it is refused |
| `Promo.LapseHidesNothing` | server/ops/promo.js:110-118 | what remains does not depend on whether ended windows were lapsed |
| `Movements.GrantMoves` | server/ops/promo.js:73-104 | promo credit and what remains rise by exactly the grant |
| `Admission.GrantAccepted` | server/ops/promo.js:73-104 | a grant is refused for its size alone, unless a balance leaves the exact integers |
| `Rating.ChargeIsLeast` | server/ops/rating.js:43-63 | the charge is the least whole number not below the exact product of quantity, price, rate and 1 / unit size |
| `Rating.PickCard` | server/ops/rating.js:70-77 | none exactly when no card fits; otherwise a fitting card no other fitting card precedes |
| `Rating.CardPicked` | server/ops/rating.js:70-77 | against any fitting card: the picked one is of the reading's provider, resource, region and day, region-specific before general, then the latest, then the least id |
| `Rating.ChargeBudgets` | server/ops/rating.js:104-132 | both loops do what `SpendBudgets` says |
| `Rating.OpenBudgets` | server/ops/rating.js:108-127 | the first loop opens and checks each window as `CheckBudgets` says |
| `Rating.AddToBudgets` | server/ops/rating.js:128-131 | the second loop adds the charge to every window found |
| `Rating.AttemptReading` | server/ops/rating.js:156-195 | the attempt inside the transaction does what `Attempted` says |
| `Rating.RateReading` | server/ops/rating.js:153-202 | the method does what `Rate` says, a refused attempt rolled back |
| `Rating.SweepReadings` | server/ops/rating.js:208-228 | the sweep does what its steps say |
| `Rating.PutBudget` | server/ops/rating.js:285-300 | the method does what `SetBudget` says |
| `Rows.SetBudgetWrites` | server/ops/rating.js:285-300 | the window open now gets the limit and keeps what it has spent, a new one starts at 0, and no other row changes |
| `Rating.BudgetsHold` | server/ops/rating.js:104-132 | a charge that passes counts once against each open budget it falls under, against no other, and takes none past its limit |
| `Rating.BudgetsDecide` | server/ops/rating.js:104-127 | a charge is refused if and only if it would take the service's open budget or the all-services one past its limit |
| `Rating.OpenRowIs` | server/ops/rating.js:109-122 | the newest row is the policy: its window counts while it lasts, and once it has ended the window open now does, with nothing spent if it is new |
| `Rating.RateBudgets` | server/ops/rating.js:153-202 | whatever a rating does, it changes no limit and takes no budget past its limit |
| `Rating.RatingMoves` | server/ops/rating.js:164-194 | a rated reading: the picked card's charge, drawn from the allowance first, the rest from credit, and the two add up to the charge |
| `Repeats.RatedByTxn` | server/ops/rating.js:164-194 | a rating answers the transaction that paid: its charge, else its draw, else none |
| `Rating.RefusalMovesNothing` | server/ops/rating.js:135-202 | a refused reading leaves everything but its own note as it was, and is due again after the retry time exactly for funds or budget |
| `Admission.RatingAccepted` | server/ops/rating.js:164-194 | a reading that fits a card is rated if and only if the credit holds what the allowance leaves and no open budget is passed, unless a balance leaves the exact integers |
| `Admission.UnratedBecause` | server/ops/rating.js:156-200 | which reason is noted: nobody, no card, the unit, and the funds only when they fall short |
| `Rating.RatedStays` | server/ops/rating.js:153-160 | a mark once made is never changed |
| `Rating.RateKeeps` | server/ops/rating.js:153-202 | rating keeps the invariant |
| `Rating.RateAllKeeps` | server/ops/rating.js:208-228 | a whole sweep keeps the invariant and the budgets and rates each reading at most once |
| `Admission.SweepSettlesBatch` | server/ops/rating.js:208-228 | under the invariant a pass leaves each reading of its batch rated or with its reason, and none makes it fail or stop |
| `Credits.SumHeld` | server/ops/credits.js:145-149 | the sum of the account's open holds |
| `Credits.ReadAvailable` | server/ops/credits.js:152-156 | the balance less the open holds |
| `Credits.OpenHold` | server/ops/credits.js:200-248 | the method does what `CreateHold` says |
| `Credits.GrowHold` | server/ops/credits.js:253-278 | the method does what `ExtendHold` says |
| `Credits.Charge` | server/ops/credits.js:281-299 | the loop computes `ComputeCharge` |
| `Credits.ChargeIsClose` | server/ops/credits.js:281-299 | never below the exact price and less than one nano-dollar a component above it |
| `Credits.SplitCharge` | server/ops/credits.js:347-356 | collected and shortfall add up to the charge, collected capped by the hold and the account's other room |
| `Credits.CloseHold` | server/ops/credits.js:305-395 | the method does what `SettleHold` says; `Reservations.SettleHoldMoves` says what that charges and moves |
| `Credits.DropHold` | server/ops/credits.js:400-419 | the method does what `ReleaseHold` says |
| `Credits.SweepExpired` | server/ops/credits.js:424-436 | the loop does what `SweepHolds` says |
| `Credits.Expired` | server/ops/credits.js:424-436 | exactly the expired open holds are closed and freed |
| `Credits.GrantSandbox` | server/ops/credits.js:441-470 | the method does what `SandboxGrant` says |
| `Credits.CreateHoldKeeps` | server/ops/credits.js:200-248 | a new hold stays within the balance |
| `Reservations.CreateHoldWrites` | server/ops/credits.js:200-248 | the new row holds exactly what is asked on the account asked, for the lease within its bounds, and that much less is available there and nowhere else |
| `Admission.HoldAccepted` | server/ops/credits.js:200-248 | a hold is granted if and only if what is asked is available and the switches allow it |
| `Credits.ExtendHoldKeeps` | server/ops/credits.js:253-278 | an extended hold stays within the balance |
| `Reservations.ExtendHoldWrites` | server/ops/credits.js:253-278 | the hold grows by what is asked and lives a minute at least, and that much less is available |
| `Credits.ReleaseHoldKeeps` | server/ops/credits.js:400-419 | releasing frees the hold, and a repeated release answers the same amount and changes nothing |
| `Reservations.ReleaseHoldWrites` | server/ops/credits.js:400-419 | exactly what was held is available again, and the answer says how much |
| `Reservations.HoldThenRelease` | server/ops/credits.js:200-419 | a hold released at once leaves what is available everywhere as it was |
| `Credits.SweepHoldsKeeps` | server/ops/credits.js:424-436 | expiry only frees |
| `Reservations.SweepHoldsWrites` | server/ops/credits.js:424-436 | exactly the open holds past their lease expire, and the answer counts them |
| `Credits.SettleHoldKeeps` | server/ops/credits.js:305-395 | each hold settles at most once and each settlement's charge is collected plus shortfall |
| `Credits.SettlingMoves` | server/ops/credits.js:347-378 | collected is at most the hold and the other room, the whole charge when that is enough, and the holds stay covered |
| `Reservations.SettleHoldMoves` | server/ops/credits.js:305-395 | BYOK is charged 0 and anything else its exact price rounded up a component; what is collected goes from the account to revenue or the sandbox issuer, the settlement row says the rest, and what the hold reserved beyond it is available again |
| `Admission.SettlementAccepted` | server/ops/credits.js:305-345 | an open hold can be settled whatever the usage, up to what the columns store |
| `Credits.SandboxGrantKeeps` | server/ops/credits.js:441-470 | sandbox grants keep the invariant and the cover |
| `Movements.SandboxMoves` | server/ops/credits.js:441-470 | sandbox Balance comes from its own issuer to the person's or the project's sandbox account |
| `Topups.FeeIsLeast` | server/ops/topups.js:38-40 | the fee is the least whole number of cents not below amount × bps / 10000, and 0 exactly when the amount or the rate is |
| `Rows.StartTopupWrites` | server/ops/topups.js:55-96 | the intent asks for a configured amount plus the least covering fee, and will credit the amount |
| `Rows.StartPurchaseWrites` | server/ops/intents.js:43-91 | the intent asks for the nearest cent of the tier price of the bits |
| `Topups.BeginTopup` | server/ops/topups.js:55-96 | the method does what `StartTopup` says |
| `Topups.BeginPurchase` | server/ops/intents.js:43-91 | the method does what `StartPurchase` says, the price taken from the tiers |
| `Topups.SettlePaidTopup` | server/ops/topups.js:100-149 | the method does what `SettleTopup` says |
| `Topups.SettleTopupKeeps` | server/ops/topups.js:100-149 | a settled top-up keeps the invariant and the cover and adds exactly the intent's amount |
| `Topups.CreditedOnce` | server/ops/topups.js:100-149 | a second event of the payment or a second payment of the intent credits nothing |
| `Movements.TopupMoves` | server/ops/topups.js:100-149 | the cents of the intent are added to the Balance of its person or project, the payment clears, the fee is revenue, and the intent is settled |
| `Admission.TopupAccepted` | server/ops/topups.js:100-149 | skipped while top-ups are closed; otherwise a payment settles if and only if it is the intent's own kind and provider and covers what it asked |
| `Balance.Transfer` | server/ops/balance.js:85-130 | the method does what `Move` says |
| `Balance.PurchaseVibes` | server/ops/balance.js:170-219 | the method does what `BuyVibes` says |
| `Balance.MoveKeeps` | server/ops/balance.js:85-130 | a transfer keeps the invariant and never spends what a hold reserves |
| `Balance.BuyVibesKeeps` | server/ops/balance.js:170-219 | buying Vibes keeps the invariant and never spends what a hold reserves |
| `Balance.BuyVibesMirror` | server/ops/balance.js:206-211 | a transaction fails fx.mirror exactly when it is a purchase of Vibes from a Balance |
| `Movements.MoveMoves` | server/ops/balance.js:85-130 | the amount, at most what is available, goes from the person to the project |
| `Movements.BuyMoves` | server/ops/balance.js:170-219 | the exact price rounded up to a nano-dollar, at most what is available, for exactly the Vibes asked |
| `Admission.TransferAccepted` | server/ops/balance.js:85-130 | a transfer goes through if and only if an admin asks for what is available |
| `Admission.VibesAccepted` | server/ops/balance.js:170-219 | a purchase of Vibes goes through if and only if the amount is in range and its exact price is available |
| `Vibes.OpenCharge` | server/ops/vibes.js:135-182 | the method does what `CreateCharge` says: a known reference replays only with the same amount, description and return address |
| `Rows.CreateChargeWrites` | server/ops/vibes.js:135-182 | a fresh reference appends one pending row of the caller's app and project with everything asked, alive for the lifetime; a known one replays the same request and refuses another |
| `Rows.ChargeAgain` | server/ops/vibes.js:157-166 | the same request again answers the same link and changes nothing; a different one under its reference is refused |
| `Rows.CreateThenPay` | server/ops/vibes.js:135-314 | created and paid, the amount leaves the payer for the wallet of the app's own project, the sandbox pair for a sandbox app, and that app and no other can refund it |
| `Vibes.PayVibes` | server/ops/vibes.js:256-314 | the method does what `PayCharge` says, an expired link closed on the way |
| `Vibes.RefundVibes` | server/ops/vibes.js:196-233 | the method does what `RefundCharge` says |
| `Vibes.CancelVibes` | server/ops/vibes.js:354-373 | the method does what `CancelCharge` says |
| `Vibes.GrantTestVibes` | server/ops/vibes.js:376-403 | the method does what `TestVibes` says |
| `Vibes.SumSpentToday` | server/ops/vibes.js:249-253 | the real paid charges of the last 24 hours |
| `Vibes.LimitHolds` | server/ops/vibes.js:249-289 | the check against the last day is enough for every 24-hour window |
| `Vibes.PayChargeKeeps` | server/ops/vibes.js:256-314 | paying keeps the invariant: the wallet follows the charges and the limit holds |
| `Vibes.RefundChargeKeeps` | server/ops/vibes.js:196-233 | refunding keeps the invariant |
| `Vibes.CancelChargeKeeps` | server/ops/vibes.js:354-373 | cancelling keeps the invariant |
| `Rows.CancelChargeWrites` | server/ops/vibes.js:354-373 | a pending link is cancelled, or expires when its time is over; any other stays as it is |
| `Vibes.PaidOnce` | server/ops/vibes.js:256-314 | a charge moves its amount once; the payer's repeat replays and anyone else is refused |
| `Admission.PaymentAccepted` | server/ops/vibes.js:256-289 | a live pending link is paid if and only if the switches and the day's limit allow it and the payer holds the amount |
| `Admission.PaymentElsewhere` | server/ops/vibes.js:262-275 | any other link answers its own payer, refuses everybody else, and expires past its time |
| `Admission.ChargeRefundAccepted` | server/ops/vibes.js:196-225 | a refund goes through if and only if the app is the link's own and the wallet holds the amount, or it was refunded |
| `Movements.PayChargeMoves` | server/ops/vibes.js:290-306 | the amount goes from the payer to the project, the row marked paid |
| `Movements.RefundChargeMoves` | server/ops/vibes.js:196-233 | the amount goes back and the row is marked refunded |
| `Movements.PayThenRefund` | server/ops/vibes.js:196-314 | paying and refunding leave every balance as it was |
| `Movements.TestVibesMoves` | server/ops/vibes.js:376-403 | test Vibes come from their own issuer to the tester's pocket of the calling app |
| `Providers.StoreDelivery` | server/providers/index.js:56-63 | the method does what `StoreEvent` says: one row an event id |
| `Providers.Apply` | server/providers/index.js:65-88 | the dispatch on the plan does what `ApplyPlan` says |
| `Deliveries.PurchaseDelivered` | server/providers/index.js:65-88 | a purchase plan that settles credits its own subject, or its intent's, with its own payment |
| `Deliveries.TopupDelivered` | server/providers/index.js:65-88 | a top-up plan that settles credits the Balance of its intent |
| `Deliveries.TipDelivered` | server/providers/index.js:65-88 | a tip plan that settles pays its receiver from its payer's payment |
| `Deliveries.PeriodDelivered` | server/providers/index.js:65-88 | a period plan that settles grants its subscriber its streamer, with the tier, price and end it names, and the streamer the share of its payment less its fee |
| `Deliveries.ReversalDelivered` | server/providers/index.js:65-88 | a reversal plan that settles returns the asked cents of the payment it names, as the kind it is |
| `Deliveries.OthersDelivered` | server/providers/index.js:65-88 | plans without money: an ended subscription is cancelled, the rest change nothing |
| `Providers.ProcessEvent` | server/providers/index.js:91-120 | the method does what `Process` says: settled, rejected on a refusal, left pending on a failure or a freeze |
| `Deliveries.ProcessWrites` | server/providers/index.js:91-120 | one attempt is counted on the event and no other; it ends with the plan's effect, rejected on a refusal, or pending with the store untouched |
| `Providers.ProcessAll` | server/providers/index.js:123-133 | the loop drains the pending events in order, counts the processed ones, and keeps the invariant and event settlement |
| `Deliveries.PassTries` | server/providers/index.js:123-133 | a pass tries exactly the first pending events in the order they came, each once |
| `Deliveries.PassCounts` | server/providers/index.js:123-133 | and counts those of them that end processed |
| `Providers.RetryEvent` | server/providers/index.js:136-147 | the method does what `Reprocess` says |
| `Deliveries.ReprocessExactly` | server/providers/index.js:136-147 | an event can be retried if and only if it is pending, rejected, empty or an external receipt nobody was told of |
| `Providers.PendingIds` | server/providers/index.js:125-127 | exactly the unprocessed events, each once |
| `Providers.ProcessKeeps` | server/providers/index.js:91-120 | processing any event keeps the invariant and event settlement |
| `Providers.StoreKeeps` | server/providers/index.js:56-63 | storing keeps them, repeats included |
| `Providers.ReprocessKeeps` | server/providers/index.js:136-147 | retrying keeps them |
| `Providers.SettledOwnsOne` | server/reconcile.js:74-78 | an event is settled exactly when a transaction points at it, and never two do |
| `Providers.SettledStays` | server/providers/index.js:91-147 | a settled event never changes again and cannot be retried |
| `Draining.DrainPays` | server/providers/index.js:123-133 | a drain of any events (payments, reversals, events that post nothing or on which the adapter fails) settles the payments settled before and those whose own plan is good, no other |
| `Draining.AnyOrderPays` | server/providers/index.js:91-133 | when the reading of an event does not depend on the tables and no two different payments share an intent, every order of draining settles the same payments, reversals among them or not |
| `Effects.ClawCoversExactly` | server/ops/reversals.js:83-91 | a top-up reversal keeps the holds covered if and only if what it leaves covers the holds on that account |
| `Effects.RefundUncoversHold` | server/ops/reversals.js:83-84 | a cent topped up, held and refunded leaves a hold on an empty Balance |
| `Effects.ReverseCovered` | server/ops/reversals.js:34-147 | a reversal where no hold is open keeps the cover |
| `Importer.OpenOne` | server/importer/live.js:292-322 | releasing and adjusting one user does what `OpenUser` says |
| `Importer.ReleaseHeld` | server/importer/live.js:298-304 | the loop over the held accounts does what `Release` says |
| `Importer.AdjustAccounts` | server/importer/live.js:308-322 | the loop over the opening accounts does what `Adjust` says |
| `Importer.RunImport` | server/importer/live.js:229-334 | the whole run does what `ImportLive` says, a failure rolled back |
| `Importer.ImportConverges` | server/importer/live.js:244-322 | after a run every opened user's imported credit and payable equal Live's rounded columns, released holds are zero, and no native value moved |
| `Importer.HistoryReplaysLive` | server/importer/live.js:244-290 | a completed row of Live, or a cashout in escrow, is replayed as it moved there; every other row moves nothing |
| `Importer.SecondRunIsIdle` | server/importer/live.js:244-322 | a second run over the same snapshot posts nothing |
| `Importer.HoldsCarryImportedOnly` | server/importer/live.js:292-322 | hold and account together keep Billing's own value if and only if the hold carried imported value only |
| `Importer.NativeOnHoldIsLost` | server/importer/live.js:292-322 | for every amount: credit that Billing itself put on the hold of a Live user is taken off the hold by a run and reaches the adjustment account, not the user |
| `Idempotency.WriteUnique` | server/api/idempotency.js:20-24 | two canonical texts that agree, each followed by something that ends a value, are of the same value |
| `Idempotency.QuotedReads` | server/api/idempotency.js:20-24 | a quoted string reads back whatever follows it |
| `Idempotency.SortedSame` | server/api/idempotency.js:20-24 | sorting object names forgets exactly their order |
| `Idempotency.StableIsCanonical` | server/api/idempotency.js:20-24 | stable(a) = stable(b) if and only if a and b are equal up to the order of object names |
| `Idempotency.RequestTextIsUnique` | server/api/idempotency.js:33 | the hashed text is the same exactly for the same method, path and body up to the order of names |
| `Idempotency.ScopedTextUnique` | server/api/idempotency.js:32 | two pairs of principal and key are stored under one text exactly when they are equal, or one principal goes on after the other and a colon and the other's key starts with what it goes on with |
| `Idempotency.ScopesOverlap` | server/api/idempotency.js:18-32 | two principals share a text, with keys of the accepted form, exactly when one is the other, a colon, and at most 191 key characters |
| `Idempotency.KeyStore.Begin` | server/api/idempotency.js:26-41 | require a well-formed key, then replay, refuse or run, as the row stored under principal and key says |
| `Idempotency.KeyStore.Finish` | server/api/idempotency.js:42-52 | a success is stored under its key, the first one for good; a refusal stores nothing |
| `Idempotency.ReplayRule` | server/api/idempotency.js:33-52 | a fresh key runs and a malformed one is refused; after the first success under a key, whatever is answered since, the same request gets that response and any other is refused |
| `Idempotency.OthersStayApart` | server/api/idempotency.js:32-52 | what principals whose names do not go on from one another with a colon store never appears under a principal's keys |
| `Reconcile.RunChecks` | server/reconcile.js:43-135 | the checks pushed one by one are the report, and the books balance exactly when all of them hold |
| `Reconcile.CacheCheck` | server/reconcile.js:56-60 | the cache check over existing accounts is cache = sum of entries for every account |
| `Reconcile.MirrorsPass` | server/reconcile.js:62-72 | fx.mirror holds if and only if no Vibes were bought from a Balance |
| `Reconcile.ReportIsClean` | server/reconcile.js:43-135 | under the invariant every check holds, fx.mirror exactly when no Vibes were bought from a Balance |
| `Reconcile.ReportCatches` | server/reconcile.js:43-135 | the report is clean if and only if the tables are, each check written out on the journal and the rows |
| `Runs.ExecGood` | server/ledger.js:175-178 | one step of any operation keeps the invariant and event settlement |
| `Runs.RunGood` | server/ledger.js:175-178 | so does every run |
| `Runs.EveryRunReconciles` | server/reconcile.js:43-135 | every reachable state passes the reconciliation and has no credit, payable or escrow below zero |
| `Runs.EveryRunStaysExact` | server/ledger.js:147-158 | every balance in every reachable state is an exact integer of its column |
| `Repeats.CommandsRepeat` | server/ledger.js:96-104 | every operation under a key, a receipt, a reference or an event id, sent twice, does what it does sent once |
| `Runs.EveryRunChainsPeriods` | server/ops/subscriptions.js:146-183 | unrevoked periods never overlap, the end is the latest of them, past due has its grace from that end |
| `Runs.EveryRunRenewsOnce` | server/ops/subscriptions.js:275-284 | at most one renewal charge stands for a subscription and period end |
| `Runs.EveryRunTelescopes` | server/ops/reversals.js:26-97 | what reversals undid is the rounded share of the cents returned, all of it at the end |
| `Runs.EveryRunKeepsAllowances` | server/ops/promo.js:49-166 | promo credit is what the windows hold open, the reserve minus all of it, used + expired at most granted |
| `Runs.EveryRunLimitsVibes` | server/ops/vibes.js:196-314 | every 24-hour window stays in the limit, wallets equal paid charges less cashouts, and a charge's status says which of its two keys are in the journal: it moved once each way |
| `RatingRuns.RunRates` | server/ops/rating.js:153-228 | over any run a rated reading keeps its row, and without a budget change no budget is taken past its limit |
| `RatingRuns.EveryRunRatesOnce` | server/ops/rating.js:153-228 | a reading rated in a reachable state is the same row in every later state of the run, its draw and its charge adding up to its price; over a stretch with no budget set every budget keeps its limit and is not taken past it |
| `Runs.EveryRunSettlesOnce` | server/providers/index.js:56-147 | each receipt reference settles at most once and each settled event owns exactly one transaction |
| `Runs.EveryRunCoversHolds` | server/ops/credits.js:145-156 | over every run in which no reversal of a top-up is processed while a hold is open on the account it claws from, holds never exceed the balance they reserve |

## Left out

- `admin.adjust`: an operator override that skips the funds checks on purpose; the runs have no such step.
- HTTP routes, authentication, rate limits, console views, statements, statistics, activity and metrics.
- Provider adapters: signature checks and payload parsing. An adapter is a function of the stored event, the subscriptions and the intents to a plan, or a failure.
- Draining.AnyOrderPays: two drained payments with one intent are the same payment, and so are the payment a reversal returns and any drained payment with its intent; otherwise the first of the two decides the other by the order.
- Draining.DrainPays: asks in addition that an event is read without the subscriptions and intents tables, and that no balance leaves the exact integers at its turn, since both depend on what came before.
- Effects.ReverseCovered: asks that no hold is open on the account; `Effects.ClawCoversExactly` is the exact condition.
- Cashouts.ApproveKeeps: asks for an unused key while the cashout waits, as `Cashouts.DenyKeeps` does; `Cashouts.ApproveUnderUsedKey` and `Cashouts.DenyUnderUsedKey` say what happens otherwise.
- Reversals.NoticesCommute: asks that no notice of the run is refused (a balance out of the exact integers, a payment that cannot be reversed).
- The freeze switch is read where the modelled operations read it themselves; the route-level refusals are not part of this model.
- Providers.Apply: the external receipts' own table, its announcements and the `receipts.external` check; the effect recorded on the event is modelled.
- Importer.OpenOne: the subject of imported cashout rows and the `import_holds` rows are not updated; the journal part is modelled.
- Importer.RunImport: the importer's intents, receipts, cashout rows, subscriptions, provider accounts and the `import_holds` table; the journal part (history and opening balances) is modelled, on a ledger of its own and not as a step of `Runs`.
- Hosted checkout calls, the provider references they return and the intent status `failed`; the refusal of intents that were settled in Live.
- Tier price lists of creators: a period's list price is an argument (`FromCredit.listPrice`), a receipt's quoted price is part of the plan.
- Loading and parsing rate cards, and the normalisation of unit names (`Config.unitFits` stands for it).
- Calendar arithmetic of days and months: `Config.windowOf` is any partition of time into windows.
- The `test` mark of transactions and its totals, the transaction `status`, the actor, free-text reasons and other details kept as metadata.
- The validation and normal form of a charge's return address, and the address of its payment page.
- The outbox, webhooks and payer references: they are written in the same transaction and read by nobody in the model.
- Hashes: a text stands for its hash, so equal hashes are equal texts. A journal key given by a caller is one value, not the text `api:<principal>:<key>`; `Idempotency.ScopesOverlap` says when that text names one pair.
- Floating point: tier prices, the 1e-9 guard of `bitsForPriceCents` and pro-rata quotients are exact rationals.
- JSON numbers in `stable`: a number is its printed text; `undefined` inside objects is not modelled.
- Debts of reversed top-ups: the debt account and the amounts are modelled, the `credit_topup_debts` row is not.
- Fields of a hold and a settlement that only describe it (credential, service, usage, attempts), and the `free_allowance_used` of a reading.
- SKIP LOCKED and row locks: each operation is one atomic step, so a reading is never found busy.
- The `subscription not found` guard of a sweep that races a deletion: rows are never deleted.
- Sweep reports and counters; rows with equal order keys are taken in the order of their ids.
- Reconcile.RunChecks: each check evaluates its condition on the state as a whole, not the query that finds the offending rows; stale receipts, review lists and the totals reported beside the checks are not part of this model.
