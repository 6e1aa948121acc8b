/**
 * The rows of the store: one record type a table, with the row number as its id.
 * Addresses, idempotency keys and receipt references are constructors rather than
 * formatted text, so two of them are equal exactly when they name the same thing.
 */
module Schema {
  import opened Basics

  type Subject = nat
  type Millis = int

  datatype Provider = Powerchat | Stripe | Paypal | Ccbill | Nowpayments
  datatype Currency = Bits | Cents | Nano

  datatype Kind =
    | UserCredit | CreatorPayable | ProjectPayable | PayoutsPending
    | ProviderClearing | PlatformRevenue | Refunds | ChargebackLoss | FxConversion | ImportAdjustment
    | PromoCredit | PromoReserve
    | UsdCredit | UsdCreditSandbox | CreditTopupDebt
    | VibesCreditSandbox | ProjectPayableSandbox | VibesSandbox

  datatype Owner =
    | Platform
    | Person(id: nat)
    | ProjectOf(project: nat)
    | Gateway(provider: Provider)
    | PayoutsOf(payouts: Provider)
    | LiveHold(live: nat)
    | LiveLegacy
    | SandboxPerson(app: nat, tester: nat)
    | SandboxProject(owningApp: nat, sandboxed: nat)

  datatype Account = Account(kind: Kind, owner: Owner, currency: Currency)
  datatype Entry = Entry(account: Account, amount: int)

  datatype ImportColumn = CreditColumn | PayableColumn | PendingColumn

  datatype Key =
    | Api(id: nat)
    | Delivered(event: nat)
    | Renewal(sub: nat, end: Millis, attempt: nat)
    | PromoGrantKey(grant: nat)
    | PromoDrawKey(reading: nat)
    | PromoLapseKey(allowance: nat)
    | UsageKey(rated: nat)
    | ChargePaidKey(charge: nat)
    | ChargeRefundKey(refunded: nat)
    | SettleKey(settlement: nat)
    | SandboxGrantKey(sandboxGrant: nat)
    | VibesGrantKey(vibesGrant: nat)
    | BalanceTransferKey(transfer: nat)
    | BalanceVibesKey(purchase: nat)
    | LiveTxnKey(liveTxn: nat)
    | ReleaseKey(run: nat, liveUser: nat, column: ImportColumn)
    | OpeningKey(importRun: nat, owner: Owner, opening: ImportColumn)

  datatype ReceiptRef =
    | Payment(provider: Provider, payment: nat)
    | Reversal(gateway: Provider, reversal: nat)
    | Payout(through: Provider, payout: nat)

  datatype TxnType =
    | Purchase | Donation | Subscription | CashoutRequest | CashoutPaid | CashoutDenied | Recycle
    | Refund | Chargeback | Adjustment | Import | Usage | Credit | BalanceTransfer | VibesCharge | VibesRefund | VibesGrant

  /** What a transaction's metadata records beside its entries. */
  datatype Meta =
    | NoMeta
    | PurchaseMeta(paidCents: int, bits: int, intent: Option<nat>)
    | TipMeta(paidCents: int, tippedBits: int)
    | GiftMeta(amountBits: int)
    | CreditPeriodMeta(costBits: int, shareBits: int, intent: Option<nat>)
    | ReceiptPeriodMeta(paidCents: int, receiptShareBits: int, intent: Option<nat>)
    | TopupMeta(paidCents: int, amountNano: int, project: Option<nat>, intent: Option<nat>)
    | ReversalMeta(cents: int, bitsReversed: int, clawedBits: int)
    | TopupReversalMeta(cents: int, clawedNano: int, debtNano: int)
    | GiftRefundMeta(refundedBits: int)
    | PeriodRefundMeta(bitsRefunded: int, clawedShare: int)
    | CashoutMeta(cashedBits: int, cashedProject: Option<nat>)
    | PromoMeta(promoBits: int, service: nat)
    | BalanceMeta(moved: int, toProject: Option<nat>)

  datatype Txn = Txn(
    ty: TxnType, key: Key, entries: seq<Entry>, reverses: Option<nat>,
    from: Option<Subject>, to: Option<Subject>, provider: Option<Owner>,
    receipt: Option<ReceiptRef>, source: Option<nat>, meta: Meta, bitsPerUsd: int)

  datatype IntentKind = PurchaseIntent | TopupIntent
  datatype IntentStatus = IntentCreated | IntentSettled | IntentRefunded
  datatype Intent = Intent(
    kind: IntentKind, provider: Provider, subject: Subject, amountCents: int, bits: int,
    status: IntentStatus, settledTxn: Option<nat>, topupCents: int, project: Option<nat>)

  datatype CashoutStatus = Requested | Paid | Denied
  datatype Cashout = Cashout(
    subject: Subject, project: Option<nat>, amount: int, valueCents: int, status: CashoutStatus,
    escrowUntil: Millis, requestTxn: nat, settleTxn: Option<nat>, payoutRef: Option<nat>)

  datatype SubStatus = Active | PastDue | Canceled | Expired
  datatype Sub = Sub(
    subscriber: Subject, streamer: Subject, tier: nat, byProvider: Option<Provider>, status: SubStatus,
    autoRenew: bool, cancelAtEnd: bool, priceCents: int, periodEnd: Millis, graceUntil: Option<Millis>)

  datatype RevokeReason = ForRefund | ForChargeback
  datatype Period = Period(
    subject: Subject, scope: Subject, sub: nat, start: Millis, end: Millis,
    sourceTxn: nat, revoked: Option<RevokeReason>)

  datatype ResetPeriod = Daily | Monthly | Never
  datatype Window = Window(start: Millis, end: Millis)
  datatype Allowance = Allowance(
    subject: Subject, service: nat, reset: ResetPeriod, granted: int, used: int, expired: int,
    start: Millis, end: Millis)

  datatype Budget = Budget(
    subject: Subject, service: nat, reset: ResetPeriod, budget: int, spent: int,
    start: Millis, end: Millis, updated: Millis)

  datatype Effect = Settled | DuplicateReceipt | Updated | ExternalReceipt(announced: bool) | NoEffect | Rejected
  datatype Event = Event(provider: Provider, eventId: nat, payload: nat, effect: Option<Effect>, attempts: nat)

  datatype ChargeStatus = Pending | ChargePaid | ChargeRefunded | Cancelled | ChargeExpired
  datatype Charge = Charge(
    app: nat, project: nat, amount: int, reference: nat, description: nat, returnUrl: Option<nat>, sandbox: bool,
    expiresAt: Millis, status: ChargeStatus, payer: Option<Subject>, paidAt: Millis)

  datatype HoldStatus = HoldActive | HoldExtended | HoldSettled | HoldReleased | HoldExpired
  datatype Hold = Hold(
    account: Account, held: int, max: int, key: nat, fingerprint: nat, lease: Millis, status: HoldStatus)
  datatype Settlement = Settlement(
    hold: nat, key: nat, charge: int, collected: int, released: int, shortfall: int, txn: nat)

  /** A non-negative decimal: `digits` times ten to the `exp`, as `frac` reads a JS number. */
  datatype Decimal = Decimal(digits: nat, exp: int)
  datatype Card = Card(
    id: nat, provider: nat, metric: nat, region: Option<nat>, from: int, until: Option<int>,
    unitSize: Decimal, unitPrice: Decimal)
  datatype Rated = Rated(promoBits: int, charged: int, gross: int)
  datatype Reading = Reading(
    subject: Option<Subject>, service: nat, provider: nat, resource: nat, unit: nat, region: Option<nat>, at: Millis, day: int,
    quantity: Decimal, rated: Option<Rated>, error: Option<Error>, due: Option<Millis>)

  /** Why an operation is refused. The first three are not refusals but failures (status 500). */
  datatype Error =
    | Unbalanced | UniqueViolation | CheckViolation
    | AmountOverflow | InsufficientFunds | InvalidAmount | InvalidInput | Overcredit | SelfDealing | NotFound
    | NotRefundable | NotReversible | AlreadyReversed | IntentMismatch | Underpaid | TierChange | TierUnknown
    | KeyReused | NotPending | EscrowActive | HoldTerminal | BudgetExceeded | LimitExceeded | NotPaid
    | EconomyFrozen | EventAlreadySettled | NoSubject | NoRateCard | UnitMismatch | NotEnabled | ReferenceReused

  predicate IsRefusal(e: Error) { e != Unbalanced && e != UniqueViolation && e != CheckViolation }

  /** What a sweep read before it charges: the row and the renewal key it computed for it. */
  datatype SweepRead = SweepRead(sub: nat, row: Sub, attempt: nat)

  datatype Ledger = Ledger(journal: seq<Txn>, balances: map<Account, int>)

  /** The whole store between two operations. */
  datatype State = State(
    clock: Millis, frozen: bool, ledger: Ledger, intents: seq<Intent>, cashouts: seq<Cashout>,
    subs: seq<Sub>, periods: seq<Period>, sweeps: set<SweepRead>,
    allowances: seq<Allowance>, budgets: seq<Budget>, readings: seq<Reading>,
    events: seq<Event>, charges: seq<Charge>, holds: seq<Hold>, settlements: seq<Settlement>)

  const EMPTY := State(0, false, Ledger([], map[]), [], [], [], [], {}, [], [], [], [], [], [], [])
}
