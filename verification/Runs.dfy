/**
 * Every run of the operations: one step a command, an error leaving the state as it was. From the
 * empty store each reachable state keeps the invariant, passes the reconciliation and covers its holds.
 */
module Runs {
  import opened Basics
  import opened Schema
  import opened Journal
  import opened Rates
  import opened Common
  import opened Invariants
  import opened Purchases
  import opened Topups
  import opened Transfers
  import opened Cashouts
  import opened Subscriptions
  import opened Reversals
  import opened Promo
  import opened Rating
  import opened Credits
  import opened Balance
  import opened Vibes
  import opened Providers
  import opened Growth
  import opened Effects
  import opened Reconcile

  datatype MoneyCommand =
    | StartTopupC(start: StartArgs) | StartPackC(pack: PackArgs)
    | SettleC(settle: SettleArgs) | TopupC(topup: TopupArgs) | TipC(tip: TipArgs)
    | GiveC(gift: GiftArgs) | RefundGiftC(giftRefund: GiftRefundArgs)
    | RequestC(request: CashoutArgs) | ApproveC(approve: ApproveArgs) | DenyC(deny: DenyArgs) | RecycleC(recycle: RecycleArgs)
    | ReverseC(reverse: ReverseArgs)

  datatype SubsCommand =
    | PayC(pay: PayArgs) | CancelC(cancel: nat) | SweepC(swept: nat) | ReadDueC(due: nat) | ChargeReadC(read: SweepRead)
    | RefundPeriodC(periodRefund: PeriodRefundArgs)

  datatype UsageCommand =
    | GrantC(grant: GrantArgs) | ReadingC(reading: Reading) | RateC(cards: seq<Card>, rated: nat) | BudgetC(budget: BudgetArgs)

  datatype HoldCommand =
    | CreateHoldC(hold: HoldArgs) | ExtendHoldC(extended: nat, add: int) | SettleHoldC(settleHold: SettleHoldArgs)
    | ReleaseHoldC(released: nat) | SweepHoldsC | SandboxC(sandbox: SandboxArgs) | MoveC(move: MoveArgs) | BuyVibesC(buy: BuyArgs)

  datatype VibesCommand =
    | CreateChargeC(charge: ChargeArgs) | PayChargeC(paid: nat, payer: Subject) | RefundChargeC(refunded: nat, app: nat)
    | CancelChargeC(closed: nat) | TestVibesC(test: TestVibesArgs)

  datatype FeedCommand =
    | StoreC(provider: Provider, eventId: nat, payload: nat) | ProcessC(event: nat) | ReprocessC(retried: nat)

  datatype Command =
    | Tick(now: Millis)
    | Freeze(on: bool)
    | Money(money: MoneyCommand)
    | Subs(subs: SubsCommand)
    | Usage(usage: UsageCommand)
    | Holds(holds: HoldCommand)
    | Pay(vibes: VibesCommand)
    | Feed(feed: FeedCommand)

  /** An error leaves the state as it was. */
  function After<T>(s: State, step: Step<T>): State { if step.Done? then step.state else s }

  function ExecMoney(cfg: Config, s: State, c: MoneyCommand): State
    requires Valid(cfg)
  {
    match c
    case StartTopupC(a) => After(s, StartTopup(cfg, s, a))
    case StartPackC(a) => After(s, StartPurchase(cfg, s, a))
    case SettleC(a) => After(s, Settle(cfg, s, a))
    case TopupC(a) => After(s, SettleTopup(cfg, s, a))
    case TipC(a) => After(s, TipFromReceipt(cfg, s, a))
    case GiveC(a) => After(s, Give(cfg, s, a))
    case RefundGiftC(a) => After(s, RefundGift(s, a))
    case RequestC(a) => After(s, Request(cfg, s, a))
    case ApproveC(a) => After(s, Approve(cfg, s, a))
    case DenyC(a) => After(s, Deny(s, a))
    case RecycleC(a) => After(s, RecyclePayable(cfg, s, a))
    case ReverseC(a) => After(s, Reverse(cfg, s, a))
  }

  function ExecSubs(cfg: Config, s: State, c: SubsCommand): State
    requires Valid(cfg)
  {
    match c
    case PayC(a) => After(s, Subscriptions.Pay(cfg, s, a))
    case CancelC(i) => After(s, Subscriptions.Cancel(s, i))
    case SweepC(i) => if i < |s.subs| && Subscriptions.IsDue(s.subs[i], s.clock) then After(s, SweepOne(cfg, s, i, s.subs[i])) else s
    case ReadDueC(i) => After(s, ReadDue(s, i))
    case ChargeReadC(read) => After(s, ChargeRead(cfg, s, read))
    case RefundPeriodC(a) => After(s, RefundPeriod(cfg, s, a))
  }

  /** A usage reading as it is stored: unrated and due at once. */
  function StoreReading(s: State, r: Reading): State
  {
    s.(readings := s.readings + [r.(rated := None, error := None, due := Some(s.clock))])
  }

  function ExecUsage(cfg: Config, s: State, c: UsageCommand): State
    requires Valid(cfg)
  {
    match c
    case GrantC(a) => After(s, Grant(cfg, s, a))
    case ReadingC(r) => StoreReading(s, r)
    case RateC(cards, id) => After(s, Rate(cfg, s, cards, id))
    case BudgetC(a) => After(s, SetBudget(cfg, s, a))
  }

  function ExecHolds(cfg: Config, s: State, c: HoldCommand): State
    requires Valid(cfg)
  {
    match c
    case CreateHoldC(a) => After(s, CreateHold(cfg, s, a))
    case ExtendHoldC(i, add) => After(s, ExtendHold(cfg, s, i, add))
    case SettleHoldC(a) => After(s, SettleHold(cfg, s, a))
    case ReleaseHoldC(i) => After(s, ReleaseHold(cfg, s, i))
    case SweepHoldsC => After(s, SweepHolds(cfg, s))
    case SandboxC(a) => After(s, SandboxGrant(cfg, s, a))
    case MoveC(a) => After(s, Move(cfg, s, a))
    case BuyVibesC(a) => After(s, BuyVibes(cfg, s, a))
  }

  function ExecVibes(cfg: Config, s: State, c: VibesCommand): State
  {
    match c
    case CreateChargeC(a) => After(s, CreateCharge(cfg, s, a))
    case PayChargeC(i, p) => After(s, PayCharge(cfg, s, i, p))
    case RefundChargeC(i, app) => After(s, RefundCharge(cfg, s, i, app))
    case CancelChargeC(i) => After(s, CancelCharge(s, i))
    case TestVibesC(a) => After(s, TestVibes(cfg, s, a))
  }

  function ExecFeed(cfg: Config, adapter: Adapter, s: State, c: FeedCommand): State
    requires Valid(cfg)
  {
    match c
    case StoreC(p, id, payload) => After(s, StoreEvent(s, p, id, payload))
    case ProcessC(e) => Process(cfg, adapter, s, e)
    case ReprocessC(e) => After(s, Reprocess(cfg, adapter, s, e))
  }

  function Exec(cfg: Config, adapter: Adapter, s: State, c: Command): State
    requires Valid(cfg)
  {
    match c
    case Tick(now) => if now >= s.clock then s.(clock := now) else s
    case Freeze(on) => s.(frozen := on)
    case Money(m) => ExecMoney(cfg, s, m)
    case Subs(m) => ExecSubs(cfg, s, m)
    case Usage(m) => ExecUsage(cfg, s, m)
    case Holds(m) => ExecHolds(cfg, s, m)
    case Pay(m) => ExecVibes(cfg, s, m)
    case Feed(m) => ExecFeed(cfg, adapter, s, m)
  }

  // ------------------------------------------------------------------ what callers promise

  /** A caller's own idempotency key, not a delivery's and not one an operation derives. */
  predicate CallerKey(k: Key) { k.Api? }

  /**
   * A caller's key names one operation only. It matters where a posting's replay is not noticed: a
   * cashout that still waits is approved or denied under an unused key. A retry finds it settled.
   */
  ghost predicate MoneyAllowed(s: State, c: MoneyCommand)
  {
    match c
    case SettleC(a) => CallerKey(a.key) && a.source.None?
    case TipC(a) => CallerKey(a.key) && a.source.None?
    case ApproveC(a) => CallerKey(a.key) && (FindKey(s.ledger.journal, a.key).None? || !Awaits(s, a.cashout))
    case DenyC(a) => CallerKey(a.key) && (FindKey(s.ledger.journal, a.key).None? || !Awaits(s, a.cashout))
    case TopupC(a) => CallerKey(a.key) && a.source.None?
    case GiveC(a) => CallerKey(a.key)
    case RefundGiftC(a) => CallerKey(a.key)
    case RequestC(a) => CallerKey(a.key)
    case RecycleC(a) => CallerKey(a.key)
    case ReverseC(a) => CallerKey(a.key) && a.source.None? && (a.reversal.Some? ==> a.reversal.value.Reversal?)
    case _ => true
  }

  ghost predicate SubsAllowed(s: State, c: SubsCommand)
  {
    match c
    case PayC(a) => CallerKey(a.key) && a.source.None?
    case ChargeReadC(read) => read in s.sweeps
    case RefundPeriodC(a) => CallerKey(a.key)
    case _ => true
  }

  ghost predicate Allowed(s: State, c: Command)
  {
    match c
    case Money(m) => MoneyAllowed(s, m)
    case Subs(m) => SubsAllowed(s, m)
    case _ => true
  }

  /** What every reachable state satisfies. */
  ghost predicate Good(cfg: Config, s: State)
  {
    Inv(cfg, s) && EventsOk(s)
  }

  // ------------------------------------------------------------------ one command

  lemma GrownGood(cfg: Config, s: State, s': State)
    requires EventsOk(s) && Inv(cfg, s') && Grows(s, s')
    ensures Good(cfg, s')
  {
    hide Inv, EventsOk, Grows;
    GrowsKeepsEvents(s, s');
  }

  lemma UnpostedGrows(s: State, s': State)
    requires s'.ledger == s.ledger && s'.events == s.events && s'.frozen == s.frozen
    ensures Grows(s, s')
    ensures s'.holds == s.holds ==> Quiet(s, s')
  {
  }

  lemma InvParts(cfg: Config, s: State)
    requires Inv(cfg, s)
    ensures JournalOk(cfg, s.ledger) && Books(s.ledger) && HoldRowsOk(s) && IntentsOk(s) && TotalsOk(s.ledger)
  {
    BooksOf(cfg, s.ledger);
  }

  lemma MoneyGood(cfg: Config, s: State, c: MoneyCommand)
    requires Valid(cfg) && Good(cfg, s) && MoneyAllowed(s, c)
    ensures Good(cfg, ExecMoney(cfg, s, c)) && Grows(s, ExecMoney(cfg, s, c))
  {
    hide Inv, EventsOk, Grows, Quiet, Books, JournalOk, HoldRowsOk, IntentsOk, TotalsOk, Partition, ValidTiers, FindKey,
         Settle, SettleTopup, TipFromReceipt, Give, RefundGift, Request, Approve, Deny, RecyclePayable, Reverse;
    InvParts(cfg, s);
    SameIsLocal(s);
    var s' := ExecMoney(cfg, s, c);
    match c {
      case StartTopupC(a) => if StartTopup(cfg, s, a).Done? { StartTopupKeeps(cfg, s, a); UnpostedGrows(s, s'); }
      case StartPackC(a) => if StartPurchase(cfg, s, a).Done? { StartPurchaseKeeps(cfg, s, a); UnpostedGrows(s, s'); }
      case SettleC(a) => if Settle(cfg, s, a).Done? { SettleKeeps(cfg, s, a); SettleGrowing(cfg, s, a); }
      case TopupC(a) => if SettleTopup(cfg, s, a).Done? { SettleTopupKeeps(cfg, s, a); TopupGrowing(cfg, s, a); }
      case TipC(a) => if TipFromReceipt(cfg, s, a).Done? { TipKeeps(cfg, s, a); TipGrowing(cfg, s, a); }
      case GiveC(a) => if Give(cfg, s, a).Done? { GiveKeeps(cfg, s, a); GiveLocal(cfg, s, a); }
      case RefundGiftC(a) => if RefundGift(s, a).Done? { RefundGiftKeeps(cfg, s, a); RefundGiftLocal(s, a); }
      case RequestC(a) => if Request(cfg, s, a).Done? { RequestKeeps(cfg, s, a); RequestLocal(cfg, s, a); }
      case ApproveC(a) => if Approve(cfg, s, a).Done? { ApproveKeeps(cfg, s, a); ApproveLocal(cfg, s, a); }
      case DenyC(a) => if Deny(s, a).Done? { DenyKeeps(cfg, s, a); DenyLocal(s, a); }
      case RecycleC(a) => if RecyclePayable(cfg, s, a).Done? { RecycleKeeps(cfg, s, a); RecycleLocal(cfg, s, a); }
      case ReverseC(a) => if Reverse(cfg, s, a).Done? { ReverseKeeps(cfg, s, a); ReverseGrowing(cfg, s, a); }
    }
    GrownGood(cfg, s, s');
  }

  lemma SettleGrowing(cfg: Config, s: State, a: SettleArgs)
    requires Valid(cfg) && JournalOk(cfg, s.ledger) && a.source.None? && Settle(cfg, s, a).Done?
    ensures Grows(s, Settle(cfg, s, a).state)
  {
    hide Settle, JournalOk, Partition, ValidTiers, FindKey, Grows;
    SameIsLocal(s);
    var r := Settle(cfg, s, a);
    if FindKey(s.ledger.journal, a.key).Some? {
      SettleKnown(cfg, s, a);
      UnpostedGrows(s, r.state);
      return;
    }
    SettleGrows(cfg, s, a);
    if !r.value.replay { AddsOneGrows(s, r.state, Some(Gateway(a.provider)), Some(Payment(a.provider, a.payment))); }
  }

  lemma TopupGrowing(cfg: Config, s: State, a: TopupArgs)
    requires Valid(cfg) && JournalOk(cfg, s.ledger) && a.source.None? && SettleTopup(cfg, s, a).Done?
    ensures Grows(s, SettleTopup(cfg, s, a).state)
  {
    hide SettleTopup, JournalOk, Partition, ValidTiers, Grows;
    SameIsLocal(s);
    TopupGrows(cfg, s, a);
    var r := SettleTopup(cfg, s, a);
    if r.value.Credited? && !r.value.replay { AddsOneGrows(s, r.state, Some(Gateway(a.provider)), Some(Payment(a.provider, a.payment))); }
  }

  lemma TipGrowing(cfg: Config, s: State, a: TipArgs)
    requires Valid(cfg) && JournalOk(cfg, s.ledger) && a.source.None? && TipFromReceipt(cfg, s, a).Done?
    ensures Grows(s, TipFromReceipt(cfg, s, a).state)
  {
    hide TipFromReceipt, JournalOk, Partition, ValidTiers, FindKey, Grows;
    SameIsLocal(s);
    var r := TipFromReceipt(cfg, s, a);
    if FindKey(s.ledger.journal, a.key).Some? {
      TipKnown(cfg, s, a);
      return;
    }
    TipGrows(cfg, s, a);
    if !r.value.replay { AddsOneGrows(s, r.state, Some(Gateway(a.provider)), Some(Payment(a.provider, a.payment))); }
  }

  lemma SubsGood(cfg: Config, s: State, c: SubsCommand)
    requires Valid(cfg) && Good(cfg, s) && SubsAllowed(s, c)
    ensures Good(cfg, ExecSubs(cfg, s, c)) && Grows(s, ExecSubs(cfg, s, c)) && Quiet(s, ExecSubs(cfg, s, c))
  {
    hide Inv, EventsOk, Grows, Quiet, Books, JournalOk, HoldRowsOk, IntentsOk, TotalsOk, Partition, ValidTiers,
         Subscriptions.Pay, SweepOne, RefundPeriod, Attempt, RowOk;
    InvParts(cfg, s);
    SameIsLocal(s);
    var s' := ExecSubs(cfg, s, c);
    match c {
      case PayC(a) => if Subscriptions.Pay(cfg, s, a).Done? { PayKeeps(cfg, s, a); PayGrowing(cfg, s, a); }
      case CancelC(i) => if Subscriptions.Cancel(s, i).Done? { CancelKeeps(cfg, s, i); UnpostedGrows(s, s'); }
      case SweepC(i) =>
        if i < |s.subs| && Subscriptions.IsDue(s.subs[i], s.clock) {
          Subscriptions.RowsOk(cfg, s, i);
          SweepOneKeeps(cfg, s, i, s.subs[i]);
          if SweepOne(cfg, s, i, s.subs[i]).Done? { SweepOneLocal(cfg, s, i, s.subs[i]); }
        }
      case ReadDueC(i) => if ReadDue(s, i).Done? { ReadDueKeeps(cfg, s, i); UnpostedGrows(s, s'); }
      case ChargeReadC(read) =>
        if ChargeRead(cfg, s, read).Done? {
          ChargeReadKeeps(cfg, s, read);
          PayGrowing(cfg, s, RenewArgs(cfg, read.row, Renewal(read.sub, read.row.periodEnd, read.attempt)));
        }
      case RefundPeriodC(a) => if RefundPeriod(cfg, s, a).Done? { RefundPeriodKeeps(cfg, s, a); RefundPeriodLocal(cfg, s, a); }
    }
    GrownGood(cfg, s, s');
  }

  lemma UsageGood(cfg: Config, s: State, c: UsageCommand)
    requires Valid(cfg) && Good(cfg, s)
    ensures Good(cfg, ExecUsage(cfg, s, c)) && Grows(s, ExecUsage(cfg, s, c)) && Quiet(s, ExecUsage(cfg, s, c))
  {
    hide Inv, EventsOk, Grows, Quiet, Books, JournalOk, HoldRowsOk, IntentsOk, TotalsOk, Partition, ValidTiers, Grant, Rate, RatingOk;
    InvParts(cfg, s);
    SameIsLocal(s);
    var s' := ExecUsage(cfg, s, c);
    match c {
      case GrantC(a) => if Grant(cfg, s, a).Done? { GrantKeeps(cfg, s, a); GrantLocal(cfg, s, a); }
      case ReadingC(r) =>
        RatingOf(cfg, s);
        ReadingStored(s, r);
        ReadingsFrame(cfg, s, s'.readings, s.budgets);
        UnpostedGrows(s, s');
      case RateC(cards, id) => if Rate(cfg, s, cards, id).Done? { RateKeeps(cfg, s, cards, id); RateLocal(cfg, s, cards, id); }
      case BudgetC(a) =>
        RatingOf(cfg, s);
        ReadingsFrame(cfg, s, s.readings, s'.budgets);
        UnpostedGrows(s, s');
    }
    GrownGood(cfg, s, s');
  }

  lemma ReadingStored(s: State, r: Reading)
    requires RatingOk(s)
    ensures RatingOk(StoreReading(s, r))
  {
  }

  lemma HoldsGood(cfg: Config, s: State, c: HoldCommand)
    requires Valid(cfg) && Good(cfg, s)
    ensures Good(cfg, ExecHolds(cfg, s, c))
    ensures !c.BuyVibesC? ==> Grows(s, ExecHolds(cfg, s, c))
    ensures Covered(s) ==> Covered(ExecHolds(cfg, s, c))
  {
    hide Inv, EventsOk, Grows, Covered, Books, JournalOk, HoldRowsOk, IntentsOk, TotalsOk, Partition, ValidTiers, FindSettlement,
         SettleHold, SandboxGrant, Move, BuyVibes;
    InvParts(cfg, s);
    SameIsLocal(s);
    var s' := ExecHolds(cfg, s, c);
    match c {
      case CreateHoldC(a) => if CreateHold(cfg, s, a).Done? { CreateHoldKeeps(cfg, s, a); UnpostedGrows(s, s'); }
      case ExtendHoldC(i, add) => if ExtendHold(cfg, s, i, add).Done? { ExtendHoldKeeps(cfg, s, i, add); UnpostedGrows(s, s'); }
      case SettleHoldC(a) =>
        if SettleHold(cfg, s, a).Done? {
          SettleHoldKeeps(cfg, s, a);
          SettleHoldGrowing(cfg, s, a);
          if FindSettlement(s.settlements, a.key).Some? {
            SettleReplays(cfg, s, a);
          } else if Covered(s) {
            SettlingMoves(cfg, s, a);
          }
        }
      case ReleaseHoldC(i) => if ReleaseHold(cfg, s, i).Done? { ReleaseHoldKeeps(cfg, s, i); UnpostedGrows(s, s'); }
      case SweepHoldsC => SweepHoldsKeeps(cfg, s); UnpostedGrows(s, s');
      case SandboxC(a) => if SandboxGrant(cfg, s, a).Done? { SandboxGrantKeeps(cfg, s, a); SandboxGrantGrowing(cfg, s, a); }
      case MoveC(a) => if Move(cfg, s, a).Done? { MoveKeeps(cfg, s, a); MoveGrowing(cfg, s, a); }
      case BuyVibesC(a) => if BuyVibes(cfg, s, a).Done? { BuyVibesKeeps(cfg, s, a); BuyKeepsEvents(cfg, s, a); }
    }
    if !c.BuyVibesC? { GrownGood(cfg, s, s'); }
  }

  lemma VibesGood(cfg: Config, s: State, c: VibesCommand)
    requires Valid(cfg) && Good(cfg, s)
    ensures Good(cfg, ExecVibes(cfg, s, c)) && Grows(s, ExecVibes(cfg, s, c)) && Quiet(s, ExecVibes(cfg, s, c))
  {
    hide Inv, EventsOk, Grows, Quiet, Books, JournalOk, HoldRowsOk, IntentsOk, TotalsOk, Partition, ValidTiers, PayCharge, RefundCharge, TestVibes;
    InvParts(cfg, s);
    SameIsLocal(s);
    var s' := ExecVibes(cfg, s, c);
    match c {
      case CreateChargeC(a) => if CreateCharge(cfg, s, a).Done? { CreateChargeKeeps(cfg, s, a); UnpostedGrows(s, s'); }
      case PayChargeC(i, p) => if PayCharge(cfg, s, i, p).Done? { PayChargeKeeps(cfg, s, i, p); PayChargeLocal(cfg, s, i, p); }
      case RefundChargeC(i, app) => if RefundCharge(cfg, s, i, app).Done? { RefundChargeKeeps(cfg, s, i, app); RefundChargeLocal(cfg, s, i, app); }
      case CancelChargeC(i) => if CancelCharge(s, i).Done? { CancelChargeKeeps(cfg, s, i); UnpostedGrows(s, s'); }
      case TestVibesC(a) => if TestVibes(cfg, s, a).Done? { TestVibesKeeps(cfg, s, a); TestVibesLocal(cfg, s, a); }
    }
    GrownGood(cfg, s, s');
  }

  lemma FeedGood(cfg: Config, adapter: Adapter, s: State, c: FeedCommand)
    requires Valid(cfg) && Good(cfg, s)
    ensures Good(cfg, ExecFeed(cfg, adapter, s, c))
  {
    hide Inv, EventsOk, Partition, ValidTiers, Process;
    match c {
      case StoreC(p, id, payload) => StoreKeeps(cfg, s, p, id, payload);
      case ProcessC(e) => ProcessKeeps(cfg, adapter, s, e);
      case ReprocessC(e) => if Reprocess(cfg, adapter, s, e).Done? { ReprocessKeeps(cfg, adapter, s, e); }
    }
  }

  lemma ClockGood(cfg: Config, s: State, now: Millis, on: bool)
    requires Good(cfg, s) && now >= s.clock
    ensures Good(cfg, s.(clock := now)) && Good(cfg, s.(frozen := on))
  {
    hide JournalOk, NonNegative, PayoutsOk, PeriodsCharged, SubsOk, RenewalsOk, PromoOk, RatingOk, TotalsOk, VibesOk, HoldRowsOk, IntentsOk;
    Frame(cfg, s, s.(clock := now));
    Frame(cfg, s, s.(frozen := on));
  }

  /** Every command keeps what every reachable state satisfies. */
  lemma ExecGood(cfg: Config, adapter: Adapter, s: State, c: Command)
    requires Valid(cfg) && Good(cfg, s) && Allowed(s, c)
    ensures Good(cfg, Exec(cfg, adapter, s, c))
  {
    hide Good, Partition, ValidTiers, ExecMoney, ExecSubs, ExecUsage, ExecHolds, ExecVibes, ExecFeed, MoneyAllowed, SubsAllowed, Grows, Quiet, Covered;
    match c {
      case Tick(now) => ClockGood(cfg, s, Max(now, s.clock), false);
      case Freeze(on) => ClockGood(cfg, s, s.clock, on);
      case Money(m) => MoneyGood(cfg, s, m);
      case Subs(m) => SubsGood(cfg, s, m);
      case Usage(m) => UsageGood(cfg, s, m);
      case Holds(m) => HoldsGood(cfg, s, m);
      case Pay(m) => VibesGood(cfg, s, m);
      case Feed(m) => FeedGood(cfg, adapter, s, m);
    }
  }

  // ------------------------------------------------------------------ every run

  function Run(cfg: Config, adapter: Adapter, s: State, run: seq<Command>): State
    requires Valid(cfg)
    decreases |run|
  {
    if run == [] then s else Run(cfg, adapter, Exec(cfg, adapter, s, run[0]), run[1..])
  }

  ghost predicate RunAllowed(cfg: Config, adapter: Adapter, s: State, run: seq<Command>)
    requires Valid(cfg)
    decreases |run|
  {
    run == [] || (Allowed(s, run[0]) && RunAllowed(cfg, adapter, Exec(cfg, adapter, s, run[0]), run[1..]))
  }

  lemma {:induction false} RunGood(cfg: Config, adapter: Adapter, s: State, run: seq<Command>)
    requires Valid(cfg) && Good(cfg, s) && RunAllowed(cfg, adapter, s, run)
    ensures Good(cfg, Run(cfg, adapter, s, run))
    decreases |run|
  {
    hide Good, Exec, Partition, ValidTiers, Allowed;
    if run != [] {
      ExecGood(cfg, adapter, s, run[0]);
      RunGood(cfg, adapter, Exec(cfg, adapter, s, run[0]), run[1..]);
    }
  }

  lemma EmptyBooks(cfg: Config)
    ensures JournalOk(cfg, EMPTY.ledger) && NonNegative(EMPTY.ledger) && TotalsOk(EMPTY.ledger) && PayoutsOk(cfg, EMPTY)
  {
    hide Shape;
    assert forall a: Account :: Bal(EMPTY.ledger, a) == 0 && JournalSum([], a) == 0;
    assert forall p: Subject :: RequestedSum([], p) == 0;
  }

  lemma EmptyPeriods(cfg: Config)
    ensures PeriodsCharged(EMPTY) && SubsOk(cfg, EMPTY) && RenewalsOk(EMPTY)
  {
  }

  lemma EmptyPromo(cfg: Config)
    ensures PromoOk(cfg, EMPTY) && RatingOk(EMPTY)
  {
    assert forall p: Subject :: OpenOf([], p) == 0;
    assert OpenAll([]) == 0;
  }

  lemma EmptyVibes(cfg: Config)
    ensures VibesOk(cfg, EMPTY)
  {
    assert forall project: nat :: PaidInto([], project) == 0 && CashedOut([], project) == 0;
    forall p: Subject, after: Millis, upto: Millis ensures SpentIn(EMPTY.charges, p, after, upto, false) <= Max(0, cfg.dailyVibes) {
      assert SpentIn([], p, after, upto, false) == 0;
    }
  }

  lemma EmptyHolds()
    ensures HoldRowsOk(EMPTY) && IntentsOk(EMPTY) && EventsOk(EMPTY) && Covered(EMPTY)
  {
    assert forall a: Account :: HeldOn([], a) == 0;
  }

  lemma EmptyGood(cfg: Config)
    ensures Good(cfg, EMPTY) && Covered(EMPTY)
  {
    hide JournalOk, NonNegative, PayoutsOk, PeriodsCharged, SubsOk, RenewalsOk, PromoOk, RatingOk, TotalsOk, VibesOk, HoldRowsOk, IntentsOk, EventsOk, Covered;
    EmptyBooks(cfg);
    EmptyPeriods(cfg);
    EmptyPromo(cfg);
    EmptyVibes(cfg);
    EmptyHolds();
  }

  /**
   * In every state a run reaches from the empty store the books pass the whole reconciliation, but
   * for fx.mirror, which holds unless Vibes were bought from a Balance; and no credit, payable or
   * pending balance of anybody is below zero.
   */
  lemma EveryRunReconciles(cfg: Config, adapter: Adapter, run: seq<Command>)
    requires Valid(cfg) && RunAllowed(cfg, adapter, EMPTY, run)
    ensures var s := Run(cfg, adapter, EMPTY, run);
      && Good(cfg, s)
      && (forall c :: c in Report(s) && c.id != FxMirrored ==> c.ok)
      && (forall a: Account :: Guarded(a.kind) ==> Bal(s.ledger, a) >= 0)
    ensures (forall k :: 0 <= k < |run| ==> !(run[k].Holds? && run[k].holds.BuyVibesC?)) ==>
      forall c :: c in Report(Run(cfg, adapter, EMPTY, run)) ==> c.ok
  {
    hide EMPTY, Inv, EventsOk, Run, Exec, Partition, ValidTiers, Allowed, RunAllowed, Report, NoBalanceBuys;
    EmptyGood(cfg);
    RunGood(cfg, adapter, EMPTY, run);
    var s := Run(cfg, adapter, EMPTY, run);
    ReportIsClean(cfg, s);
    FundsOfInv(cfg, s);
    if forall k :: 0 <= k < |run| ==> !(run[k].Holds? && run[k].holds.BuyVibesC?) {
      EmptyBuys();
      RunBuysNothing(cfg, adapter, EMPTY, run);
    }
  }

  /** The state a run reaches from the empty store. */
  function Reached(cfg: Config, adapter: Adapter, run: seq<Command>): State
    requires Valid(cfg)
  {
    Run(cfg, adapter, EMPTY, run)
  }

  lemma ReachedGood(cfg: Config, adapter: Adapter, run: seq<Command>)
    requires Valid(cfg) && RunAllowed(cfg, adapter, EMPTY, run)
    ensures Good(cfg, Reached(cfg, adapter, run))
  {
    hide EMPTY, Good, Run, Exec, Partition, ValidTiers, Allowed, RunAllowed;
    EmptyGood(cfg);
    RunGood(cfg, adapter, EMPTY, run);
  }

  /**
   * In every reachable state the unrevoked periods of a subscription never overlap, its end is the
   * latest of them, and a past-due one has its grace counted from that end.
   */
  lemma EveryRunChainsPeriods(cfg: Config, adapter: Adapter, run: seq<Command>)
    requires Valid(cfg) && RunAllowed(cfg, adapter, EMPTY, run)
    ensures var s := Reached(cfg, adapter, run);
      && (forall k, m ::
            (0 <= k < m < |s.periods| && s.periods[k].sub == s.periods[m].sub
             && s.periods[k].revoked.None? && s.periods[m].revoked.None?)
            ==> s.periods[k].end <= s.periods[m].start)
      && (forall i, k :: 0 <= i < |s.subs| && 0 <= k < |s.periods| && Stands(s.periods[k], i) ==>
            && s.periods[k].end <= s.subs[i].periodEnd
            && exists m :: 0 <= m < |s.periods| && Stands(s.periods[m], i) && s.periods[m].end == s.subs[i].periodEnd)
      && (forall i :: 0 <= i < |s.subs| && s.subs[i].status == PastDue ==> s.subs[i].graceUntil == Some(s.subs[i].periodEnd + cfg.renewalGrace))
  {
    hide Reached, Partition, ValidTiers, RunAllowed, JournalOk, NonNegative, PayoutsOk, PeriodsCharged, RenewalsOk, PromoOk, RatingOk, TotalsOk, VibesOk,
         HoldRowsOk, IntentsOk, EventsOk;
    ReachedGood(cfg, adapter, run);
    var s := Reached(cfg, adapter, run);
    forall i, k | 0 <= i < |s.subs| && 0 <= k < |s.periods| && Stands(s.periods[k], i)
      ensures s.periods[k].end <= s.subs[i].periodEnd
      ensures exists m :: 0 <= m < |s.periods| && Stands(s.periods[m], i) && s.periods[m].end == s.subs[i].periodEnd
    {
      LastEndIs(s.periods, i);
    }
  }

  /** In every reachable state at most one renewal charge for a subscription and period end is not reversed. */
  lemma EveryRunRenewsOnce(cfg: Config, adapter: Adapter, run: seq<Command>, i: nat, k: nat)
    requires Valid(cfg) && RunAllowed(cfg, adapter, EMPTY, run)
    requires var j := Reached(cfg, adapter, run).ledger.journal;
      && i < |j| && k < |j| && i != k && j[i].key.Renewal? && j[k].key.Renewal?
      && j[i].key.sub == j[k].key.sub && j[i].key.end == j[k].key.end
    ensures var j := Reached(cfg, adapter, run).ledger.journal; HasReversal(j, i) || HasReversal(j, k)
  {
    hide Reached, Partition, ValidTiers, RunAllowed, Inv, EventsOk, HasReversal;
    ReachedGood(cfg, adapter, run);
    OneStandingCharge(cfg, Reached(cfg, adapter, run), i, k);
  }

  /** In every reachable state every balance is an exact integer: no run ever leaves what a column or a number can hold. */
  lemma EveryRunStaysExact(cfg: Config, adapter: Adapter, run: seq<Command>, a: Account)
    requires Valid(cfg) && RunAllowed(cfg, adapter, EMPTY, run)
    ensures InRange(a.currency, Bal(Reached(cfg, adapter, run).ledger, a))
  {
    hide Reached, Partition, ValidTiers, RunAllowed, Inv, EventsOk;
    ReachedGood(cfg, adapter, run);
    ExactOf(cfg, Reached(cfg, adapter, run), a);
  }

  lemma ExactOf(cfg: Config, s: State, a: Account)
    requires Inv(cfg, s)
    ensures InRange(a.currency, Bal(s.ledger, a))
  {
    assert Exact(s.ledger);
  }

  /**
   * In every reachable state what reversals undid of a payment is the rounded share of the cents
   * they returned, never more than was paid, and all of it once all of it is returned.
   */
  lemma EveryRunTelescopes(cfg: Config, adapter: Adapter, run: seq<Command>, i: nat)
    requires Valid(cfg) && RunAllowed(cfg, adapter, EMPTY, run)
    requires i < |Reached(cfg, adapter, run).ledger.journal| && PaidCents(Reached(cfg, adapter, run).ledger.journal[i].meta) > 0
    ensures var j := Reached(cfg, adapter, run).ledger.journal; var paid := PaidCents(j[i].meta); var done := ReversedCents(j, i);
      && 0 <= done <= paid
      && (j[i].meta.PurchaseMeta? ==> ReversedBits(j, i) == RoundDiv(j[i].meta.bits * done, paid))
      && (j[i].meta.TopupMeta? ==> ReversedNano(j, i) == (j[i].meta.amountNano * done) / paid)
      && (done == paid && j[i].meta.PurchaseMeta? ==> ReversedBits(j, i) == j[i].meta.bits)
      && (done == paid && j[i].meta.TopupMeta? ==> ReversedNano(j, i) == j[i].meta.amountNano)
  {
    hide Reached, Partition, ValidTiers, RunAllowed, JournalOk, NonNegative, PayoutsOk, PeriodsCharged, SubsOk, RenewalsOk, PromoOk, RatingOk, VibesOk,
         HoldRowsOk, IntentsOk, EventsOk;
    ReachedGood(cfg, adapter, run);
    var s := Reached(cfg, adapter, run);
    assert TotalsAt(s.ledger.journal, i);
    if ReversedCents(s.ledger.journal, i) == PaidCents(s.ledger.journal[i].meta) { FullyReversed(cfg, s, i); }
  }

  /** In every reachable state promo credit is what the windows hold open, and the reserve is minus all of it. */
  lemma EveryRunKeepsAllowances(cfg: Config, adapter: Adapter, run: seq<Command>)
    requires Valid(cfg) && RunAllowed(cfg, adapter, EMPTY, run)
    ensures var s := Reached(cfg, adapter, run);
      && (forall p: Subject :: Bal(s.ledger, PromoOf(p)) == OpenOf(s.allowances, p))
      && Bal(s.ledger, PROMO_RESERVE) == -OpenAll(s.allowances)
      && (forall i :: 0 <= i < |s.allowances| ==> s.allowances[i].used + s.allowances[i].expired <= s.allowances[i].granted)
  {
    hide Reached, Partition, ValidTiers, RunAllowed, JournalOk, NonNegative, PayoutsOk, PeriodsCharged, SubsOk, RenewalsOk, RatingOk, TotalsOk, VibesOk,
         HoldRowsOk, IntentsOk, EventsOk;
    ReachedGood(cfg, adapter, run);
  }

  /**
   * In every reachable state no person's real charges of any 24 hours pass the limit, a project's
   * wallet is its paid charges less its cashouts, and each charge was paid and refunded at most once.
   */
  lemma EveryRunLimitsVibes(cfg: Config, adapter: Adapter, run: seq<Command>)
    requires Valid(cfg) && RunAllowed(cfg, adapter, EMPTY, run)
    ensures var s := Reached(cfg, adapter, run);
      && (forall p: Subject, after: Millis, upto: Millis :: upto <= after + DAY ==> SpentIn(s.charges, p, after, upto, false) <= Max(0, cfg.dailyVibes))
      && (forall project: nat :: Bal(s.ledger, WalletOf(project)) == PaidInto(s.charges, project) - CashedOut(s.cashouts, project))
      && (forall i, k :: 0 <= i < k < |s.ledger.journal| ==> s.ledger.journal[i].key != s.ledger.journal[k].key)
      && (forall i :: 0 <= i < |s.charges| ==> (s.charges[i].status == ChargePaid || s.charges[i].status == ChargeRefunded
            <==> HasKey(s.ledger.journal, ChargePaidKey(i))))
      && (forall i :: 0 <= i < |s.charges| ==> (s.charges[i].status == ChargeRefunded <==> HasKey(s.ledger.journal, ChargeRefundKey(i))))
  {
    hide Reached, Partition, ValidTiers, RunAllowed, NonNegative, PayoutsOk, PeriodsCharged, SubsOk, RenewalsOk, PromoOk, RatingOk, TotalsOk,
         HoldRowsOk, IntentsOk, EventsOk, HasKey, Shape;
    ReachedGood(cfg, adapter, run);
    var s := Reached(cfg, adapter, run);
    forall i | 0 <= i < |s.charges|
      ensures s.charges[i].status == ChargePaid || s.charges[i].status == ChargeRefunded <==> HasKey(s.ledger.journal, ChargePaidKey(i))
      ensures s.charges[i].status == ChargeRefunded <==> HasKey(s.ledger.journal, ChargeRefundKey(i))
    {
      assert ChargeOk(s, i);
    }
  }

  /** In every reachable state each receipt reference was settled at most once, and each settled event owns exactly one transaction. */
  lemma EveryRunSettlesOnce(cfg: Config, adapter: Adapter, run: seq<Command>)
    requires Valid(cfg) && RunAllowed(cfg, adapter, EMPTY, run)
    ensures var s := Reached(cfg, adapter, run); var j := s.ledger.journal;
      && (forall i, k :: 0 <= i < k < |j| && j[i].receipt.Some? ==> j[i].receipt != j[k].receipt)
      && (forall e :: 0 <= e < |s.events| ==> EventTxns(j, e) == if s.events[e].effect == Some(Settled) then 1 else 0)
  {
    hide Reached, Partition, ValidTiers, RunAllowed, Inv, EventsOk;
    ReachedGood(cfg, adapter, run);
    var s := Reached(cfg, adapter, run);
    var j := s.ledger.journal;
    InvBooks(cfg, s);
    forall e | 0 <= e < |s.events| ensures EventTxns(j, e) == if s.events[e].effect == Some(Settled) then 1 else 0 {
      SettledOwnsOne(cfg, s, e);
      if s.events[e].effect == Some(Settled) {
        var i :| 0 <= i < |j| && j[i].source == Some(e);
        OneEventTxn(j, e, i);
      } else {
        NoEventTxns(j, e);
      }
    }
  }

  lemma EmptyBuys()
    ensures NoBalanceBuys(EMPTY.ledger.journal)
  {
  }

  lemma FundsOfInv(cfg: Config, s: State)
    requires Inv(cfg, s)
    ensures forall a: Account :: Guarded(a.kind) ==> Bal(s.ledger, a) >= 0
  {
  }

  lemma GrowsBuysNothing(s: State, s': State)
    requires Grows(s, s') && NoBalanceBuys(s.ledger.journal)
    ensures NoBalanceBuys(s'.ledger.journal)
  {
    var j, j' := s.ledger.journal, s'.ledger.journal;
    forall i | 0 <= i < |j'| ensures !(j'[i].meta.BalanceMeta? && j'[i].meta.toProject.None?) {
      if i < |j| { assert j'[i] == j[i]; }
    }
  }

  lemma OneMoreBuysNothing(j: seq<Txn>, j': seq<Txn>)
    requires NoBalanceBuys(j)
    requires j' == j || (|j'| == |j| + 1 && j'[..|j|] == j && !j'[|j|].meta.BalanceMeta?)
    ensures NoBalanceBuys(j')
  {
    forall i | 0 <= i < |j'| ensures !(j'[i].meta.BalanceMeta? && j'[i].meta.toProject.None?) {
      if i < |j| { assert j'[i] == j[i]; }
    }
  }

  lemma ProcessBuysNothing(cfg: Config, adapter: Adapter, s: State, e: nat)
    requires Valid(cfg) && Inv(cfg, s) && EventsOk(s) && NoBalanceBuys(s.ledger.journal)
    ensures NoBalanceBuys(Process(cfg, adapter, s, e).ledger.journal)
  {
    hide Inv, EventsOk, ApplyPlan, Partition, ValidTiers, FindKey, NoBalanceBuys;
    if e < |s.events| && s.events[e].effect.None? && !s.frozen {
      InvJournal(cfg, s);
      EventIsFresh(cfg, s, e);
      var plan := adapter(s.events[e], s.subs, s.intents);
      var p := s.events[e].provider;
      if plan.Some? && ApplyPlan(cfg, s, p, plan.value, e).Done? {
        ApplyGrows(cfg, s, p, plan.value, e);
        EventsUnapplied(cfg, s, p, plan.value, e);
        OneMoreBuysNothing(s.ledger.journal, ApplyPlan(cfg, s, p, plan.value, e).state.ledger.journal);
      }
    }
  }

  lemma ExecBuysNothing(cfg: Config, adapter: Adapter, s: State, c: Command)
    requires Valid(cfg) && Good(cfg, s) && Allowed(s, c) && NoBalanceBuys(s.ledger.journal)
    requires !(c.Holds? && c.holds.BuyVibesC?)
    ensures NoBalanceBuys(Exec(cfg, adapter, s, c).ledger.journal)
  {
    hide Inv, EventsOk, Partition, ValidTiers, ExecMoney, ExecSubs, ExecUsage, ExecHolds, ExecVibes, MoneyAllowed, SubsAllowed, Grows, Quiet,
         Covered, NoBalanceBuys, Process;
    match c {
      case Tick(now) =>
      case Freeze(on) =>
      case Money(m) => MoneyGood(cfg, s, m); GrowsBuysNothing(s, ExecMoney(cfg, s, m));
      case Subs(m) => SubsGood(cfg, s, m); GrowsBuysNothing(s, ExecSubs(cfg, s, m));
      case Usage(m) => UsageGood(cfg, s, m); GrowsBuysNothing(s, ExecUsage(cfg, s, m));
      case Holds(m) => HoldsGood(cfg, s, m); GrowsBuysNothing(s, ExecHolds(cfg, s, m));
      case Pay(m) => VibesGood(cfg, s, m); GrowsBuysNothing(s, ExecVibes(cfg, s, m));
      case Feed(m) => FeedBuysNothing(cfg, adapter, s, m);
    }
  }

  lemma FeedBuysNothing(cfg: Config, adapter: Adapter, s: State, c: FeedCommand)
    requires Valid(cfg) && Good(cfg, s) && NoBalanceBuys(s.ledger.journal)
    ensures NoBalanceBuys(ExecFeed(cfg, adapter, s, c).ledger.journal)
  {
    hide Inv, EventsOk, Partition, ValidTiers, Process, NoBalanceBuys;
    match c {
      case StoreC(_, _, _) =>
      case ProcessC(e) => ProcessBuysNothing(cfg, adapter, s, e);
      case ReprocessC(e) =>
        if Reprocess(cfg, adapter, s, e).Done? {
          var reset := s.(events := s.events[e := s.events[e].(effect := None)]);
          EventsFrame(cfg, s, reset.events);
          EventNoted(s, reset, e, None);
          ProcessBuysNothing(cfg, adapter, reset, e);
        }
    }
  }

  lemma {:induction false} RunBuysNothing(cfg: Config, adapter: Adapter, s: State, run: seq<Command>)
    requires Valid(cfg) && Good(cfg, s) && RunAllowed(cfg, adapter, s, run) && NoBalanceBuys(s.ledger.journal)
    requires forall k :: 0 <= k < |run| ==> !(run[k].Holds? && run[k].holds.BuyVibesC?)
    ensures NoBalanceBuys(Run(cfg, adapter, s, run).ledger.journal)
    decreases |run|
  {
    hide Good, Exec, Partition, ValidTiers, Allowed, NoBalanceBuys;
    if run != [] {
      ExecGood(cfg, adapter, s, run[0]);
      ExecBuysNothing(cfg, adapter, s, run[0]);
      RunBuysNothing(cfg, adapter, Exec(cfg, adapter, s, run[0]), run[1..]);
    }
  }

  // ------------------------------------------------------------------ the cover of holds, over every run

  /** A reversal comes only where no hold is open on the account it would claw from. */
  ghost predicate Sparing(adapter: Adapter, s: State, c: Command)
  {
    match c
    case Money(ReverseC(a)) => SpareOf(s, a.original)
    case Feed(ProcessC(e)) => e < |s.events| ==> SparesEvent(adapter, s, s.events[e])
    case Feed(ReprocessC(e)) => e < |s.events| ==> SparesEvent(adapter, s, s.events[e].(effect := None))
    case _ => true
  }

  /** What the adapter makes of this event, when it is a reversal, claws from an account with no open hold. */
  ghost predicate SparesEvent(adapter: Adapter, s: State, x: Event)
  {
    var plan := adapter(x, s.subs, s.intents);
    plan.Some? && plan.value.ReversePlan? ==> SpareOf(s, Payment(x.provider, plan.value.payment))
  }

  lemma MoneyCovers(cfg: Config, s: State, c: MoneyCommand)
    requires Valid(cfg) && Inv(cfg, s) && Covered(s) && MoneyAllowed(s, c)
    requires c.ReverseC? ==> SpareOf(s, c.reverse.original)
    ensures Covered(ExecMoney(cfg, s, c))
  {
    hide Inv, Grows, Quiet, Covered, Books, JournalOk, HoldRowsOk, IntentsOk, TotalsOk, Partition, ValidTiers, FindKey, SpareOf,
         Settle, SettleTopup, TipFromReceipt, Give, RefundGift, Request, Approve, Deny, RecyclePayable, Reverse;
    InvParts(cfg, s);
    SameIsLocal(s);
    var s' := ExecMoney(cfg, s, c);
    match c {
      case StartTopupC(a) => if StartTopup(cfg, s, a).Done? { UnpostedGrows(s, s'); }
      case StartPackC(a) => if StartPurchase(cfg, s, a).Done? { UnpostedGrows(s, s'); }
      case SettleC(a) => if Settle(cfg, s, a).Done? { SettleQuiet(cfg, s, a); }
      case TopupC(a) => if SettleTopup(cfg, s, a).Done? { TopupQuiet(cfg, s, a); }
      case TipC(a) => if TipFromReceipt(cfg, s, a).Done? { TipQuiet(cfg, s, a); }
      case GiveC(a) => if Give(cfg, s, a).Done? { GiveLocal(cfg, s, a); }
      case RefundGiftC(a) => if RefundGift(s, a).Done? { RefundGiftLocal(s, a); }
      case RequestC(a) => if Request(cfg, s, a).Done? { RequestLocal(cfg, s, a); }
      case ApproveC(a) => if Approve(cfg, s, a).Done? { ApproveLocal(cfg, s, a); }
      case DenyC(a) => if Deny(s, a).Done? { DenyLocal(s, a); }
      case RecycleC(a) => if RecyclePayable(cfg, s, a).Done? { RecycleLocal(cfg, s, a); }
      case ReverseC(a) => if Reverse(cfg, s, a).Done? { ReverseCovered(cfg, s, a); }
    }
    if !c.ReverseC? { QuietKeepsCover(s, s'); }
  }

  lemma ApplyCovers(cfg: Config, s: State, p: Provider, plan: Plan, e: nat)
    requires Valid(cfg) && Inv(cfg, s) && Covered(s) && ApplyPlan(cfg, s, p, plan, e).Done?
    requires plan.ReversePlan? ==> SpareOf(s, Payment(p, plan.payment))
    ensures Covered(ApplyPlan(cfg, s, p, plan, e).state)
  {
    hide Settle, SettleTopup, Subscriptions.Pay, TipFromReceipt, Reverse, Inv, Partition, ValidTiers, SpareOf, Covered, Quiet, Grows,
         Books, JournalOk, HoldRowsOk, IntentsOk, TotalsOk;
    InvParts(cfg, s);
    SameIsLocal(s);
    var s' := ApplyPlan(cfg, s, p, plan, e).state;
    match plan {
      case EndPlan(sub) => UnpostedGrows(s, s');
      case PurchasePlan(_, _, _, _, _) => SettleQuiet(cfg, s, SettleArgsOf(p, plan, e));
      case TopupPlan(_, _, _) => TopupQuiet(cfg, s, TopupArgsOf(p, plan, e));
      case PeriodPlan(_, _, _, _, _, _, _, _, _, _, _, _) => PayQuiet(cfg, s, PayArgsOf(p, plan, e));
      case TipPlan(_, _, _, _) => TipQuiet(cfg, s, TipArgsOf(p, plan, e));
      case ReversePlan(_, _, _, _) => ReverseCovered(cfg, s, ReverseArgsOf(p, plan, e));
      case _ =>
    }
    if !plan.ReversePlan? { QuietKeepsCover(s, s'); }
  }

  lemma ProcessCovers(cfg: Config, adapter: Adapter, s: State, e: nat)
    requires Valid(cfg) && Inv(cfg, s) && Covered(s) && (e < |s.events| ==> SparesEvent(adapter, s, s.events[e]))
    ensures Covered(Process(cfg, adapter, s, e))
  {
    hide Inv, Covered, ApplyPlan, Partition, ValidTiers, SpareOf;
    if e < |s.events| && s.events[e].effect.None? && !s.frozen {
      var plan := adapter(s.events[e], s.subs, s.intents);
      var p := s.events[e].provider;
      if plan.Some? && ApplyPlan(cfg, s, p, plan.value, e).Done? {
        EventsUnapplied(cfg, s, p, plan.value, e);
        ApplyCovers(cfg, s, p, plan.value, e);
        var r := ApplyPlan(cfg, s, p, plan.value, e);
        CoverReads(r.state, Finished(r.state, e, r.value));
      } else {
        CoverReads(s, Process(cfg, adapter, s, e));
      }
    }
  }

  lemma FeedCovers(cfg: Config, adapter: Adapter, s: State, c: FeedCommand)
    requires Valid(cfg) && Inv(cfg, s) && Covered(s) && Sparing(adapter, s, Feed(c))
    ensures Covered(ExecFeed(cfg, adapter, s, c))
  {
    hide Inv, Covered, Process, Partition, ValidTiers, SpareOf;
    match c {
      case StoreC(p, id, payload) => CoverReads(s, ExecFeed(cfg, adapter, s, c));
      case ProcessC(e) => ProcessCovers(cfg, adapter, s, e);
      case ReprocessC(e) =>
        if Reprocess(cfg, adapter, s, e).Done? {
          var reset := s.(events := s.events[e := s.events[e].(effect := None)]);
          EventsFrame(cfg, s, reset.events);
          CoverReads(s, reset);
          SpareReads(s, reset);
          ProcessCovers(cfg, adapter, reset, e);
        }
    }
  }

  lemma SpareReads(s: State, s': State)
    requires s'.ledger == s.ledger && s'.holds == s.holds
    ensures forall ref :: SpareOf(s', ref) == SpareOf(s, ref)
  {
  }

  lemma ExecCovers(cfg: Config, adapter: Adapter, s: State, c: Command)
    requires Valid(cfg) && Good(cfg, s) && Covered(s) && Allowed(s, c) && Sparing(adapter, s, c)
    ensures Covered(Exec(cfg, adapter, s, c))
  {
    hide Inv, EventsOk, Partition, ValidTiers, ExecMoney, ExecSubs, ExecUsage, ExecHolds, ExecVibes, ExecFeed, MoneyAllowed, SubsAllowed, Grows,
         Quiet, Covered, SpareOf, SparesEvent;
    match c {
      case Tick(now) => CoverReads(s, Exec(cfg, adapter, s, c));
      case Freeze(on) => CoverReads(s, Exec(cfg, adapter, s, c));
      case Money(m) => MoneyCovers(cfg, s, m);
      case Subs(m) => SubsGood(cfg, s, m); QuietKeepsCover(s, ExecSubs(cfg, s, m));
      case Usage(m) => UsageGood(cfg, s, m); QuietKeepsCover(s, ExecUsage(cfg, s, m));
      case Holds(m) => HoldsGood(cfg, s, m);
      case Pay(m) => VibesGood(cfg, s, m); QuietKeepsCover(s, ExecVibes(cfg, s, m));
      case Feed(m) => FeedCovers(cfg, adapter, s, m);
    }
  }

  ghost predicate RunSparing(cfg: Config, adapter: Adapter, s: State, run: seq<Command>)
    requires Valid(cfg)
    decreases |run|
  {
    run == [] || (Sparing(adapter, s, run[0]) && RunSparing(cfg, adapter, Exec(cfg, adapter, s, run[0]), run[1..]))
  }

  /** Over every run in which top-ups are reversed only where nothing is held, open holds never exceed the balance. */
  lemma {:induction false} EveryRunCoversHolds(cfg: Config, adapter: Adapter, s: State, run: seq<Command>)
    requires Valid(cfg) && Good(cfg, s) && Covered(s) && RunAllowed(cfg, adapter, s, run) && RunSparing(cfg, adapter, s, run)
    ensures Covered(Run(cfg, adapter, s, run)) && HoldRowsOk(Run(cfg, adapter, s, run))
    decreases |run|
  {
    hide EventsOk, Exec, Partition, ValidTiers, Allowed, Sparing, Covered, JournalOk, NonNegative, PayoutsOk, PeriodsCharged, SubsOk, RenewalsOk,
         PromoOk, RatingOk, TotalsOk, VibesOk, HoldRowsOk, IntentsOk;
    if run != [] {
      ExecGood(cfg, adapter, s, run[0]);
      ExecCovers(cfg, adapter, s, run[0]);
      EveryRunCoversHolds(cfg, adapter, Exec(cfg, adapter, s, run[0]), run[1..]);
    }
  }
}
