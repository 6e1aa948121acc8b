/**
 * server/ops/common.js: account names, the receipt entries, and what one atomic step is.
 * A step either is done, with its new state, or fails and leaves the state as it was.
 */
module Common {
  import opened Basics
  import opened Schema
  import opened Journal
  import opened Rates

  const MAX_RECEIPT_CENTS := 100000000
  const NANO_PER_CENT := 10000000

  datatype Step<+T> = Done(state: State, value: T) | Fail(error: Error)

  /** The transaction an operation answers with, and whether it was there before. */
  datatype Outcome = Outcome(txn: nat, replay: bool)

  function CreditOf(p: Subject): Account { Account(UserCredit, Person(p), Bits) }
  function PayableOf(p: Subject): Account { Account(CreatorPayable, Person(p), Bits) }
  function PendingOf(p: Subject): Account { Account(PayoutsPending, Person(p), Bits) }
  function WalletOf(project: nat): Account { Account(ProjectPayable, ProjectOf(project), Bits) }
  function PromoOf(p: Subject): Account { Account(PromoCredit, Person(p), Bits) }
  function ClearingOf(p: Provider, c: Currency): Account { Account(ProviderClearing, Gateway(p), c) }
  function PayoutsThrough(p: Provider): Account { Account(ProviderClearing, PayoutsOf(p), Cents) }
  function RevenueIn(c: Currency): Account { Account(PlatformRevenue, Platform, c) }
  function SandboxPocket(app: nat, p: Subject): Account { Account(VibesCreditSandbox, SandboxPerson(app, p), Bits) }
  function SandboxWallet(app: nat, project: nat): Account { Account(ProjectPayableSandbox, SandboxProject(app, project), Bits) }
  /** Balance (nano-USD) of a person, or of a project when one is named. */
  function BalanceOf(p: Subject, project: Option<nat>): Account
  {
    Account(UsdCredit, if project.Some? then ProjectOf(project.value) else Person(p), Nano)
  }

  const PROMO_RESERVE := Account(PromoReserve, Platform, Bits)
  const REFUNDS := Account(Refunds, Platform, Cents)
  const LOSS := Account(ChargebackLoss, Platform, Cents)
  const FX_BITS := Account(FxConversion, Platform, Bits)
  const FX_CENTS := Account(FxConversion, Platform, Cents)
  const DEBT := Account(CreditTopupDebt, Platform, Nano)
  const VIBES_ISSUER := Account(VibesSandbox, Platform, Bits)
  const SANDBOX_ISSUER := Account(UsdCreditSandbox, Platform, Nano)

  /** Money received through a provider that becomes `bits` in `target`; the rest is revenue. */
  function ReceiptEntries(cfg: Config, p: Provider, paid: int, bits: int, target: Account): seq<Entry>
  {
    var value := ValueCents(cfg, bits);
    [ Entry(ClearingOf(p, Cents), -paid), Entry(RevenueIn(Cents), paid - value), Entry(FX_CENTS, value),
      Entry(FX_BITS, -bits), Entry(target, bits) ]
  }

  function PostOn(s: State, t: Txn): Step<Outcome>
  {
    match Post(s.ledger, t)
    case Posted(l, i) => Done(s.(ledger := l), Outcome(i, false))
    case Replayed(i) => Done(s, Outcome(i, true))
    case Failed(e) => Fail(e)
  }

  // ------------------------------------------------------------------ the shape of a transaction

  /** A delivery's key and its source event go together. */
  predicate KeyMatchesSource(key: Key, source: Option<nat>)
  {
    if key.Delivered? then source == Some(key.event) else source.None?
  }

  predicate IsReversal(t: Txn) { t.ty == Refund || t.ty == Chargeback }

  function Magnitude(n: int): int { if n >= 0 then n else -n }

  /** fx.mirror: the cents leg is minus the value of the bits leg at the recorded rate. */
  predicate FxMirror(t: Txn)
  {
    var bits := Delta(t.entries, FX_BITS);
    var rate := if t.bitsPerUsd > 0 then t.bitsPerUsd else 100;
    var value := RoundDiv(Magnitude(bits) * 100, rate);
    Delta(t.entries, FX_CENTS) == if bits >= 0 then -value else value
  }

  predicate IsPromo(k: Kind) { k == PromoCredit || k == PromoReserve }

  /** promo.isolated: promo kinds never share a transaction with another kind. */
  predicate PromoIsolated(t: Txn)
  {
    (forall i :: 0 <= i < |t.entries| ==> IsPromo(t.entries[i].account.kind))
    || (forall i :: 0 <= i < |t.entries| ==> !IsPromo(t.entries[i].account.kind))
  }

  /** Escrowed bits always belong to a person. */
  predicate PendingOwned(t: Txn)
  {
    forall i :: 0 <= i < |t.entries| && t.entries[i].account.kind == PayoutsPending ==>
      t.entries[i].account.owner.Person? && t.entries[i].account.currency == Bits
  }

  /** What moved through the provider's clearing accounts. */
  function Cleared(t: Txn, p: Provider): int
  {
    Delta(t.entries, ClearingOf(p, Cents)) + Delta(t.entries, ClearingOf(p, Nano))
  }

  /** receipts.ledger for a transaction that came from an event of provider `p`. */
  predicate ReceiptBooked(t: Txn, p: Provider)
  {
    && t.provider == Some(Gateway(p))
    && match t.meta
       case TopupMeta(paid, _, _, _) => t.receipt.Some? && (t.entries != [] ==> Cleared(t, p) == -paid * NANO_PER_CENT)
       case TopupReversalMeta(cents, _, _) => t.entries != [] ==> Cleared(t, p) == cents * NANO_PER_CENT
       case _ =>
         if t.ty == Purchase || t.ty == Donation || t.ty == Subscription then
           t.receipt.Some? && (t.entries != [] ==> Cleared(t, p) == -PaidCents(t.meta))
         else if IsReversal(t) then t.entries != [] ==> Cleared(t, p) == ReversalCents(t.meta)
         else true
  }

  /** metadata.paid_cents, absent as 0. */
  function PaidCents(m: Meta): int
  {
    match m
    case PurchaseMeta(p, _, _) => p
    case TipMeta(p, _) => p
    case ReceiptPeriodMeta(p, _, _) => p
    case TopupMeta(p, _, _, _) => p
    case _ => 0
  }

  /** metadata.cents of a reversal, absent as 0. */
  function ReversalCents(m: Meta): int
  {
    match m
    case ReversalMeta(c, _, _) => c
    case TopupReversalMeta(c, _, _) => c
    case _ => 0
  }

  /** What every operation but buyVibes writes: used by the checks and by later reversals. */
  ghost predicate Shape(cfg: Config, t: Txn)
  {
    && KeyMatchesSource(t.key, t.source)
    && (t.bitsPerUsd == 0 || t.bitsPerUsd == cfg.bitsPerUsd)
    && (t.meta.BalanceMeta? || FxMirror(t))
    && PromoIsolated(t) && PendingOwned(t)
    && (t.receipt.Some? && t.receipt.value.Payment? ==> t.provider == Some(Gateway(t.receipt.value.provider)))
    && (PaidCents(t.meta) != 0 ==> t.receipt.Some? && t.receipt.value.Payment? && PaidCents(t.meta) > 0)
    && (t.source.Some? ==> t.provider.Some? && t.provider.value.Gateway? && ReceiptBooked(t, t.provider.value.provider))
    && (match t.meta
        case PurchaseMeta(paid, bits, _) => t.ty == Purchase && t.to.Some? && bits > 0 && ValueCents(cfg, bits) <= paid
        case TipMeta(paid, _) => t.ty == Donation && t.to.Some? && paid > 0
        case GiftMeta(n) => t.ty == Donation && t.to.Some? && t.from.Some? && n > 0 && t.receipt.None?
        case CreditPeriodMeta(cost, share, _) => t.ty == Subscription && t.from.Some? && t.to.Some? && 0 <= share <= cost && t.receipt.None?
        case ReceiptPeriodMeta(_, _, _) => t.ty == Subscription
        case TopupMeta(paid, nano, _, _) => t.ty == Credit && t.to.Some? && 0 < nano <= paid * NANO_PER_CENT
        case ReversalMeta(cents, _, _) => IsReversal(t) && t.reverses.Some? && cents > 0
        case TopupReversalMeta(cents, _, _) => IsReversal(t) && t.reverses.Some? && cents > 0
        case GiftRefundMeta(n) => t.ty == Refund && t.reverses.Some? && n >= 0
        case PeriodRefundMeta(_, _) => t.ty == Refund && t.reverses.Some?
        case BalanceMeta(moved, project) =>
          && (t.ty == Purchase || t.ty == BalanceTransfer) && Delta(t.entries, FX_CENTS) == 0 && t.bitsPerUsd == 0
          && Delta(t.entries, FX_BITS) == (if project.None? then -moved else 0) && moved > 0
        case _ => !IsReversal(t) && t.ty != Subscription && t.ty != Donation)
    && (t.ty == Subscription ==> t.meta.CreditPeriodMeta? || t.meta.ReceiptPeriodMeta?)
    && (IsReversal(t) ==> t.meta.ReversalMeta? || t.meta.TopupReversalMeta? || t.meta.GiftRefundMeta? || t.meta.PeriodRefundMeta?)
  }

  // ------------------------------------------------------------------ reading a posting

  ghost predicate Touches(t: Txn, k: Kind)
  {
    exists i :: 0 <= i < |t.entries| && t.entries[i].account.kind == k
  }

  /** Kinds with no part of the invariant of their own beyond staying non-negative. */
  predicate PlainKind(k: Kind) { k != PayoutsPending && k != ProjectPayable && !IsPromo(k) }

  lemma PlainEntries(t: Txn)
    requires forall i :: 0 <= i < |t.entries| ==> PlainKind(t.entries[i].account.kind)
    ensures PromoIsolated(t) && PendingOwned(t)
    ensures !Touches(t, PayoutsPending) && !Touches(t, ProjectPayable) && !Touches(t, PromoCredit) && !Touches(t, PromoReserve)
  {
  }

  lemma NothingPending(t: Txn)
    requires !Touches(t, PayoutsPending)
    ensures PendingOwned(t)
  {
  }

  /** A transaction that does not cross fx mirrors itself. */
  lemma NoFxMirrors(t: Txn)
    requires Delta(t.entries, FX_BITS) == 0 && Delta(t.entries, FX_CENTS) == 0
    ensures FxMirror(t)
  {
    ZeroShare(100, 0, if t.bitsPerUsd > 0 then t.bitsPerUsd else 100);
  }

  /** Bits that cross fx at the recorded rate against their value in cents. */
  lemma FxMirrors(cfg: Config, t: Txn, bits: int)
    requires t.bitsPerUsd == cfg.bitsPerUsd && Delta(t.entries, FX_BITS) == bits
    requires Delta(t.entries, FX_CENTS) == if bits >= 0 then -ValueCents(cfg, bits) else ValueCents(cfg, -bits)
    ensures FxMirror(t)
  {
  }

  lemma NoValue(cfg: Config)
    ensures ValueCents(cfg, 0) == 0
  {
    ZeroShare(100, 0, cfg.bitsPerUsd);
  }

  /** A kind no entry names keeps every balance. */
  lemma KindUntouched(l: Ledger, t: Txn, k: Kind)
    requires Books(l) && Post(l, t).Posted? && !Touches(t, k)
    ensures forall a: Account :: a.kind == k ==> Bal(Post(l, t).ledger, a) == Bal(l, a)
  {
    PostEffect(l, t);
    forall a: Account | a.kind == k ensures Bal(Post(l, t).ledger, a) == Bal(l, a) {
      NoAccountNoDelta(t.entries, a);
    }
  }

  /** Facts about raw entries carry over to the merged rows that are stored. */
  lemma RowsCarry(t: Txn, t': Txn)
    requires t' == t.(entries := t'.entries)
    requires forall a :: Delta(t'.entries, a) == Delta(t.entries, a)
    requires forall x :: x in t'.entries ==> exists y :: y in t.entries && y.account == x.account
    ensures PromoIsolated(t) ==> PromoIsolated(t')
    ensures PendingOwned(t) ==> PendingOwned(t')
    ensures FxMirror(t) ==> FxMirror(t')
    ensures forall p: Provider :: Cleared(t', p) == Cleared(t, p)
    ensures t.entries == [] ==> t'.entries == []
  {
    forall i | 0 <= i < |t'.entries|
      ensures exists k :: 0 <= k < |t.entries| && t.entries[k].account == t'.entries[i].account
    {
      assert t'.entries[i] in t'.entries;
    }
  }

  lemma ShapeCarries(cfg: Config, t: Txn, t': Txn)
    requires Shape(cfg, t) && t' == t.(entries := t'.entries)
    requires forall a :: Delta(t'.entries, a) == Delta(t.entries, a)
    requires PromoIsolated(t) ==> PromoIsolated(t')
    requires PendingOwned(t) ==> PendingOwned(t')
    requires FxMirror(t) ==> FxMirror(t')
    requires forall p: Provider :: Cleared(t', p) == Cleared(t, p)
    requires t.entries == [] ==> t'.entries == []
    ensures Shape(cfg, t')
  {
    hide FxMirror, PromoIsolated, PendingOwned, Cleared, Delta;
  }

  lemma ShapeStored(cfg: Config, l: Ledger, t: Txn)
    requires Books(l) && Post(l, t).Posted? && Shape(cfg, t)
    ensures Shape(cfg, Post(l, t).ledger.journal[|l.journal|])
  {
    PostEffect(l, t);
    hide Post, Books, Shape, FxMirror, PromoIsolated, PendingOwned, Cleared, Delta;
    var t' := Post(l, t).ledger.journal[|l.journal|];
    RowsCarry(t, t');
    ShapeCarries(cfg, t, t');
  }
}
