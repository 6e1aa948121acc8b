/** server/ops/reversals.js: refunds and chargebacks of receipts, and of periods paid from credit. */
module Reversals {
  import opened Basics
  import opened Schema
  import opened Journal
  import opened Rates
  import opened Common
  import opened Invariants
  import opened Store
  import opened Subscriptions
  import opened Transfers

  datatype Ask = Cumulative(total: int) | Exactly(cents: int) | Whole

  datatype ReverseArgs = ReverseArgs(
    chargeback: bool, original: ReceiptRef, reversal: Option<ReceiptRef>, ask: Ask, key: Key, source: Option<nat>)

  datatype Answer = Answered(txn: nat, replay: bool, review: bool) | AlreadyDone

  // ------------------------------------------------------------------ the parts

  /** What this reversal returns, given what earlier ones did. */
  function CentsNow(ask: Ask, paid: int, done: int): int
  {
    var remaining := paid - done;
    var cents := match ask case Cumulative(total) => total - done case Exactly(c) => c case Whole => remaining;
    Min(cents, remaining)
  }

  /** The bits this part of the payment bought. */
  function BitsPart(bits: int, paid: int, done: int, cents: int): int
    requires paid > 0
  {
    RoundDiv(bits * (done + cents), paid) - RoundDiv(bits * done, paid)
  }

  /** The Balance this part of the payment bought. */
  function NanoPart(nano: int, paid: int, done: int, cents: int): int
    requires paid > 0
  {
    (nano * (done + cents)) / paid - (nano * done) / paid
  }

  function Clawed(have: int, part: int): int { Max(0, Min(have, part)) }

  function ClawedNano(have: int, part: int): int { if part <= 0 || have <= 0 then 0 else if have < part then have else part }

  datatype Part = Part(entries: seq<Entry>, meta: Meta, review: bool)

  function PurchasePart(cfg: Config, l: Ledger, orig: Txn, owner: Subject, p: Provider, chargeback: bool, done: int, cents: int): Part
    requires orig.meta.PurchaseMeta? && orig.meta.paidCents > 0
  {
    var b := BitsPart(orig.meta.bits, orig.meta.paidCents, done, cents);
    var clawed := Clawed(Bal(l, CreditOf(owner)), b);
    var nonFx := cents - ValueCents(cfg, clawed);
    var lossPart := if chargeback then nonFx else Min(nonFx, ValueCents(cfg, b - clawed));
    Part([ Entry(CreditOf(owner), -clawed), Entry(FX_BITS, clawed), Entry(FX_CENTS, -ValueCents(cfg, clawed)),
           Entry(ClearingOf(p, Cents), cents), Entry(LOSS, -lossPart), Entry(REFUNDS, -(nonFx - lossPart)) ],
         ReversalMeta(cents, b, clawed), b - clawed > 0)
  }

  function TopupPart(l: Ledger, orig: Txn, owner: Subject, p: Provider, done: int, cents: int): Part
    requires orig.meta.TopupMeta? && orig.meta.paidCents > 0
  {
    var account := BalanceOf(owner, orig.meta.project);
    var part := NanoPart(orig.meta.amountNano, orig.meta.paidCents, done, cents);
    var clawed := ClawedNano(Bal(l, account), part);
    var debt := part - clawed;
    var revenue := cents * NANO_PER_CENT - part;
    Part([ Entry(ClearingOf(p, Nano), cents * NANO_PER_CENT), Entry(account, -clawed),
           Entry(RevenueIn(Nano), -Max(0, revenue)), Entry(DEBT, -Max(0, debt)) ],
         TopupReversalMeta(cents, clawed, debt), debt > 0)
  }

  function KeptPart(orig: Txn, p: Provider, chargeback: bool, cents: int): Part
  {
    if orig.entries == [] then Part([], ReversalMeta(cents, 0, 0), false)
    else Part([Entry(ClearingOf(p, Cents), cents), Entry(if chargeback then LOSS else REFUNDS, -cents)], ReversalMeta(cents, 0, 0), true)
  }

  function PartOf(cfg: Config, l: Ledger, orig: Txn, chargeback: bool, done: int, cents: int): Result<Part, Error>
    requires PaidCents(orig.meta) > 0
  {
    if orig.provider.None? || !orig.provider.value.Gateway? then Err(NotReversible)
    else
      var p := orig.provider.value.provider;
      match orig.meta
      case PurchaseMeta(_, _, _) =>
        if orig.to.None? then Err(NotReversible) else Ok(PurchasePart(cfg, l, orig, orig.to.value, p, chargeback, done, cents))
      case TopupMeta(_, nano, _, _) =>
        if orig.to.None? || nano <= 0 then Err(NotReversible) else Ok(TopupPart(l, orig, orig.to.value, p, done, cents))
      case _ => Ok(KeptPart(orig, p, chargeback, cents))
  }

  function ReversalTxn(cfg: Config, orig: Txn, i: nat, a: ReverseArgs, part: Part): Txn
  {
    Txn(if a.chargeback then Chargeback else Refund, a.key, part.entries, Some(i), orig.to, orig.from, orig.provider,
        a.reversal, a.source, part.meta, cfg.bitsPerUsd)
  }

  function IntentIn(m: Meta): Option<nat>
  {
    match m
    case PurchaseMeta(_, _, intent) => intent
    case TopupMeta(_, _, _, intent) => intent
    case ReceiptPeriodMeta(_, _, intent) => intent
    case CreditPeriodMeta(_, _, intent) => intent
    case _ => None
  }

  function MarkRefunded(s: State, intent: Option<nat>): State
  {
    if intent.Some? && intent.value < |s.intents| then
      s.(intents := s.intents[intent.value := s.intents[intent.value].(status := IntentRefunded)])
    else s
  }

  function KnownReversal(j: seq<Txn>, key: Key, reversal: Option<ReceiptRef>): (r: Option<nat>)
    ensures r.None? ==> FindKey(j, key).None?
  {
    var byKey := FindKey(j, key);
    if byKey.Some? then byKey else if reversal.Some? then FindReceipt(j, reversal.value) else None
  }

  // ------------------------------------------------------------------ reversing a receipt

  function Reverse(cfg: Config, s: State, a: ReverseArgs): Step<Answer>
  {
    var j := s.ledger.journal;
    var existing := KnownReversal(j, a.key, a.reversal);
    if existing.Some? then Done(s, Answered(existing.value, true, false))
    else
      var found := FindReceipt(j, a.original);
      if found.None? then Fail(NotFound)
      else
        var i, orig := found.value, j[found.value];
        var paid, done := PaidCents(orig.meta), ReversedCents(j, i);
        var cents := CentsNow(a.ask, paid, done);
        if cents <= 0 then Done(s, AlreadyDone)
        else if paid <= 0 then Fail(NotReversible)
        else
          match PartOf(cfg, s.ledger, orig, a.chargeback, done, cents)
          case Err(e) => Fail(e)
          case Ok(part) =>
            match PostOn(s, ReversalTxn(cfg, orig, i, a, part))
            case Fail(e) => Fail(e)
            case Done(s1, o) =>
              var s2 := if orig.ty == Subscription then RevokeFrom(s1, i, if a.chargeback then ForChargeback else ForRefund, 0) else s1;
              Done(if done + cents >= paid then MarkRefunded(s2, IntentIn(orig.meta)) else s2, Answered(o.txn, false, part.review))
  }

  method ReverseReceipt(cfg: Config, db: Db, a: ReverseArgs) returns (r: Result<Answer, Error>)
    modifies db
    ensures db.Answers(old(db.View()), Reverse(cfg, old(db.View()), a), r)
  {
    hide Post, PartOf, RevokeFrom;
    var existing := KnownReversal(db.journal, a.key, a.reversal);
    if existing.Some? { return Ok(Answered(existing.value, true, false)); }
    var found := FindReceipt(db.journal, a.original);
    if found.None? { return Err(NotFound); }
    var i, orig := found.value, db.journal[found.value];
    var paid, done := PaidCents(orig.meta), ReversedCents(db.journal, found.value);
    var cents := CentsNow(a.ask, paid, done);
    if cents <= 0 { return Ok(AlreadyDone); }
    if paid <= 0 { return Err(NotReversible); }
    var part := BuildPart(cfg, db, orig, a.chargeback, done, cents);
    if part.Err? { return Err(part.error); }
    var posted := db.Post(ReversalTxn(cfg, orig, i, a, part.value));
    if posted.Err? { return Err(posted.error); }
    if orig.ty == Subscription {
      var revoked := RevokeForTxn(db, i, if a.chargeback then ForChargeback else ForRefund);
    }
    if done + cents >= paid { RefundIntent(db, IntentIn(orig.meta)); }
    r := Ok(Answered(posted.value.txn, false, part.value.review));
  }

  method RefundIntent(db: Db, intent: Option<nat>)
    modifies db`intents
    ensures db.View() == MarkRefunded(old(db.View()), intent)
  {
    if intent.Some? && intent.value < |db.intents| {
      db.intents := db.intents[intent.value := db.intents[intent.value].(status := IntentRefunded)];
    }
  }

  /** The entries array, pushed part by part. */
  method BuildPart(cfg: Config, db: Db, orig: Txn, chargeback: bool, done: int, cents: int) returns (r: Result<Part, Error>)
    requires PaidCents(orig.meta) > 0
    ensures r == PartOf(cfg, db.View().ledger, orig, chargeback, done, cents)
  {
    hide ValueCents, BitsPart, NanoPart, Clawed, ClawedNano;
    if orig.provider.None? || !orig.provider.value.Gateway? { return Err(NotReversible); }
    var p := orig.provider.value.provider;
    if orig.meta.PurchaseMeta? {
      if orig.to.None? { return Err(NotReversible); }
      var owner := orig.to.value;
      var b := BitsPart(orig.meta.bits, orig.meta.paidCents, done, cents);
      var clawed := Clawed(db.Balance(CreditOf(owner)), b);
      var nonFx := cents - ValueCents(cfg, clawed);
      var entries := [ Entry(CreditOf(owner), -clawed), Entry(FX_BITS, clawed), Entry(FX_CENTS, -ValueCents(cfg, clawed)),
                       Entry(ClearingOf(p, Cents), cents) ];
      var lossPart := nonFx;
      if !chargeback { lossPart := Min(nonFx, ValueCents(cfg, b - clawed)); }
      entries := entries + [Entry(LOSS, -lossPart), Entry(REFUNDS, -(nonFx - lossPart))];
      assert entries == PurchasePart(cfg, db.View().ledger, orig, owner, p, chargeback, done, cents).entries;
      return Ok(Part(entries, ReversalMeta(cents, b, clawed), b - clawed > 0));
    }
    if orig.meta.TopupMeta? {
      if orig.to.None? || orig.meta.amountNano <= 0 { return Err(NotReversible); }
      var account := BalanceOf(orig.to.value, orig.meta.project);
      var part := NanoPart(orig.meta.amountNano, orig.meta.paidCents, done, cents);
      var clawed := ClawedNano(db.Balance(account), part);
      var debt := part - clawed;
      var revenue := cents * NANO_PER_CENT - part;
      var entries := [Entry(ClearingOf(p, Nano), cents * NANO_PER_CENT), Entry(account, -clawed)];
      entries := entries + [Entry(RevenueIn(Nano), -Max(0, revenue)), Entry(DEBT, -Max(0, debt))];
      assert entries == TopupPart(db.View().ledger, orig, orig.to.value, p, done, cents).entries;
      return Ok(Part(entries, TopupReversalMeta(cents, clawed, debt), debt > 0));
    }
    r := Ok(KeptPart(orig, p, chargeback, cents));
  }

  // ------------------------------------------------------------------ refunding a period paid from credit

  datatype PeriodRefundArgs = PeriodRefundArgs(sub: nat, txn: nat, key: Key)

  predicate Granting(ps: seq<Period>, txn: nat, sub: nat)
  {
    exists k :: 0 <= k < |ps| && ps[k].sourceTxn == txn && ps[k].sub == sub
  }

  function PeriodRefundTxn(cfg: Config, l: Ledger, orig: Txn, a: PeriodRefundArgs): Txn
    requires orig.meta.CreditPeriodMeta? && orig.from.Some? && orig.to.Some?
  {
    var cost, share := orig.meta.costBits, orig.meta.shareBits;
    var clawed := Clawed(Bal(l, PayableOf(orig.to.value)), share);
    var loss := ValueCents(cfg, share - clawed);
    Txn(Refund, a.key,
        [ Entry(CreditOf(orig.from.value), cost), Entry(RevenueIn(Bits), -(cost - share)), Entry(PayableOf(orig.to.value), -clawed),
          Entry(FX_BITS, -(share - clawed)), Entry(FX_CENTS, loss), Entry(LOSS, -loss) ],
        Some(a.txn), orig.to, orig.from, None, None, None, PeriodRefundMeta(cost, clawed), cfg.bitsPerUsd)
  }

  function RefundPeriod(cfg: Config, s: State, a: PeriodRefundArgs): Step<Answer>
  {
    var j := s.ledger.journal;
    var existing := FindKey(j, a.key);
    if existing.Some? then Done(s, Answered(existing.value, true, false))
    else if a.sub >= |s.subs| then Fail(NotFound)
    else if a.txn >= |j| || j[a.txn].ty != Subscription || !Granting(s.periods, a.txn, a.sub) then Fail(NotFound)
    else
      var orig := j[a.txn];
      if !orig.meta.CreditPeriodMeta? || orig.from.None? || orig.to.None? then Fail(NotRefundable)
      else if HasReversal(j, a.txn) then Done(s, AlreadyDone)
      else
        var t := PeriodRefundTxn(cfg, s.ledger, orig, a);
        match PostOn(s, t)
        case Fail(e) => Fail(e)
        case Done(s1, o) =>
          Done(MarkRefunded(RevokeFrom(s1, a.txn, ForRefund, 0), orig.meta.intent),
               Answered(o.txn, false, orig.meta.shareBits - t.meta.clawedShare > 0))
  }

  method RefundCreditPeriod(cfg: Config, db: Db, a: PeriodRefundArgs) returns (r: Result<Answer, Error>)
    modifies db
    ensures db.Answers(old(db.View()), RefundPeriod(cfg, old(db.View()), a), r)
  {
    hide Post, RevokeFrom, ValueCents, Clawed, Granting, HasReversal;
    var existing := FindKey(db.journal, a.key);
    if existing.Some? { return Ok(Answered(existing.value, true, false)); }
    if a.sub >= |db.subs| { return Err(NotFound); }
    if a.txn >= |db.journal| || db.journal[a.txn].ty != Subscription || !Granting(db.periods, a.txn, a.sub) { return Err(NotFound); }
    var orig := db.journal[a.txn];
    if !orig.meta.CreditPeriodMeta? || orig.from.None? || orig.to.None? { return Err(NotRefundable); }
    if HasReversal(db.journal, a.txn) { return Ok(AlreadyDone); }
    var cost, share := orig.meta.costBits, orig.meta.shareBits;
    var clawed := Clawed(db.Balance(PayableOf(orig.to.value)), share);
    var loss := ValueCents(cfg, share - clawed);
    var entries := [ Entry(CreditOf(orig.from.value), cost), Entry(RevenueIn(Bits), -(cost - share)), Entry(PayableOf(orig.to.value), -clawed),
                     Entry(FX_BITS, -(share - clawed)), Entry(FX_CENTS, loss), Entry(LOSS, -loss) ];
    var t := Txn(Refund, a.key, entries, Some(a.txn), orig.to, orig.from, None, None, None, PeriodRefundMeta(cost, clawed), cfg.bitsPerUsd);
    assert t == PeriodRefundTxn(cfg, db.View().ledger, orig, a);
    hide PeriodRefundTxn;
    var posted := db.Post(t);
    if posted.Err? { return Err(posted.error); }
    var revoked := RevokeForTxn(db, a.txn, ForRefund);
    RefundIntent(db, orig.meta.intent);
    r := Ok(Answered(posted.value.txn, false, share - clawed > 0));
  }

  // ------------------------------------------------------------------ the arithmetic of the parts

  lemma Distribute(b: int, x: int, y: int)
    ensures b * (x + y) == b * x + b * y
  {
  }

  lemma DivMono(a: int, b: int, d: int)
    requires d > 0 && a <= b
    ensures a / d <= b / d
  {
    if a / d > b / d { MulMono(b / d + 1, a / d, d); }
  }

  lemma DivShift(a: int, k: int, d: int)
    requires d > 0
    ensures (a + k * d) / d == a / d + k
  {
    var x, y := (a + k * d) / d, a / d + k;
    assert d * y == d * (a / d) + k * d;
    if x > y { MulMono(y + 1, x, d); }
    if x < y { MulMono(x + 1, y, d); }
  }

  /** A part of a top-up never takes back more Balance than the cents it returns are worth. */
  lemma NanoPartCovered(nano: int, paid: int, done: int, cents: int)
    requires paid > 0 && 0 <= nano <= paid * NANO_PER_CENT && done >= 0 && cents >= 0
    ensures 0 <= NanoPart(nano, paid, done, cents) <= cents * NANO_PER_CENT
  {
    Distribute(nano, done, cents);
    DivMono(nano * done, nano * (done + cents), paid);
    MulMono(nano, paid * NANO_PER_CENT, cents);
    assert (paid * NANO_PER_CENT) * cents == (cents * NANO_PER_CENT) * paid;
    DivMono(nano * (done + cents), nano * done + (cents * NANO_PER_CENT) * paid, paid);
    DivShift(nano * done, cents * NANO_PER_CENT, paid);
  }

  /** At 100 bits a dollar the part of a purchase that is not fx is never negative. */
  lemma PurchasePartCovered(cfg: Config, bits: int, paid: int, done: int, cents: int, clawed: int)
    requires cfg.bitsPerUsd == 100 && paid > 0 && 0 <= bits && ValueCents(cfg, bits) <= paid && done >= 0 && cents >= 0
    requires clawed <= BitsPart(bits, paid, done, cents)
    ensures cents - ValueCents(cfg, clawed) >= 0
  {
    RoundExact(bits, 100);
    RoundExact(clawed, 100);
    Distribute(bits, done, cents);
    MulMono(bits, paid, cents);
    assert paid * cents == cents * paid;
    RoundMono(bits * (done + cents), bits * done + cents * paid, paid);
    RoundShift(bits * done, cents, paid);
  }

  lemma ClawedWithin(have: int, part: int)
    requires have >= 0
    ensures 0 <= Clawed(have, part) <= have
  {
  }

  // ------------------------------------------------------------------ the shape of a reversal

  lemma PurchasePartShape(cfg: Config, l: Ledger, orig: Txn, t: Txn, owner: Subject, p: Provider, chargeback: bool, done: int, cents: int)
    requires orig.meta.PurchaseMeta? && orig.meta.paidCents > 0
    requires t.entries == PurchasePart(cfg, l, orig, owner, p, chargeback, done, cents).entries && t.bitsPerUsd == cfg.bitsPerUsd
    requires Bal(l, CreditOf(owner)) >= 0
    ensures FxMirror(t) && PromoIsolated(t) && Cleared(t, p) == cents
    ensures forall c: Currency :: SumOf(t.entries, c) == 0
    ensures forall x: Account :: Guarded(x.kind) && Bal(l, x) >= 0 ==> Bal(l, x) + Delta(t.entries, x) >= 0
    ensures !Touches(t, PayoutsPending) && !Touches(t, ProjectPayable) && !Touches(t, PromoCredit) && !Touches(t, PromoReserve)
  {
    hide BitsPart, FxMirror, ValueCents, PromoIsolated, Touches, Clawed, Cleared, SumOf, Delta, Bal;
    ClawedWithin(Bal(l, CreditOf(owner)), BitsPart(orig.meta.bits, orig.meta.paidCents, done, cents));
    CreditReturnShape(cfg, t, owner, p, cents, -t.entries[0].amount, -t.entries[4].amount, -t.entries[5].amount);
  }

  lemma CreditReturnShape(cfg: Config, t: Txn, owner: Subject, p: Provider, cents: int, clawed: int, loss: int, refunded: int)
    requires t.bitsPerUsd == cfg.bitsPerUsd && clawed >= 0
    requires t.entries == [ Entry(CreditOf(owner), -clawed), Entry(FX_BITS, clawed), Entry(FX_CENTS, -ValueCents(cfg, clawed)),
                            Entry(ClearingOf(p, Cents), cents), Entry(LOSS, -loss), Entry(REFUNDS, -refunded) ]
    requires cents == ValueCents(cfg, clawed) + loss + refunded
    ensures FxMirror(t) && PromoIsolated(t) && Cleared(t, p) == cents
    ensures forall c: Currency :: SumOf(t.entries, c) == 0
    ensures forall x: Account :: Guarded(x.kind) ==> Delta(t.entries, x) == if x == CreditOf(owner) then -clawed else 0
    ensures !Touches(t, PayoutsPending) && !Touches(t, ProjectPayable) && !Touches(t, PromoCredit) && !Touches(t, PromoReserve)
  {
    hide FxMirror, ValueCents, PromoIsolated, PendingOwned, Touches;
    PlainEntries(t);
    Sums6(Entry(CreditOf(owner), -clawed), Entry(FX_BITS, clawed), Entry(FX_CENTS, -ValueCents(cfg, clawed)),
          Entry(ClearingOf(p, Cents), cents), Entry(LOSS, -loss), Entry(REFUNDS, -refunded));
    FxMirrors(cfg, t, clawed);
  }

  lemma NanoReturnShape(cfg: Config, t: Txn, account: Account, p: Provider, total: int, clawed: int, revenue: int, debt: int)
    requires t.bitsPerUsd == cfg.bitsPerUsd && account.kind == UsdCredit && account.currency == Nano
    requires t.entries == [ Entry(ClearingOf(p, Nano), total), Entry(account, -clawed), Entry(RevenueIn(Nano), -revenue), Entry(DEBT, -debt) ]
    requires total == clawed + revenue + debt
    ensures FxMirror(t) && PromoIsolated(t) && Cleared(t, p) == total
    ensures forall c: Currency :: SumOf(t.entries, c) == 0
    ensures forall x: Account :: x != account && (Guarded(x.kind) || Spendable(x)) ==> Delta(t.entries, x) == 0
    ensures !Touches(t, PayoutsPending) && !Touches(t, ProjectPayable) && !Touches(t, PromoCredit) && !Touches(t, PromoReserve)
  {
    hide FxMirror, PromoIsolated, PendingOwned, Touches;
    PlainEntries(t);
    Sums4(Entry(ClearingOf(p, Nano), total), Entry(account, -clawed), Entry(RevenueIn(Nano), -revenue), Entry(DEBT, -debt));
    NoFxMirrors(t);
  }

  lemma TopupPartShape(cfg: Config, l: Ledger, orig: Txn, t: Txn, owner: Subject, p: Provider, done: int, cents: int)
    requires orig.meta.TopupMeta? && orig.meta.paidCents > 0
    requires 0 < orig.meta.amountNano <= orig.meta.paidCents * NANO_PER_CENT && done >= 0 && cents > 0
    requires t.entries == TopupPart(l, orig, owner, p, done, cents).entries && t.bitsPerUsd == cfg.bitsPerUsd
    ensures FxMirror(t) && PromoIsolated(t) && Cleared(t, p) == cents * NANO_PER_CENT
    ensures forall c: Currency :: SumOf(t.entries, c) == 0
    ensures forall x: Account :: x != BalanceOf(owner, orig.meta.project) && (Guarded(x.kind) || Spendable(x)) ==> Delta(t.entries, x) == 0
    ensures !Touches(t, PayoutsPending) && !Touches(t, ProjectPayable) && !Touches(t, PromoCredit) && !Touches(t, PromoReserve)
  {
    hide NanoPart, FxMirror, PromoIsolated, Cleared, Touches, SumOf, Delta, Spendable;
    NanoPartCovered(orig.meta.amountNano, orig.meta.paidCents, done, cents);
    var e := t.entries;
    NanoReturnShape(cfg, t, BalanceOf(owner, orig.meta.project), p, cents * NANO_PER_CENT, -e[1].amount, -e[2].amount, -e[3].amount);
  }

  lemma KeptPartShape(cfg: Config, orig: Txn, t: Txn, p: Provider, chargeback: bool, cents: int)
    requires t.entries == KeptPart(orig, p, chargeback, cents).entries && t.bitsPerUsd == cfg.bitsPerUsd
    ensures FxMirror(t) && PromoIsolated(t) && (t.entries != [] ==> Cleared(t, p) == cents)
    ensures forall c: Currency :: SumOf(t.entries, c) == 0
    ensures forall x: Account :: Guarded(x.kind) || Spendable(x) ==> Delta(t.entries, x) == 0
    ensures !Touches(t, PayoutsPending) && !Touches(t, ProjectPayable) && !Touches(t, PromoCredit) && !Touches(t, PromoReserve)
  {
    hide FxMirror, PromoIsolated, PendingOwned, Touches;
    PlainEntries(t);
    if orig.entries != [] {
      Sums2(Entry(ClearingOf(p, Cents), cents), Entry(if chargeback then LOSS else REFUNDS, -cents));
    } else {
      assert t.entries == [];
    }
    NoFxMirrors(t);
  }

  /** What a reversal of transaction `i` writes, as the invariant reads it. */
  ghost predicate GoodReversal(cfg: Config, s: State, t: Txn, i: nat)
  {
    && Shape(cfg, t) && IsReversal(t) && t.reverses == Some(i) && !t.meta.GiftMeta?
    && (forall c: Currency :: SumOf(t.entries, c) == 0)
    && (forall x: Account :: Guarded(x.kind) ==> Bal(s.ledger, x) + Delta(t.entries, x) >= 0)
    && !Touches(t, PayoutsPending) && !Touches(t, ProjectPayable) && !Touches(t, PromoCredit) && !Touches(t, PromoReserve)
  }

  predicate OriginalOk(orig: Txn, reversal: Option<ReceiptRef>, source: Option<nat>)
  {
    && PaidCents(orig.meta) > 0
    && orig.provider.Some? && orig.provider.value.Gateway?
    && (reversal.Some? ==> !reversal.value.Payment?)
  }

  /** Every partial reversal of a receipt balances in every currency and takes no one below zero. */
  lemma PartShape(cfg: Config, s: State, i: nat, a: ReverseArgs, done: int, cents: int)
    requires NonNegative(s.ledger) && i < |s.ledger.journal| && Shape(cfg, s.ledger.journal[i])
    requires OriginalOk(s.ledger.journal[i], a.reversal, a.source) && KeyMatchesSource(a.key, a.source)
    requires PartOf(cfg, s.ledger, s.ledger.journal[i], a.chargeback, done, cents).Ok?
    requires done >= 0 && cents > 0
    ensures GoodReversal(cfg, s, ReversalTxn(cfg, s.ledger.journal[i], i, a,
              PartOf(cfg, s.ledger, s.ledger.journal[i], a.chargeback, done, cents).value), i)
  {
    hide FxMirror, PromoIsolated, PendingOwned, Touches, BitsPart, NanoPart, ValueCents, Cleared, SumOf, Delta, Clawed, ClawedNano;
    var orig := s.ledger.journal[i];
    var part := PartOf(cfg, s.ledger, orig, a.chargeback, done, cents).value;
    var t := ReversalTxn(cfg, orig, i, a, part);
    var p := orig.provider.value.provider;
    match orig.meta {
      case PurchaseMeta(_, _, _) =>
        PurchasePartShape(cfg, s.ledger, orig, t, orig.to.value, p, a.chargeback, done, cents);
      case TopupMeta(_, _, _, _) =>
        TopupPartShape(cfg, s.ledger, orig, t, orig.to.value, p, done, cents);
      case _ =>
        KeptPartShape(cfg, orig, t, p, a.chargeback, cents);
    }
    NothingPending(t);
    ReversalShape(cfg, orig, i, a, part, p);
  }

  /** With its entries in order, what ReversalTxn writes around them is well shaped. */
  lemma ReversalShape(cfg: Config, orig: Txn, i: nat, a: ReverseArgs, part: Part, p: Provider)
    requires OriginalOk(orig, a.reversal, a.source) && orig.provider == Some(Gateway(p))
    requires KeyMatchesSource(a.key, a.source)
    requires var t := ReversalTxn(cfg, orig, i, a, part);
      FxMirror(t) && PromoIsolated(t) && PendingOwned(t)
      && match part.meta
         case ReversalMeta(cents, _, _) => cents > 0 && (t.entries != [] ==> Cleared(t, p) == cents)
         case TopupReversalMeta(cents, _, _) => cents > 0 && Cleared(t, p) == cents * NANO_PER_CENT
         case _ => false
    ensures Shape(cfg, ReversalTxn(cfg, orig, i, a, part))
  {
    hide FxMirror, PromoIsolated, PendingOwned, Cleared;
  }

  /** The part's own numbers: what the totals add up. */
  lemma PartNumbers(cfg: Config, l: Ledger, orig: Txn, chargeback: bool, done: int, cents: int)
    requires PaidCents(orig.meta) > 0 && PartOf(cfg, l, orig, chargeback, done, cents).Ok?
    ensures var m := PartOf(cfg, l, orig, chargeback, done, cents).value.meta;
      && ReversalCents(m) == cents
      && (orig.meta.PurchaseMeta? ==> m.ReversalMeta? && m.bitsReversed == BitsPart(orig.meta.bits, orig.meta.paidCents, done, cents))
      && (orig.meta.TopupMeta? ==> m.TopupReversalMeta? && m.clawedNano + m.debtNano == NanoPart(orig.meta.amountNano, orig.meta.paidCents, done, cents))
  {
    hide BitsPart, NanoPart, ValueCents;
  }

  /** Telescoping: adding one part to the totals of the parts before it gives the totals of both. */
  lemma PartTotals(l: Ledger, stored: Txn, i: nat, cents: int)
    requires TotalsOk(l) && i < |l.journal| && PaidCents(l.journal[i].meta) > 0
    requires forall k :: 0 <= k < |l.journal| && l.journal[k].reverses.Some? ==> l.journal[k].reverses.value < k
    requires IsReversal(stored) && stored.reverses == Some(i) && !stored.meta.GiftMeta? && ReversalCents(stored.meta) == cents
    requires 0 < cents <= PaidCents(l.journal[i].meta) - ReversedCents(l.journal, i)
    requires var orig, done := l.journal[i], ReversedCents(l.journal, i);
      && (orig.meta.PurchaseMeta? ==> stored.meta.ReversalMeta? && stored.meta.bitsReversed == BitsPart(orig.meta.bits, orig.meta.paidCents, done, cents))
      && (orig.meta.TopupMeta? ==>
            (stored.meta.TopupReversalMeta?
             && stored.meta.clawedNano + stored.meta.debtNano == NanoPart(orig.meta.amountNano, orig.meta.paidCents, done, cents)))
    ensures TotalsOk(Ledger(l.journal + [stored], l.balances))
  {
    var j := l.journal + [stored];
    forall k | 0 <= k < |j| ensures TotalsAt(j, k) {
      if k == |l.journal| {
        TotalsAtFresh(l.journal, stored);
      } else if k != i {
        TotalsAtKept(l.journal, stored, k);
      } else {
        TotalsAtPart(l.journal, stored, i, cents);
      }
    }
  }

  lemma TotalsAtPart(j: seq<Txn>, stored: Txn, i: nat, cents: int)
    requires i < |j| && PaidCents(j[i].meta) > 0 && TotalsAt(j, i)
    requires IsReversal(stored) && stored.reverses == Some(i) && ReversalCents(stored.meta) == cents
    requires 0 < cents <= PaidCents(j[i].meta) - ReversedCents(j, i)
    requires var orig, done := j[i], ReversedCents(j, i);
      && (orig.meta.PurchaseMeta? ==> stored.meta.ReversalMeta? && stored.meta.bitsReversed == BitsPart(orig.meta.bits, orig.meta.paidCents, done, cents))
      && (orig.meta.TopupMeta? ==>
            (stored.meta.TopupReversalMeta?
             && stored.meta.clawedNano + stored.meta.debtNano == NanoPart(orig.meta.amountNano, orig.meta.paidCents, done, cents)))
    ensures TotalsAt(j + [stored], i)
  {
    hide RoundDiv, ReversedCents, ReversedBits, ReversedNano, RefundedBits;
    AppendTotals(j, stored, i);
    assert (j + [stored])[i] == j[i];
  }

  /** Fully reversed, a purchase gave back exactly its bits and a top-up exactly its amount. */
  lemma FullyReversed(cfg: Config, s: State, i: nat)
    requires Inv(cfg, s) && i < |s.ledger.journal|
    requires PaidCents(s.ledger.journal[i].meta) > 0 && ReversedCents(s.ledger.journal, i) == PaidCents(s.ledger.journal[i].meta)
    ensures s.ledger.journal[i].meta.PurchaseMeta? ==> ReversedBits(s.ledger.journal, i) == s.ledger.journal[i].meta.bits
    ensures s.ledger.journal[i].meta.TopupMeta? ==> ReversedNano(s.ledger.journal, i) == s.ledger.journal[i].meta.amountNano
  {
    hide JournalOk, PayoutsOk, PeriodsCharged, RenewalsOk, PromoOk, RatingOk, VibesOk, HoldRowsOk, SubsOk;
    assert TotalsAt(s.ledger.journal, i);
    var m := s.ledger.journal[i].meta;
    if m.PurchaseMeta? { RoundExact(m.bits, m.paidCents); }
    if m.TopupMeta? { DivShift(0, m.amountNano, m.paidCents); }
  }

  // ------------------------------------------------------------------ what reversing keeps

  /** The other parts do not read the intents. */
  lemma IntentsApart(cfg: Config, s: State, intent: Option<nat>)
    requires Inv(cfg, s)
    ensures Inv(cfg, MarkRefunded(s, intent))
  {
    hide JournalOk, NonNegative, PayoutsOk, PeriodsCharged, SubsOk, RenewalsOk, PromoOk, RatingOk, TotalsOk, VibesOk, HoldRowsOk;
    Frame(cfg, s, MarkRefunded(s, intent));
  }

  /** After the reversal of a subscription payment, revoking its periods squares them with the journal again. */
  lemma RevokedCharged(cfg: Config, s: State, t: Txn, i: nat, reason: RevokeReason)
    requires JournalOk(cfg, s.ledger) && PeriodsCharged(s) && SubsOk(cfg, s) && Post(s.ledger, t).Posted?
    requires IsReversal(t) && t.reverses == Some(i)
    ensures PeriodsCharged(RevokeFrom(s.(ledger := Post(s.ledger, t).ledger), i, reason, 0))
  {
    hide Shape, SubsOk;
    var stored := Appended(s.ledger, t);
    HasReversalAppend(s.ledger.journal, stored);
    var s1 := s.(ledger := Post(s.ledger, t).ledger);
    SubsLedger(cfg, s, s1);
    RevokeFromKeeps(cfg, s1, i, reason, 0);
  }

  lemma SubsLedger(cfg: Config, s: State, s': State)
    requires s' == s.(ledger := s'.ledger) && SubsOk(cfg, s)
    ensures SubsOk(cfg, s')
  {
  }

  /** A well-shaped reversal whose part fits the totals keeps the invariant, periods revoked or not. */
  lemma ReversalKeeps(cfg: Config, s: State, t: Txn, i: nat, reason: RevokeReason, s': State)
    requires Inv(cfg, s) && Post(s.ledger, t).Posted?
    requires i < |s.ledger.journal| && GoodReversal(cfg, s, t, i) && PlainKey(t.key)
    requires TotalsOk(Post(s.ledger, t).ledger)
    requires s' == if s.ledger.journal[i].ty == Subscription then RevokeFrom(s.(ledger := Post(s.ledger, t).ledger), i, reason, 0)
                   else s.(ledger := Post(s.ledger, t).ledger)
    ensures Inv(cfg, s')
  {
    hide JournalOk, PayoutsOk, PeriodsCharged, RenewalsOk, PromoOk, RatingOk, TotalsOk, VibesOk, HoldRowsOk, SubsOk, Touches, Shape;
    PostKeeps(cfg, s, t);
    BooksOf(cfg, s.ledger);
    FundsKept(s.ledger, t);
    var s1 := s.(ledger := Post(s.ledger, t).ledger);
    if s.ledger.journal[i].ty == Subscription {
      RevokedCharged(cfg, s, t, i, reason);
      RevokeFromKeeps(cfg, s1, i, reason, 0);
      SubsApart(cfg, s1, s');
    }
  }

  lemma OriginalOf(cfg: Config, l: Ledger, i: nat, a: ReverseArgs)
    requires JournalOk(cfg, l) && TotalsOk(l) && i < |l.journal| && l.journal[i].receipt == Some(a.original)
    requires PaidCents(l.journal[i].meta) > 0 && (a.reversal.Some? ==> !a.reversal.value.Payment?)
    ensures OriginalOk(l.journal[i], a.reversal, a.source) && Shape(cfg, l.journal[i])
    ensures 0 <= ReversedCents(l.journal, i) <= PaidCents(l.journal[i].meta)
  {
    hide FxMirror, PromoIsolated;
    assert TotalsAt(l.journal, i);
  }

  lemma ReverseKeeps(cfg: Config, s: State, a: ReverseArgs)
    requires Inv(cfg, s) && Reverse(cfg, s, a).Done?
    requires PlainKey(a.key) && KeyMatchesSource(a.key, a.source) && (a.reversal.Some? ==> !a.reversal.value.Payment?)
    ensures Inv(cfg, Reverse(cfg, s, a).state)
  {
    hide JournalOk, NonNegative, PayoutsOk, PeriodsCharged, RenewalsOk, PromoOk, RatingOk, TotalsOk, VibesOk, HoldRowsOk, SubsOk,
         Shape, PartOf, RevokeFrom, Post, OriginalOk, GoodReversal;
    var j := s.ledger.journal;
    var found := FindReceipt(j, a.original);
    if KnownReversal(j, a.key, a.reversal).None? && Reverse(cfg, s, a).value.Answered? {
      var i, orig := found.value, j[found.value];
      var paid, done := PaidCents(orig.meta), ReversedCents(j, i);
      var cents := CentsNow(a.ask, paid, done);
      OriginalOf(cfg, s.ledger, i, a);
      PartShape(cfg, s, i, a, done, cents);
      var part := PartOf(cfg, s.ledger, orig, a.chargeback, done, cents).value;
      PartNumbers(cfg, s.ledger, orig, a.chargeback, done, cents);
      var t := ReversalTxn(cfg, orig, i, a, part);
      FreshPosts(s.ledger, t);
      ReversalTotals(cfg, s, t, i, cents);
      var reason := if a.chargeback then ForChargeback else ForRefund;
      var s1 := s.(ledger := Post(s.ledger, t).ledger);
      var s2 := if orig.ty == Subscription then RevokeFrom(s1, i, reason, 0) else s1;
      ReversalKeeps(cfg, s, t, i, reason, s2);
      IntentsApart(cfg, s2, IntentIn(orig.meta));
    }
  }

  lemma ReversalTotals(cfg: Config, s: State, t: Txn, i: nat, cents: int)
    requires JournalOk(cfg, s.ledger) && TotalsOk(s.ledger) && Post(s.ledger, t).Posted?
    requires i < |s.ledger.journal| && PaidCents(s.ledger.journal[i].meta) > 0 && GoodReversal(cfg, s, t, i)
    requires 0 < cents <= PaidCents(s.ledger.journal[i].meta) - ReversedCents(s.ledger.journal, i) && ReversalCents(t.meta) == cents
    requires var orig, done := s.ledger.journal[i], ReversedCents(s.ledger.journal, i);
      && (orig.meta.PurchaseMeta? ==> t.meta.ReversalMeta? && t.meta.bitsReversed == BitsPart(orig.meta.bits, orig.meta.paidCents, done, cents))
      && (orig.meta.TopupMeta? ==>
            (t.meta.TopupReversalMeta? && t.meta.clawedNano + t.meta.debtNano == NanoPart(orig.meta.amountNano, orig.meta.paidCents, done, cents)))
    ensures TotalsOk(Post(s.ledger, t).ledger)
    ensures ReversedCents(Post(s.ledger, t).ledger.journal, i) == ReversedCents(s.ledger.journal, i) + cents
  {
    hide Shape, TotalsOk, BitsPart, NanoPart, Touches;
    BackRefs(cfg, s.ledger);
    var stored := Appended(s.ledger, t);
    PartTotals(s.ledger, stored, i, cents);
    AppendTotals(s.ledger.journal, stored, i);
    TotalsOfJournal(Ledger(s.ledger.journal + [stored], s.ledger.balances), Post(s.ledger, t).ledger);
  }

  lemma PeriodRefundDeltas(cfg: Config, l: Ledger, orig: Txn, a: PeriodRefundArgs)
    requires orig.meta.CreditPeriodMeta? && orig.from.Some? && orig.to.Some?
    ensures var t := PeriodRefundTxn(cfg, l, orig, a);
      var clawed := Clawed(Bal(l, PayableOf(orig.to.value)), orig.meta.shareBits);
      && Delta(t.entries, FX_BITS) == -(orig.meta.shareBits - clawed)
      && Delta(t.entries, FX_CENTS) == ValueCents(cfg, orig.meta.shareBits - clawed)
      && (forall c: Currency :: SumOf(t.entries, c) == 0)
      && (forall x: Account :: Guarded(x.kind) ==>
            Delta(t.entries, x)
            == if x == CreditOf(orig.from.value) then orig.meta.costBits else if x == PayableOf(orig.to.value) then -clawed else 0)
      && PromoIsolated(t) && PendingOwned(t)
      && !Touches(t, PayoutsPending) && !Touches(t, ProjectPayable) && !Touches(t, PromoCredit) && !Touches(t, PromoReserve)
  {
    hide ValueCents, Clawed, PromoIsolated, PendingOwned, Touches;
    var t := PeriodRefundTxn(cfg, l, orig, a);
    PlainEntries(t);
    var e := t.entries;
    assert e == [e[0], e[1], e[2], e[3], e[4], e[5]];
    Sums6(e[0], e[1], e[2], e[3], e[4], e[5]);
  }

  lemma PeriodRefundShape(cfg: Config, s: State, orig: Txn, a: PeriodRefundArgs)
    requires NonNegative(s.ledger) && Shape(cfg, orig) && orig.meta.CreditPeriodMeta? && !a.key.Delivered?
    ensures GoodReversal(cfg, s, PeriodRefundTxn(cfg, s.ledger, orig, a), a.txn)
  {
    hide PromoIsolated, PendingOwned, Touches, ValueCents, FxMirror, SumOf;
    var t := PeriodRefundTxn(cfg, s.ledger, orig, a);
    PeriodRefundDeltas(cfg, s.ledger, orig, a);
    NoValue(cfg);
    FxMirrors(cfg, t, -(orig.meta.shareBits - Clawed(Bal(s.ledger, PayableOf(orig.to.value)), orig.meta.shareBits)));
  }

  lemma RefundPeriodKeeps(cfg: Config, s: State, a: PeriodRefundArgs)
    requires Inv(cfg, s) && RefundPeriod(cfg, s, a).Done? && PlainKey(a.key) && !a.key.Delivered?
    ensures Inv(cfg, RefundPeriod(cfg, s, a).state)
  {
    hide JournalOk, NonNegative, PayoutsOk, PeriodsCharged, RenewalsOk, PromoOk, RatingOk, TotalsOk, VibesOk, HoldRowsOk, SubsOk,
         Shape, RevokeFrom, Post, GoodReversal, HasReversal, Granting;
    var j := s.ledger.journal;
    if FindKey(j, a.key).None? && RefundPeriod(cfg, s, a).value.Answered? {
      var orig := j[a.txn];
      ShapeOf(cfg, s.ledger, a.txn);
      PeriodRefundShape(cfg, s, orig, a);
      var t := PeriodRefundTxn(cfg, s.ledger, orig, a);
      FreshPosts(s.ledger, t);
      RefundTotals(cfg, s, t, a.txn);
      var s2 := RevokeFrom(s.(ledger := Post(s.ledger, t).ledger), a.txn, ForRefund, 0);
      ReversalKeeps(cfg, s, t, a.txn, ForRefund, s2);
      IntentsApart(cfg, s2, orig.meta.intent);
    }
  }

  lemma RefundTotals(cfg: Config, s: State, t: Txn, i: nat)
    requires JournalOk(cfg, s.ledger) && TotalsOk(s.ledger) && Post(s.ledger, t).Posted?
    requires i < |s.ledger.journal| && s.ledger.journal[i].meta.CreditPeriodMeta? && t.reverses == Some(i) && t.meta.PeriodRefundMeta?
    ensures TotalsOk(Post(s.ledger, t).ledger)
  {
    hide Shape, TotalsOk;
    TotalsKept(cfg, s.ledger, t);
  }

  /** A period paid from credit is refunded at most once, whatever the keys: the second call is a no-op. */
  lemma PeriodRefundedOnce(cfg: Config, s: State, a: PeriodRefundArgs, again: PeriodRefundArgs)
    requires Inv(cfg, s)
    requires RefundPeriod(cfg, s, a).Done? && RefundPeriod(cfg, s, a).value.Answered? && !RefundPeriod(cfg, s, a).value.replay
    requires again.txn == a.txn && FindKey(RefundPeriod(cfg, s, a).state.ledger.journal, again.key).None?
    requires RefundPeriod(cfg, RefundPeriod(cfg, s, a).state, again).Done?
    ensures RefundPeriod(cfg, RefundPeriod(cfg, s, a).state, again) == Done(RefundPeriod(cfg, s, a).state, AlreadyDone)
  {
    hide JournalOk, NonNegative, PayoutsOk, PeriodsCharged, RenewalsOk, PromoOk, RatingOk, TotalsOk, VibesOk, HoldRowsOk, SubsOk,
         Shape, Granting, PeriodRefundTxn, RevokeFrom;
    var orig := s.ledger.journal[a.txn];
    var t := PeriodRefundTxn(cfg, s.ledger, orig, a);
    BooksOf(cfg, s.ledger);
    RefundRefers(cfg, s, orig, a);
    FreshPosts(s.ledger, t);
    var stored := Appended(s.ledger, t);
    HasReversalAppend(s.ledger.journal, stored);
    var s1 := s.(ledger := Post(s.ledger, t).ledger);
    SubsLedger(cfg, s, s1);
    RevokeFromKeeps(cfg, s1, a.txn, ForRefund, 0);
    assert RefundPeriod(cfg, s, a).state.ledger.journal == s.ledger.journal + [stored];
  }

  lemma RefundRefers(cfg: Config, s: State, orig: Txn, a: PeriodRefundArgs)
    requires orig.meta.CreditPeriodMeta? && orig.from.Some? && orig.to.Some?
    ensures var t := PeriodRefundTxn(cfg, s.ledger, orig, a); IsReversal(t) && t.reverses == Some(a.txn) && t.key == a.key
  {
  }

  // ------------------------------------------------------------------ cumulative notices

  /** A notice moves the total to the larger of what is done and what it says, never past what was paid. */
  lemma NoticeMoves(cfg: Config, s: State, a: ReverseArgs)
    requires Inv(cfg, s) && a.ask.Cumulative? && Reverse(cfg, s, a).Done?
    requires PlainKey(a.key) && KeyMatchesSource(a.key, a.source) && (a.reversal.Some? ==> !a.reversal.value.Payment?)
    requires KnownReversal(s.ledger.journal, a.key, a.reversal).None?
    ensures var i := FindReceipt(s.ledger.journal, a.original).value;
      && FindReceipt(s.ledger.journal, a.original).Some?
      && i < |Reverse(cfg, s, a).state.ledger.journal| && Reverse(cfg, s, a).state.ledger.journal[i] == s.ledger.journal[i]
      && (PaidCents(s.ledger.journal[i].meta) > 0 ==>
            ReversedCents(Reverse(cfg, s, a).state.ledger.journal, i)
            == Max(ReversedCents(s.ledger.journal, i), Min(PaidCents(s.ledger.journal[i].meta), a.ask.total)))
  {
    hide JournalOk, NonNegative, PayoutsOk, PeriodsCharged, RenewalsOk, PromoOk, RatingOk, TotalsOk, VibesOk, HoldRowsOk, SubsOk,
         Shape, PartOf, RevokeFrom, Post, OriginalOk, GoodReversal, ReversedCents, IsReversal, FindKey;
    var j := s.ledger.journal;
    var i := FindReceipt(j, a.original).value;
    var orig := j[i];
    var paid, done := PaidCents(orig.meta), ReversedCents(j, i);
    var cents := CentsNow(a.ask, paid, done);
    if paid > 0 { OriginalOf(cfg, s.ledger, i, a); }
    if cents > 0 {
      PartShape(cfg, s, i, a, done, cents);
      var part := PartOf(cfg, s.ledger, orig, a.chargeback, done, cents).value;
      PartNumbers(cfg, s.ledger, orig, a.chargeback, done, cents);
      var t := ReversalTxn(cfg, orig, i, a, part);
      FreshPosts(s.ledger, t);
      ReversalTotals(cfg, s, t, i, cents);
      BooksOf(cfg, s.ledger);
      PostedPrefix(s.ledger, t);
      var s1 := s.(ledger := Post(s.ledger, t).ledger);
      SubsLedger(cfg, s, s1);
      RevokeFromKeeps(cfg, s1, i, if a.chargeback then ForChargeback else ForRefund, 0);
    }
  }

  lemma PostedPrefix(l: Ledger, t: Txn)
    requires Books(l) && Post(l, t).Posted?
    ensures |Post(l, t).ledger.journal| == |l.journal| + 1
    ensures forall k :: 0 <= k < |l.journal| ==> Post(l, t).ledger.journal[k] == l.journal[k]
  {
    var stored := Appended(l, t);
  }

  /** A notice as a provider sends it: the same notice again is recognised by its key. */
  ghost predicate Notice(a: ReverseArgs, original: ReceiptRef)
  {
    a.original == original && a.ask.Cumulative? && PlainKey(a.key) && KeyMatchesSource(a.key, a.source)
    && (a.reversal.Some? ==> !a.reversal.value.Payment?)
  }

  function RunNotices(cfg: Config, s: State, ns: seq<ReverseArgs>): State
  {
    if ns == [] then s
    else
      var s1 := RunNotices(cfg, s, ns[..|ns| - 1]);
      match Reverse(cfg, s1, ns[|ns| - 1]) case Done(s2, _) => s2 case Fail(_) => s1
  }

  function LargestSeen(ns: seq<ReverseArgs>, floor: int): int
  {
    if ns == [] then floor
    else
      var r := LargestSeen(ns[..|ns| - 1], floor);
      match ns[|ns| - 1].ask case Cumulative(total) => Max(r, total) case _ => r
  }

  /** Two deliveries of one notice: the same key, or the same reversal of the provider. */
  predicate SameNotice(a: ReverseArgs, b: ReverseArgs)
  {
    a.key == b.key || (a.reversal.Some? && a.reversal == b.reversal)
  }

  /**
   * Notices for receipt i: two deliveries of one notice ask for the same, and one the journal knows
   * before the run asks for no more than has been returned.
   */
  ghost predicate Delivered(s: State, ns: seq<ReverseArgs>, original: ReceiptRef, i: nat)
    requires i < |s.ledger.journal|
  {
    && (forall n :: 0 <= n < |ns| ==>
          && Notice(ns[n], original)
          && (Knows(s, ns[n]) ==> ns[n].ask.total <= ReversedCents(s.ledger.journal, i)))
    && (forall m, n :: 0 <= m < n < |ns| && SameNotice(ns[n], ns[m]) ==> ns[n].ask == ns[m].ask)
  }

  ghost predicate NoneRefused(cfg: Config, s: State, ns: seq<ReverseArgs>)
  {
    forall n :: 0 <= n < |ns| ==> Reverse(cfg, RunNotices(cfg, s, ns[..n]), ns[n]).Done?
  }

  predicate Knows(s: State, a: ReverseArgs) { KnownReversal(s.ledger.journal, a.key, a.reversal).Some? }

  /** What the journal knows after a notice, it knew before, or it is that notice. */
  lemma NoticeKnown(cfg: Config, s: State, b: ReverseArgs, a: ReverseArgs)
    requires JournalOk(cfg, s.ledger) && Reverse(cfg, s, b).Done? && Knows(Reverse(cfg, s, b).state, a)
    ensures Knows(s, a) || SameNotice(a, b)
  {
    hide Shape, PartOf, RevokeFrom, Post, CentsNow, ReversedCents, JournalOk;
    BooksOf(cfg, s.ledger);
    var j := s.ledger.journal;
    var r := Reverse(cfg, s, b);
    if r.state.ledger.journal != j {
      var i := FindReceipt(j, b.original).value;
      var cents := CentsNow(b.ask, PaidCents(j[i].meta), ReversedCents(j, i));
      var part := PartOf(cfg, s.ledger, j[i], b.chargeback, ReversedCents(j, i), cents).value;
      var t := ReversalTxn(cfg, j[i], i, b, part);
      FreshPosts(s.ledger, t);
      RevokeElsewhere(s.(ledger := Post(s.ledger, t).ledger), i, if b.chargeback then ForChargeback else ForRefund, 0);
      var stored := Appended(s.ledger, t);
      LastKnown(j, stored, a);
    }
  }

  lemma LastKnown(j: seq<Txn>, t: Txn, a: ReverseArgs)
    requires KnownReversal(j + [t], a.key, a.reversal).Some?
    ensures KnownReversal(j, a.key, a.reversal).Some? || t.key == a.key || (a.reversal.Some? && t.receipt == a.reversal)
  {
    assert (j + [t])[..|j|] == j;
  }

  /** A run leaves the journal knowing only what it knew and the notices of the run. */
  lemma {:induction false} RunKnows(cfg: Config, s: State, ns: seq<ReverseArgs>, original: ReceiptRef, a: ReverseArgs)
    requires Inv(cfg, s) && forall n :: 0 <= n < |ns| ==> Notice(ns[n], original)
    ensures Inv(cfg, RunNotices(cfg, s, ns))
    ensures Knows(RunNotices(cfg, s, ns), a) ==> Knows(s, a) || exists m :: 0 <= m < |ns| && SameNotice(a, ns[m])
    decreases |ns|
  {
    hide Inv, Reverse, Knows, SameNotice;
    if ns != [] {
      var init, b := ns[..|ns| - 1], ns[|ns| - 1];
      assert forall n :: 0 <= n < |init| ==> init[n] == ns[n];
      RunKnows(cfg, s, init, original, a);
      var s1 := RunNotices(cfg, s, init);
      if Reverse(cfg, s1, b).Done? {
        ReverseKeeps(cfg, s1, b);
        InvJournal(cfg, s1);
        if Knows(Reverse(cfg, s1, b).state, a) { NoticeKnown(cfg, s1, b, a); }
      }
    }
  }

  lemma InvJournal(cfg: Config, s: State)
    requires Inv(cfg, s)
    ensures JournalOk(cfg, s.ledger)
  {
  }

  lemma {:induction false} LargestIsSeen(ns: seq<ReverseArgs>, floor: int, m: nat)
    requires m < |ns| && ns[m].ask.Cumulative?
    ensures ns[m].ask.total <= LargestSeen(ns, floor)
  {
    if m < |ns| - 1 { LargestIsSeen(ns[..|ns| - 1], floor, m); }
  }

  lemma {:induction false} FloorIsSeen(ns: seq<ReverseArgs>, floor: int)
    ensures floor <= LargestSeen(ns, floor)
  {
    if ns != [] { FloorIsSeen(ns[..|ns| - 1], floor); }
  }

  /**
   * Whatever the order of the notices and however often each is repeated, what has been
   * returned is the largest cumulative amount seen, never more than was paid.
   */
  lemma {:induction false} NoticesCommute(cfg: Config, s: State, ns: seq<ReverseArgs>, original: ReceiptRef, i: nat)
    requires Inv(cfg, s) && FindReceipt(s.ledger.journal, original) == Some(i) && PaidCents(s.ledger.journal[i].meta) > 0
    requires Delivered(s, ns, original, i) && NoneRefused(cfg, s, ns)
    ensures var s' := RunNotices(cfg, s, ns);
      && Inv(cfg, s')
      && FindReceipt(s'.ledger.journal, original) == Some(i)
      && s'.ledger.journal[i] == s.ledger.journal[i]
      && ReversedCents(s'.ledger.journal, i)
         == Min(PaidCents(s.ledger.journal[i].meta), LargestSeen(ns, ReversedCents(s.ledger.journal, i)))
    decreases |ns|
  {
    hide Inv, Reverse, Knows, Delivered, NoneRefused, Notice;
    ReversedWithin(cfg, s, i);
    if ns != [] {
      var init, a := ns[..|ns| - 1], ns[|ns| - 1];
      LastDelivered(cfg, s, ns, original, i);
      NoticesCommute(cfg, s, init, original, i);
      NoticeStep(cfg, RunNotices(cfg, s, init), a, original, i);
    }
  }

  /** The last notice of a run, and the run before it: a known last notice asks for nothing new. */
  lemma LastDelivered(cfg: Config, s: State, ns: seq<ReverseArgs>, original: ReceiptRef, i: nat)
    requires Inv(cfg, s) && i < |s.ledger.journal| && Delivered(s, ns, original, i) && NoneRefused(cfg, s, ns) && ns != []
    ensures var init, a := ns[..|ns| - 1], ns[|ns| - 1];
      var s1 := RunNotices(cfg, s, init);
      && Delivered(s, init, original, i) && NoneRefused(cfg, s, init)
      && Notice(a, original) && a.ask.Cumulative? && Reverse(cfg, s1, a).Done?
      && (Knows(s1, a) ==> a.ask.total <= LargestSeen(init, ReversedCents(s.ledger.journal, i)))
  {
    hide Inv, Reverse, Knows, RunNotices, LargestSeen, SameNotice;
    var init, a, floor := ns[..|ns| - 1], ns[|ns| - 1], ReversedCents(s.ledger.journal, i);
    assert forall n :: 0 <= n < |init| ==> init[..n] == ns[..n] && init[n] == ns[n];
    assert Notice(a, original);
    if Knows(RunNotices(cfg, s, init), a) {
      RunKnows(cfg, s, init, original, a);
      FloorIsSeen(init, floor);
      if !Knows(s, a) {
        var m :| 0 <= m < |init| && SameNotice(a, init[m]);
        assert init[m].ask == a.ask;
        LargestIsSeen(init, floor, m);
      }
    }
  }

  /** One notice: a known one changes nothing, a new one moves the total as NoticeMoves says. */
  lemma NoticeStep(cfg: Config, s: State, a: ReverseArgs, original: ReceiptRef, i: nat)
    requires Inv(cfg, s) && Notice(a, original) && Reverse(cfg, s, a).Done?
    requires FindReceipt(s.ledger.journal, original) == Some(i) && PaidCents(s.ledger.journal[i].meta) > 0
    ensures var s' := Reverse(cfg, s, a).state;
      && Inv(cfg, s')
      && FindReceipt(s'.ledger.journal, original) == Some(i)
      && s'.ledger.journal[i] == s.ledger.journal[i]
      && ReversedCents(s'.ledger.journal, i)
         == if Knows(s, a) then ReversedCents(s.ledger.journal, i)
            else Max(ReversedCents(s.ledger.journal, i), Min(PaidCents(s.ledger.journal[i].meta), a.ask.total))
  {
    hide Inv, Reverse, KnownReversal;
    ReverseKeeps(cfg, s, a);
    if KnownReversal(s.ledger.journal, a.key, a.reversal).Some? {
      KnownIsNoop(cfg, s, a);
    } else {
      NoticeMoves(cfg, s, a);
      ReceiptStays(cfg, Reverse(cfg, s, a).state, original, i);
    }
  }

  lemma KnownIsNoop(cfg: Config, s: State, a: ReverseArgs)
    requires KnownReversal(s.ledger.journal, a.key, a.reversal).Some?
    ensures Reverse(cfg, s, a).Done? && Reverse(cfg, s, a).state == s
  {
  }

  lemma ReversedWithin(cfg: Config, s: State, i: nat)
    requires Inv(cfg, s) && i < |s.ledger.journal| && PaidCents(s.ledger.journal[i].meta) > 0
    ensures 0 <= ReversedCents(s.ledger.journal, i) <= PaidCents(s.ledger.journal[i].meta)
  {
    assert TotalsAt(s.ledger.journal, i);
  }

  lemma ReceiptStays(cfg: Config, s: State, original: ReceiptRef, i: nat)
    requires Inv(cfg, s) && i < |s.ledger.journal| && s.ledger.journal[i].receipt == Some(original)
    ensures FindReceipt(s.ledger.journal, original) == Some(i)
  {
    hide Shape;
    var f := FindReceipt(s.ledger.journal, original);
    assert f.Some?;
  }

  /** Two runs that saw the same largest notice agree on the cents and on the bits taken back. */
  lemma NoticesAgree(cfg: Config, s: State, ns: seq<ReverseArgs>, ms: seq<ReverseArgs>, original: ReceiptRef, i: nat)
    requires Inv(cfg, s)
    requires FindReceipt(s.ledger.journal, original) == Some(i) && s.ledger.journal[i].meta.PurchaseMeta? && PaidCents(s.ledger.journal[i].meta) > 0
    requires Delivered(s, ns, original, i) && Delivered(s, ms, original, i) && NoneRefused(cfg, s, ns) && NoneRefused(cfg, s, ms)
    requires LargestSeen(ns, ReversedCents(s.ledger.journal, i)) == LargestSeen(ms, ReversedCents(s.ledger.journal, i))
    ensures var a, b := RunNotices(cfg, s, ns).ledger.journal, RunNotices(cfg, s, ms).ledger.journal;
      ReversedCents(a, i) == ReversedCents(b, i) && ReversedBits(a, i) == ReversedBits(b, i)
  {
    hide JournalOk, PayoutsOk, PeriodsCharged, RenewalsOk, PromoOk, RatingOk, VibesOk, HoldRowsOk, SubsOk, Delivered, NoneRefused;
    NoticesCommute(cfg, s, ns, original, i);
    NoticesCommute(cfg, s, ms, original, i);
    assert TotalsAt(RunNotices(cfg, s, ns).ledger.journal, i);
    assert TotalsAt(RunNotices(cfg, s, ms).ledger.journal, i);
  }
}
