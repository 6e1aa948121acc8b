/**
 * When each operation goes through: on a call that is not a repetition, exactly under these
 * conditions, unless a balance would leave the exact integers.
 */
module Admission {
  import opened Basics
  import opened Schema
  import opened Journal
  import opened Rates
  import opened Common
  import opened Invariants
  import opened Purchases
  import opened Topups
  import opened Transfers
  import opened Cashouts
  import opened Subscriptions
  import opened Reversals
  import opened Promo
  import opened Rating
  import opened Credits
  import opened Balance
  import opened Vibes
  import opened Effects
  import opened Movements
  import opened Memberships
  import opened Recoveries
  import opened Rows

  predicate Goes<T(==)>(r: Step<T>) { r.Done? || r.error == AmountOverflow }

  // ------------------------------------------------------------------ money in

  /** The intent a purchase names is one of the provider's purchase checkouts, for the person the payment names, if it does. */
  predicate IntentFits(s: State, a: SettleArgs)
  {
    a.intent.Some? ==>
      && a.intent.value < |s.intents| && var i := s.intents[a.intent.value];
      && i.kind == PurchaseIntent && i.provider == a.provider && (a.subject.Some? ==> a.subject.value == i.subject)
  }

  predicate IntentPaid(s: State, a: SettleArgs)
  {
    a.intent.Some? && a.intent.value < |s.intents| && s.intents[a.intent.value].status == IntentSettled && s.intents[a.intent.value].settledTxn.Some?
  }

  /** What the payment buys: the package, the explicit bits, or what the tiers give. */
  function Offer(cfg: Config, s: State, a: SettleArgs): int
    requires ValidTiers(cfg)
  {
    if a.intent.Some? && a.intent.value < |s.intents| && s.intents[a.intent.value].bits != 0
       && a.paidCents >= s.intents[a.intent.value].amountCents - 1 then s.intents[a.intent.value].bits
    else if a.bits.Some? then a.bits.value
    else BitsForPriceCents(cfg, a.paidCents)
  }

  lemma PurchaseAccepted(cfg: Config, s: State, a: SettleArgs)
    requires ValidTiers(cfg) && FindKey(s.ledger.journal, a.key).None? && FindReceipt(s.ledger.journal, Payment(a.provider, a.payment)).None?
    ensures Goes(Settle(cfg, s, a)) <==>
      && 0 < a.paidCents <= MAX_RECEIPT_CENTS && IntentFits(s, a)
      && (IntentPaid(s, a) || ((a.intent.Some? || a.subject.Some?) && 0 < Offer(cfg, s, a) <= cfg.maxBits && ValueCents(cfg, Offer(cfg, s, a)) <= a.paidCents))
  {
    hide Post, ValidTiers, BitsForPriceCents, ValueCents, ReceiptEntries;
    var subject := if a.intent.Some? && a.intent.value < |s.intents| then Some(s.intents[a.intent.value].subject) else a.subject;
    if subject.Some? {
      ReceiptSums(cfg, a.provider, a.paidCents, Offer(cfg, s, a), CreditOf(subject.value));
      BalancedPosts(s.ledger, PurchaseTxn(cfg, a, subject.value, Offer(cfg, s, a)));
    }
  }

  lemma ReceiptSums(cfg: Config, p: Provider, paid: int, bits: int, target: Account)
    requires target.currency == Bits
    ensures forall c: Currency :: SumOf(ReceiptEntries(cfg, p, paid, bits, target), c) == 0
  {
    hide ValueCents;
    var e := ReceiptEntries(cfg, p, paid, bits, target);
    assert e == [e[0], e[1], e[2], e[3], e[4]];
    Sums5(e[0], e[1], e[2], e[3], e[4]);
  }

  /** While top-ups are closed their events are skipped; while they are open a payment settles for what its intent asked. */
  lemma TopupAccepted(cfg: Config, s: State, a: TopupArgs)
    requires FindKey(s.ledger.journal, a.key).None? && FindReceipt(s.ledger.journal, Payment(a.provider, a.payment)).None?
    ensures !(cfg.creditsOpen && cfg.topupOpen) ==> SettleTopup(cfg, s, a) == Done(s, Skipped)
    ensures cfg.creditsOpen && cfg.topupOpen ==> (Goes(SettleTopup(cfg, s, a)) <==>
      && a.intent.Some? && a.intent.value < |s.intents| && var i := s.intents[a.intent.value];
      && i.kind == TopupIntent && i.provider == a.provider
      && ((i.status == IntentSettled && i.settledTxn.Some?)
          || (0 < a.paidCents <= MAX_RECEIPT_CENTS && i.amountCents <= a.paidCents && 0 < i.topupCents <= SAFE)))
  {
    hide Post;
    if a.intent.Some? && a.intent.value < |s.intents| {
      var t := TopupTxn(a, s.intents[a.intent.value]);
      Sums3(t.entries[0], t.entries[1], t.entries[2]);
      assert t.entries == [t.entries[0], t.entries[1], t.entries[2]];
      BalancedPosts(s.ledger, t);
    }
  }

  lemma TipAccepted(cfg: Config, s: State, a: TipArgs, bits: int)
    requires FindKey(s.ledger.journal, a.key).None? && FindReceipt(s.ledger.journal, Payment(a.provider, a.payment)).None?
    requires WorthNearest(cfg, bits, a.paidCents)
    ensures Goes(TipFromReceipt(cfg, s, a)) <==> 0 < a.paidCents <= MAX_RECEIPT_CENTS && a.from != Some(a.to) && ValueCents(cfg, bits) <= a.paidCents
  {
    hide Post, ValueCents, BitsForValueCents, WorthNearest, ReceiptEntries;
    BitsAreNearest(cfg, a.paidCents);
    NearestOnce(cfg, bits, BitsForValueCents(cfg, a.paidCents), a.paidCents);
    ReceiptSums(cfg, a.provider, a.paidCents, bits, PayableOf(a.to));
    BalancedPosts(s.ledger, TipTxn(cfg, a));
  }

  // ------------------------------------------------------------------ gifts and cashouts

  lemma PairPosts(l: Ledger, t: Txn, x: Account, y: Account, n: int)
    requires FindKey(l.journal, t.key).None? && t.receipt.None? && t.entries == [Entry(x, -n), Entry(y, n)] && x.currency == y.currency
    ensures Post(l, t).Posted? || Post(l, t) == Failed(AmountOverflow)
  {
    Sums2(Entry(x, -n), Entry(y, n));
    BalancedPosts(l, t);
  }

  lemma GiftAccepted(cfg: Config, s: State, a: GiftArgs)
    requires FindKey(s.ledger.journal, a.key).None?
    ensures Goes(Give(cfg, s, a)) <==>
      0 < a.amount <= SAFE && (cfg.maxBits != 0 ==> a.amount <= cfg.maxBits) && a.from != a.to && a.amount <= Bal(s.ledger, CreditOf(a.from))
  {
    hide Post;
    PairPosts(s.ledger, GiftTxn(cfg, a), CreditOf(a.from), PayableOf(a.to), a.amount);
  }

  /** A gift can be refunded for as much as is left of it and its receiver still holds. */
  lemma GiftRefundAccepted(s: State, a: GiftRefundArgs)
    requires FindKey(s.ledger.journal, a.key).None?
    ensures Goes(RefundGift(s, a)) <==>
      && a.txn < |s.ledger.journal| && var t := s.ledger.journal[a.txn];
      && t.ty == Donation && t.meta.GiftMeta? && t.receipt.None? && t.from.Some? && t.to.Some?
      && (a.amount.Some? ==> 0 < a.amount.value <= SAFE)
      && var left := t.meta.amountBits - RefundedBits(s.ledger.journal, a.txn);
         var n := if a.amount.Some? then a.amount.value else left;
         n <= left && n <= Bal(s.ledger, PayableOf(t.to.value))
  {
    hide Post, RefundedBits;
    if a.txn < |s.ledger.journal| {
      var t := s.ledger.journal[a.txn];
      if t.from.Some? && t.to.Some? && t.meta.GiftMeta? {
        var n := if a.amount.Some? then a.amount.value else t.meta.amountBits - RefundedBits(s.ledger.journal, a.txn);
        PairPosts(s.ledger, GiftRefundTxn(t, a, n), PayableOf(t.to.value), CreditOf(t.from.value), n);
      }
    }
  }

  lemma CashoutAccepted(cfg: Config, s: State, a: CashoutArgs)
    requires FindKey(s.ledger.journal, a.key).None?
    ensures Goes(Request(cfg, s, a)) <==>
      && 0 < a.amount <= SAFE && cfg.minCashoutBits <= a.amount && (cfg.maxBits != 0 ==> a.amount <= cfg.maxBits)
      && (a.project.Some? ==> a.ownsProject)
      && a.amount <= Bal(s.ledger, if a.project.Some? then WalletOf(a.project.value) else PayableOf(a.subject))
  {
    hide Post, ValueCents;
    var t := RequestTxn(cfg, a);
    if a.project.Some? {
      Sums4(t.entries[0], t.entries[1], t.entries[2], t.entries[3]);
      assert t.entries == [t.entries[0], t.entries[1], t.entries[2], t.entries[3]];
    } else {
      Sums2(t.entries[0], t.entries[1]);
    }
    BalancedPosts(s.ledger, t);
  }

  lemma PayoutAccepted(cfg: Config, s: State, a: ApproveArgs)
    requires FindKey(s.ledger.journal, a.key).None? && FindReceipt(s.ledger.journal, Payout(a.through, a.reference)).None?
    ensures Goes(Approve(cfg, s, a)) <==>
      && a.cashout < |s.cashouts| && var c := s.cashouts[a.cashout];
      (c.status == Paid && c.payoutRef == Some(a.reference)) || (c.status == Requested && c.escrowUntil <= s.clock)
  {
    hide Post;
    if a.cashout < |s.cashouts| {
      var t := PaidTxn(cfg, s.cashouts[a.cashout], a);
      Sums4(t.entries[0], t.entries[1], t.entries[2], t.entries[3]);
      assert t.entries == [t.entries[0], t.entries[1], t.entries[2], t.entries[3]];
      BalancedPosts(s.ledger, t);
    }
  }

  lemma DenialAccepted(s: State, a: DenyArgs)
    requires FindKey(s.ledger.journal, a.key).None?
    ensures Goes(Deny(s, a)) <==> a.cashout < |s.cashouts| && (s.cashouts[a.cashout].status == Denied || s.cashouts[a.cashout].status == Requested)
  {
    hide Post;
    if a.cashout < |s.cashouts| {
      var c := s.cashouts[a.cashout];
      PairPosts(s.ledger, DeniedTxn(c, a), PendingOf(c.subject), PayableOf(c.subject), c.amount);
    }
  }

  lemma RecyclingAccepted(cfg: Config, s: State, a: RecycleArgs)
    requires FindKey(s.ledger.journal, a.key).None?
    ensures Goes(RecyclePayable(cfg, s, a)) <==>
      0 < a.amount <= SAFE && (cfg.maxBits != 0 ==> a.amount <= cfg.maxBits) && a.amount <= Bal(s.ledger, PayableOf(a.subject))
  {
    hide Post;
    PairPosts(s.ledger, RecycleTxn(a), PayableOf(a.subject), CreditOf(a.subject), a.amount);
  }

  // ------------------------------------------------------------------ memberships

  /** From credit: not to oneself, at a price there is, not to another tier while the running one is paid for, and with the cost in credit. */
  lemma MembershipAccepted(cfg: Config, s: State, a: PayArgs)
    requires FindKey(s.ledger.journal, a.key).None? && a.funding.FromCredit?
    ensures Goes(Pay(cfg, s, a)) <==>
      && a.subscriber != a.streamer
      && (exists price: int, cost: int ::
            PriceAsked(cfg, s, a, price) && WorthNearest(cfg, cost, price) && cost <= Bal(s.ledger, CreditOf(a.subscriber)))
      && (a.price.None? ==>
            !(Running(s, a).Some? && Running(s, a).value.tier != TierAsked(s, a)
              && (Running(s, a).value.status == Active || Running(s, a).value.status == PastDue) && Running(s, a).value.periodEnd > s.clock))
  {
    hide Post, BitsForValueCents, SubShareBits, WorthNearest, Granted;
    var r := PriceOf(cfg, s, a, Prior(s, a));
    if r.Ok? {
      assert PriceAsked(cfg, s, a, r.value);
      BitsAreNearest(cfg, r.value);
      assert WorthNearest(cfg, BitsForValueCents(cfg, r.value), r.value);
      if FundsOf(cfg, s, a, r.value).Ok? {
        var t := PeriodTxn(cfg, a, FundsOf(cfg, s, a, r.value).value);
        Sums3(t.entries[0], t.entries[1], t.entries[2]);
        assert t.entries == [t.entries[0], t.entries[1], t.entries[2]];
        BalancedPosts(s.ledger, t);
      }
      forall price: int, cost: int | PriceAsked(cfg, s, a, price) && WorthNearest(cfg, cost, price)
        ensures price == r.value && cost == BitsForValueCents(cfg, r.value)
      {
        NearestOnce(cfg, cost, BitsForValueCents(cfg, r.value), r.value);
      }
    }
  }

  /** From a receipt the money has arrived: only a payment out of range, oneself, or a share worth more than the payment is refused. */
  lemma PaidPeriodAccepted(cfg: Config, s: State, a: PayArgs, share: int)
    requires a.funding.FromReceipt? && FindKey(s.ledger.journal, a.key).None?
    requires FindReceipt(s.ledger.journal, Payment(a.funding.provider, a.funding.payment)).None?
    requires var f := a.funding; CreatorShare(cfg, if f.feeCents > 0 then Max(0, f.paidCents - f.feeCents) else f.paidCents, share)
    ensures var f := a.funding;
      Goes(Pay(cfg, s, a)) <==>
        && a.subscriber != a.streamer && (a.price.Some? ==> 0 < a.price.value <= MAX_PRICE_CENTS)
        && 0 < f.paidCents <= MAX_RECEIPT_CENTS && (!f.direct ==> ValueCents(cfg, share) <= f.paidCents)
  {
    hide Post, SubShareBits, CreatorShare, ValueCents, Granted, ReceiptEntries;
    var f := a.funding;
    var base := if f.feeCents > 0 then Max(0, f.paidCents - f.feeCents) else f.paidCents;
    SharesAreNearest(cfg, base);
    ShareOnce(cfg, base, share, SubShareBits(cfg, base));
    var r := PriceOf(cfg, s, a, Prior(s, a));
    if r.Ok? && FundsOf(cfg, s, a, r.value).Ok? {
      ReceiptSums(cfg, f.provider, f.paidCents, share, PayableOf(a.streamer));
      NothingSums();
      BalancedPosts(s.ledger, PeriodTxn(cfg, a, FundsOf(cfg, s, a, r.value).value));
    }
  }

  lemma NothingSums()
    ensures forall c: Currency :: SumOf([], c) == 0
  {
  }

  lemma ShareOnce(cfg: Config, base: int, b: int, c: int)
    requires CreatorShare(cfg, base, b) && CreatorShare(cfg, base, c)
    ensures b == c
  {
    hide WorthNearest;
    var x: int :| 100 * x <= base * cfg.subSharePct < 100 * x + 100 && WorthNearest(cfg, b, x);
    var y: int :| 100 * y <= base * cfg.subSharePct < 100 * y + 100 && WorthNearest(cfg, c, y);
    NearestOnce(cfg, b, c, x);
  }

  /** A period paid from credit for this subscription can be refunded; once any reversal of it is there, nothing more happens. */
  lemma PeriodRefundAccepted(cfg: Config, s: State, a: PeriodRefundArgs)
    requires FindKey(s.ledger.journal, a.key).None?
    ensures Goes(RefundPeriod(cfg, s, a)) <==>
      && a.sub < |s.subs| && a.txn < |s.ledger.journal| && var t := s.ledger.journal[a.txn];
      && t.ty == Subscription && t.meta.CreditPeriodMeta? && t.from.Some? && t.to.Some?
      && exists k :: 0 <= k < |s.periods| && s.periods[k].sourceTxn == a.txn && s.periods[k].sub == a.sub
  {
    hide Post, ValueCents, Clawed, HasReversal;
    if a.txn < |s.ledger.journal| {
      var orig := s.ledger.journal[a.txn];
      if orig.meta.CreditPeriodMeta? && orig.from.Some? && orig.to.Some? {
        var t := PeriodRefundTxn(cfg, s.ledger, orig, a);
        var e := t.entries;
        assert e == [e[0], e[1], e[2], e[3], e[4], e[5]];
        Sums6(e[0], e[1], e[2], e[3], e[4], e[5]);
        BalancedPosts(s.ledger, t);
      }
    }
  }

  // ------------------------------------------------------------------ reversals

  /** A reversal that is not known goes through whenever its payment is in the journal, or leaves nothing to return. */
  lemma ReversalAccepted(cfg: Config, s: State, a: ReverseArgs)
    requires JournalOk(cfg, s.ledger) && TotalsOk(s.ledger) && KnownReversal(s.ledger.journal, a.key, a.reversal).None?
    ensures Goes(Reverse(cfg, s, a)) <==>
      && FindReceipt(s.ledger.journal, a.original).Some? && var i := FindReceipt(s.ledger.journal, a.original).value;
      var paid, done := PaidCents(s.ledger.journal[i].meta), ReversedCents(s.ledger.journal, i);
      paid > 0 || Asked(a.ask, paid - done, done) <= 0
  {
    hide Post, JournalOk, TotalsOk, PartOf, RevokeFrom, ReversedCents, Shape;
    var found := FindReceipt(s.ledger.journal, a.original);
    if found.Some? {
      var i := found.value;
      var orig, done := s.ledger.journal[i], ReversedCents(s.ledger.journal, i);
      var cents := CentsNow(a.ask, PaidCents(orig.meta), done);
      if PaidCents(orig.meta) > 0 && cents > 0 {
        ShapeOf(cfg, s.ledger, i);
        DoneNotNegative(s.ledger, i);
        PartBalances(cfg, s.ledger, orig, i, a, done, cents);
        BalancedPosts(s.ledger, ReversalTxn(cfg, orig, i, a, PartOf(cfg, s.ledger, orig, a.chargeback, done, cents).value));
      }
    }
  }

  lemma PartBalances(cfg: Config, l: Ledger, orig: Txn, i: nat, a: ReverseArgs, done: int, cents: int)
    requires Shape(cfg, orig) && PaidCents(orig.meta) > 0
    ensures PartOf(cfg, l, orig, a.chargeback, done, cents).Ok?
    ensures (orig.meta.TopupMeta? ==> done >= 0 && cents > 0) ==>
      forall c: Currency :: SumOf(PartOf(cfg, l, orig, a.chargeback, done, cents).value.entries, c) == 0
  {
    hide FxMirror, PromoIsolated, PendingOwned, ReceiptBooked, ValueCents, BitsPart, NanoPart, Clawed, ClawedNano;
    var part := PartOf(cfg, l, orig, a.chargeback, done, cents).value;
    var e := part.entries;
    if orig.meta.PurchaseMeta? {
      assert e == [e[0], e[1], e[2], e[3], e[4], e[5]];
      Sums6(e[0], e[1], e[2], e[3], e[4], e[5]);
    } else if orig.meta.TopupMeta? {
      if done >= 0 && cents > 0 {
        NanoPartCovered(orig.meta.amountNano, orig.meta.paidCents, done, cents);
        ClawedAtMost(Bal(l, BalanceOf(orig.to.value, orig.meta.project)), NanoPart(orig.meta.amountNano, orig.meta.paidCents, done, cents));
        assert e == [e[0], e[1], e[2], e[3]];
        Sums4(e[0], e[1], e[2], e[3]);
      }
    } else if e != [] {
      assert e == [e[0], e[1]];
      Sums2(e[0], e[1]);
    } else {
      NothingSums();
    }
  }

  lemma ClawedAtMost(have: int, part: int)
    requires part >= 0
    ensures ClawedNano(have, part) <= part
  {
  }

  // ------------------------------------------------------------------ allowances and usage

  /** A grant is refused for its size alone. */
  lemma GrantAccepted(cfg: Config, s: State, a: GrantArgs)
    requires FindKey(s.ledger.journal, PromoGrantKey(a.key)).None?
    ensures Goes(Grant(cfg, s, a)) <==> 0 < a.bits <= MAX_GRANT_BITS
  {
    hide Post, LapseAll, Topped;
    LapsingGoes(s, a.subject);
    if LapseAll(s, a.subject).Done? {
      var t := GrantTxn(a);
      Sums2(t.entries[0], t.entries[1]);
      SomehowPosts(Topped(cfg, LapseAll(s, a.subject).state, a).ledger, t);
    }
  }

  lemma SomehowPosts(l: Ledger, t: Txn)
    requires t.receipt.None? && forall c: Currency :: SumOf(t.entries, c) == 0
    ensures Post(l, t).Failed? ==> Post(l, t) == Failed(AmountOverflow)
  {
    if FindKey(l.journal, t.key).None? { BalancedPosts(l, t); }
  }

  lemma LapsingGoes(s: State, p: Subject)
    ensures Goes(LapseAll(s, p))
  {
    hide LapseIds, EndedOrder;
    var ids := EndedOrder(s.allowances, p, s.clock);
    assert forall k :: 0 <= k < |ids| ==> ids[k] in ids;
    LapsingIdsGoes(s, ids);
  }

  lemma {:induction false} LapsingIdsGoes(s: State, ids: seq<nat>)
    requires Within(ids, |s.allowances|)
    ensures Goes(LapseIds(s, ids))
    decreases |ids|
  {
    hide Post;
    if ids != [] {
      var row := s.allowances[ids[0]];
      var bits := Min(Open(row), Max(0, Bal(s.ledger, PromoOf(row.subject))));
      var t := LapseTxn(row, ids[0], bits);
      Sums2(t.entries[0], t.entries[1]);
      SomehowPosts(s.ledger, t);
      if LapseOne(s, ids[0]).Done? { LapsingIdsGoes(LapseOne(s, ids[0]).state, ids[1..]); }
    }
  }

  /** Why a reading is left unrated. */
  lemma UnratedBecause(cfg: Config, s: State, cards: seq<Card>, id: nat)
    requires Inv(cfg, s) && Rate(cfg, s, cards, id).Done? && Rate(cfg, s, cards, id).value.Unrated?
    ensures id < |s.readings| && s.readings[id].rated.None?
    ensures var row := s.readings[id]; var why := Rate(cfg, s, cards, id).value.why;
      && (why == NoSubject <==> row.subject.None?)
      && (row.subject.Some? ==>
            && (why == NoRateCard <==> forall c :: c in cards ==> !Fits(c, row))
            && ((exists c :: c in cards && Fits(c, row)) ==>
                  && (why == UnitMismatch <==> !cfg.unitFits(PickCard(cards, row).value.metric, row.unit))
                  && (why == InsufficientFunds ==>
                        && ChargeFor(cfg, PickCard(cards, row).value, row.quantity).Ok?
                        && var gross := ChargeFor(cfg, PickCard(cards, row).value, row.quantity).value;
                           Bal(s.ledger, CreditOf(row.subject.value)) < gross - Min(gross, Remaining(s, row.subject.value, row.service)))))
  {
    hide Inv, ChargeFor, Collect, Leave;
    var row := s.readings[id];
    if row.subject.Some? && PickCard(cards, row).Some? && cfg.unitFits(PickCard(cards, row).value.metric, row.unit) {
      ChargeErrors(cfg, PickCard(cards, row).value, row.quantity);
      if ChargeFor(cfg, PickCard(cards, row).value, row.quantity).Ok? {
        ChargeNotNegative(cfg, PickCard(cards, row).value, row.quantity);
        CollectFails(cfg, s, id, row.subject.value, ChargeFor(cfg, PickCard(cards, row).value, row.quantity).value);
      }
    }
  }

  /**
   * A reading that has a person, a card and a fitting unit is rated exactly when the credit holds what the
   * allowance leaves and no open budget is passed by it, unless a balance leaves the exact integers.
   */
  lemma RatingAccepted(cfg: Config, s: State, cards: seq<Card>, id: nat, gross: int)
    requires Inv(cfg, s) && !s.frozen && id < |s.readings| && s.readings[id].rated.None? && s.readings[id].subject.Some?
    requires PickCard(cards, s.readings[id]).Some? && cfg.unitFits(PickCard(cards, s.readings[id]).value.metric, s.readings[id].unit)
    requires ChargeFor(cfg, PickCard(cards, s.readings[id]).value, s.readings[id].quantity) == Ok(gross) && gross >= 0
    ensures var r := Rate(cfg, s, cards, id); var p := s.readings[id].subject.value; var service := s.readings[id].service;
      var rest := gross - Min(gross, Remaining(s, p, service));
      var covered := rest == 0 || (rest <= Bal(s.ledger, CreditOf(p)) && SpendBudgets(cfg, s.budgets, s.clock, p, service, rest).Ok?);
      && r.Done? && (r.value.RatedNow? ==> covered) && (covered ==> r.value.RatedNow? || r.value == Unrated(AmountOverflow))
  {
    hide Inv, ChargeFor, Leave, Collect, PickCard, SpendBudgets, Remaining, Bal;
    ChargeInRange(cfg, PickCard(cards, s.readings[id]).value, s.readings[id].quantity);
    CollectGoes(cfg, s, id, s.readings[id].subject.value, gross);
  }

  /** Under the invariant a rating never fails with anything but a refusal: the reading ends rated, or with its reason noted. */
  lemma RateEnds(cfg: Config, s: State, cards: seq<Card>, id: nat)
    requires Inv(cfg, s) && !s.frozen
    ensures Rate(cfg, s, cards, id).Done?
    ensures var s' := Rate(cfg, s, cards, id).state;
      && s'.frozen == s.frozen && |s'.readings| == |s.readings|
      && (id < |s.readings| ==> s'.readings[id].rated.Some? || s'.readings[id].error.Some?)
  {
    hide Inv, ChargeFor, Collect, PickCard;
    if id < |s.readings| && s.readings[id].rated.None? && s.readings[id].subject.Some? && PickCard(cards, s.readings[id]).Some? {
      var card, row := PickCard(cards, s.readings[id]).value, s.readings[id];
      ChargeErrors(cfg, card, row.quantity);
      ChargeInRange(cfg, card, row.quantity);
      if ChargeFor(cfg, card, row.quantity).Ok? {
        var gross := ChargeFor(cfg, card, row.quantity).value;
        ChargeNotNegative(cfg, card, row.quantity);
        CollectGoes(cfg, s, id, row.subject.value, gross);
        if Collect(cfg, s, id, row.subject.value, gross).Done? { CollectMarks(cfg, s, id, row.subject.value, gross); }
      }
    }
  }

  lemma CollectMarks(cfg: Config, s: State, id: nat, p: Subject, gross: int)
    requires id < |s.readings| && Collect(cfg, s, id, p, gross).Done?
    ensures var s' := Collect(cfg, s, id, p, gross).state;
      s'.frozen == s.frozen && |s'.readings| == |s.readings| && s'.readings[id].rated.Some?
  {
    hide LapseOne, EndedOrder, Post, DrawOrder, Taken, Take, SpendBudgets;
    if LapseAll(s, p).Done? { LapseFlags(s, p); }
  }

  lemma LapseFlags(s: State, p: Subject)
    requires LapseAll(s, p).Done?
    ensures LapseAll(s, p).state.frozen == s.frozen
  {
    hide EndedOrder;
    var ids := EndedOrder(s.allowances, p, s.clock);
    assert forall k :: 0 <= k < |ids| ==> ids[k] in ids;
    LapseIdsFlags(s, ids);
  }

  lemma {:induction false} LapseIdsFlags(s: State, ids: seq<nat>)
    requires Within(ids, |s.allowances|) && LapseIds(s, ids).Done?
    ensures LapseIds(s, ids).state.frozen == s.frozen
    decreases |ids|
  {
    hide Post;
    if ids != [] { LapseIdsFlags(LapseOne(s, ids[0]).state, ids[1..]); }
  }

  /**
   * One pass over the due readings leaves none of its batch as it was: each is rated or carries its reason,
   * and none makes the pass fail or stop.
   */
  lemma SweepSettlesBatch(cfg: Config, s: State, cards: seq<Card>, batch: int)
    requires Inv(cfg, s) && !s.frozen && 0 < batch <= 5000
    ensures var r := RatingSweep(cfg, s, cards, batch);
      && r.Done? && r.value.failed == 0 && r.value.busy == 0 && !r.value.frozen && r.value.rated + r.value.skipped <= |Batch(s, batch)|
      && |r.state.readings| == |s.readings|
      && forall id :: id in Batch(s, batch) ==> r.state.readings[id].rated.Some? || r.state.readings[id].error.Some?
  {
    hide Batch, RateAll;
    PassSettles(cfg, s, cards, Batch(s, batch), SweepOut(0, 0, 0, 0, false));
  }

  lemma {:induction false} PassSettles(cfg: Config, s: State, cards: seq<Card>, ids: seq<nat>, out: SweepOut)
    requires Inv(cfg, s) && !s.frozen && Within(ids, |s.readings|)
    ensures var (s', o) := RateAll(cfg, s, cards, ids, out);
      && o.failed == out.failed && o.busy == out.busy && o.frozen == out.frozen
      && out.rated + out.skipped <= o.rated + o.skipped <= out.rated + out.skipped + |ids|
      && |s'.readings| == |s.readings|
      && forall k :: 0 <= k < |s.readings| && (k in ids || s.readings[k].rated.Some? || s.readings[k].error.Some?) ==>
           s'.readings[k].rated.Some? || s'.readings[k].error.Some?
    decreases |ids|
  {
    hide Inv, Rate;
    if ids != [] {
      var r := Rate(cfg, s, cards, ids[0]);
      RateEnds(cfg, s, cards, ids[0]);
      RateKeeps(cfg, s, cards, ids[0]);
      RateReadings(cfg, s, cards, ids[0]);
      NotMissing(cfg, s, cards, ids[0]);
      PassSettles(cfg, r.state, cards, ids[1..], Tally(out, r.value));
      assert ids == [ids[0]] + ids[1..];
    }
  }

  lemma NotMissing(cfg: Config, s: State, cards: seq<Card>, id: nat)
    requires id < |s.readings| && Rate(cfg, s, cards, id).Done?
    ensures !Rate(cfg, s, cards, id).value.Missing?
  {
    hide Collect, ChargeFor;
  }

  lemma ChargeInRange(cfg: Config, card: Card, quantity: Decimal)
    ensures ChargeFor(cfg, card, quantity).Ok? ==> ChargeFor(cfg, card, quantity).value <= SAFE
  {
    hide Frac, CeilDiv;
  }

  lemma CollectGoes(cfg: Config, s: State, id: nat, p: Subject, gross: int)
    requires Inv(cfg, s) && id < |s.readings| && s.readings[id].rated.None? && 0 <= gross <= SAFE
    ensures var r := Collect(cfg, s, id, p, gross); var service := s.readings[id].service;
      var rest := gross - Min(gross, Remaining(s, p, service));
      var covered := rest == 0 || (rest <= Bal(s.ledger, CreditOf(p)) && SpendBudgets(cfg, s.budgets, s.clock, p, service, rest).Ok?);
      && (r.Fail? ==> r.error in {AmountOverflow, InsufficientFunds, BudgetExceeded})
      && (r.Done? ==> covered) && (covered ==> Goes(r))
  {
    hide Inv, DrawFor, ChargeRest, SpendBudgets, Remaining, Bal;
    var service := s.readings[id].service;
    DrawGoes(cfg, s, p, service, gross, id);
    if DrawFor(s, p, service, gross, id).Done? {
      DrawnForRating(cfg, s, p, gross, id);
      DrawMoves(cfg, s, p, service, gross, id);
      RestGoes(cfg, DrawFor(s, p, service, gross, id).state, id, p, service, gross - DrawFor(s, p, service, gross, id).value.bits);
    }
  }

  lemma DrawGoes(cfg: Config, s: State, p: Subject, service: nat, gross: int, id: nat)
    requires Inv(cfg, s) && id < |s.readings| && s.readings[id].rated.None? && gross <= SAFE
    ensures Goes(DrawFor(s, p, service, gross, id))
  {
    hide Inv, LapseAll, Post, Take, Taken, DrawOrder;
    RatingOf(cfg, s);
    UnratedKeysAreFresh(s, id);
    LapsingGoes(s, p);
    if gross > 0 && LapseAll(s, p).Done? {
      var s1 := LapseAll(s, p).state;
      var used := Taken(s1.allowances, DrawOrder(s1.allowances, p, service, s1.clock), Min(gross, Max(0, Bal(s1.ledger, PromoOf(p)))));
      var t := DrawTxn(DrawArgs(p, service, gross, id), used);
      Sums2(t.entries[0], t.entries[1]);
      SomehowPosts(s1.ledger, t);
    }
  }

  lemma RestGoes(cfg: Config, s: State, id: nat, p: Subject, service: nat, charge: int)
    requires FindKey(s.ledger.journal, UsageKey(id)).None? && charge >= 0
    ensures var r := ChargeRest(cfg, s, id, p, service, charge);
      && (r.Fail? ==> r.error in {AmountOverflow, InsufficientFunds, BudgetExceeded})
      && (r.Done? ==> charge == 0 || (charge <= Bal(s.ledger, CreditOf(p)) && SpendBudgets(cfg, s.budgets, s.clock, p, service, charge).Ok?))
      && (charge == 0 || (charge <= Bal(s.ledger, CreditOf(p)) && SpendBudgets(cfg, s.budgets, s.clock, p, service, charge).Ok?) ==> Goes(r))
  {
    hide SpendBudgets, Bal, Post;
    BudgetErrors(cfg, s.budgets, s.clock, p, service, charge);
    PairPosts(s.ledger, UsageTxn(cfg, id, p, charge), CreditOf(p), RevenueIn(Bits), charge);
  }

  lemma ChargeErrors(cfg: Config, card: Card, quantity: Decimal)
    ensures ChargeFor(cfg, card, quantity).Err? ==> ChargeFor(cfg, card, quantity).error in {InvalidInput, AmountOverflow}
  {
    hide Frac, CeilDiv;
  }

  lemma CollectFails(cfg: Config, s: State, id: nat, p: Subject, gross: int)
    requires Inv(cfg, s) && id < |s.readings| && s.readings[id].rated.None? && gross >= 0 && Collect(cfg, s, id, p, gross).Fail?
    ensures Collect(cfg, s, id, p, gross).error !in {NoSubject, NoRateCard, UnitMismatch}
    ensures Collect(cfg, s, id, p, gross).error == InsufficientFunds ==>
      Bal(s.ledger, CreditOf(p)) < gross - Min(gross, Remaining(s, p, s.readings[id].service))
  {
    hide Inv, DrawFor, ChargeRest, Remaining, Bal;
    var service := s.readings[id].service;
    DrawErrors(cfg, s, p, service, gross, id);
    if DrawFor(s, p, service, gross, id).Done? {
      DrawnForRating(cfg, s, p, gross, id);
      DrawMoves(cfg, s, p, service, gross, id);
      RestErrors(cfg, DrawFor(s, p, service, gross, id).state, id, p, service, gross - DrawFor(s, p, service, gross, id).value.bits);
    }
  }

  lemma RestErrors(cfg: Config, s: State, id: nat, p: Subject, service: nat, charge: int)
    requires ChargeRest(cfg, s, id, p, service, charge).Fail?
    ensures var e := ChargeRest(cfg, s, id, p, service, charge).error;
      e in {InsufficientFunds, BudgetExceeded, AmountOverflow, Unbalanced, UniqueViolation} && (e == InsufficientFunds ==> Bal(s.ledger, CreditOf(p)) < charge)
  {
    hide SpendBudgets, Bal, Post;
    BudgetErrors(cfg, s.budgets, s.clock, p, service, charge);
    PostErrors(s.ledger, UsageTxn(cfg, id, p, charge));
  }

  lemma PostErrors(l: Ledger, t: Txn)
    ensures Post(l, t).Failed? ==> Post(l, t).error in {AmountOverflow, Unbalanced, UniqueViolation}
  {
    SumsErrors(t.entries, Currencies(t.entries));
  }

  lemma {:induction false} SumsErrors(es: seq<Entry>, cs: seq<Currency>)
    ensures SumsError(es, cs).Some? ==> SumsError(es, cs).value in {AmountOverflow, Unbalanced}
    decreases |cs|
  {
    if cs != [] { SumsErrors(es, cs[1..]); }
  }

  lemma BudgetErrors(cfg: Config, rows: seq<Budget>, now: Millis, p: Subject, service: nat, bits: int)
    ensures SpendBudgets(cfg, rows, now, p, service, bits).Err? ==> SpendBudgets(cfg, rows, now, p, service, bits).error == BudgetExceeded
  {
    CheckErrors(cfg, rows, now, p, Services(service), bits);
  }

  lemma {:induction false} CheckErrors(cfg: Config, rows: seq<Budget>, now: Millis, p: Subject, services: seq<nat>, bits: int)
    ensures CheckBudgets(cfg, rows, now, p, services, bits).Err? ==> CheckBudgets(cfg, rows, now, p, services, bits).error == BudgetExceeded
    decreases |services|
  {
    if services != [] { CheckErrors(cfg, OpenBudget(cfg, rows, now, p, services[0]).rows, now, p, services[1..], bits); }
  }

  lemma DrawErrors(cfg: Config, s: State, p: Subject, service: nat, gross: int, id: nat)
    requires Inv(cfg, s) && id < |s.readings| && s.readings[id].rated.None?
    ensures DrawFor(s, p, service, gross, id).Fail? ==>
      DrawFor(s, p, service, gross, id).error in {InvalidAmount, AmountOverflow, Unbalanced, UniqueViolation}
  {
    hide Inv, LapseAll, Post, Take, Taken, DrawOrder;
    RatingOf(cfg, s);
    UnratedKeysAreFresh(s, id);
    LapsingGoes(s, p);
    forall l: Ledger, t: Txn { PostErrors(l, t); }
  }

  lemma BudgetAccepted(cfg: Config, s: State, a: BudgetArgs)
    ensures SetBudget(cfg, s, a).Done? <==> 0 <= a.bits <= SAFE
  {
  }

  // ------------------------------------------------------------------ Balance

  lemma HoldAccepted(cfg: Config, s: State, a: HoldArgs)
    requires forall i :: 0 <= i < |s.holds| ==> s.holds[i].key != a.key
    ensures CreateHold(cfg, s, a).Done? <==>
      && cfg.creditsOpen && !s.frozen && (a.sandbox ==> cfg.sandboxOpen)
      && 0 <= a.max <= Available(s, Account(if a.sandbox then UsdCreditSandbox else UsdCredit,
                                            if a.project.Some? then ProjectOf(a.project.value) else Person(a.subject), Nano))
  {
    hide HeldOn;
  }

  lemma ExtensionAccepted(cfg: Config, s: State, i: nat, add: int)
    ensures ExtendHold(cfg, s, i, add).Done? <==>
      cfg.creditsOpen && !s.frozen && i < |s.holds| && IsOpen(s.holds[i]) && 0 <= add <= Available(s, s.holds[i].account)
  {
    hide HeldOn;
  }

  lemma ReleaseAccepted(cfg: Config, s: State, i: nat)
    ensures ReleaseHold(cfg, s, i).Done? <==>
      cfg.creditsOpen && !s.frozen && i < |s.holds| && (s.holds[i].status == HoldReleased || IsOpen(s.holds[i]))
  {
  }

  /** An open hold can be settled whatever the usage costs, up to what the columns store. */
  lemma SettlementAccepted(cfg: Config, s: State, a: SettleHoldArgs)
    requires HoldRowsOk(s) && forall i :: 0 <= i < |s.settlements| ==> s.settlements[i].key != a.key
    ensures Goes(SettleHold(cfg, s, a)) || SettleHold(cfg, s, a) == Fail(CheckViolation) <==>
      cfg.creditsOpen && !s.frozen && a.hold < |s.holds| && IsOpen(s.holds[a.hold])
  {
    hide Post, HoldRowsOk, CollectedOf, ComputeCharge;
    SettleIsFresh(s, a.key);
    if a.hold < |s.holds| && IsOpen(s.holds[a.hold]) {
      var h := s.holds[a.hold];
      HoldIsSpendable(s, a.hold);
      var t := SettleTxn(h, a.key, CollectedOf(s, h, ChargeOf(a)));
      PairPosts(s.ledger, t, h.account, t.entries[1].account, CollectedOf(s, h, ChargeOf(a)));
    }
  }

  lemma SandboxAccepted(cfg: Config, s: State, a: SandboxArgs)
    requires FindKey(s.ledger.journal, SandboxGrantKey(a.grant)).None?
    ensures Goes(SandboxGrant(cfg, s, a)) <==> cfg.creditsOpen && cfg.sandboxOpen && !s.frozen && a.amount > 0
  {
    hide Post;
    PairPosts(s.ledger, SandboxTxn(a), SANDBOX_ISSUER, SandboxBalanceOf(a.subject, a.project), a.amount);
  }

  lemma TransferAccepted(cfg: Config, s: State, a: MoveArgs)
    requires FindKey(s.ledger.journal, BalanceTransferKey(a.key)).None?
    ensures Goes(Move(cfg, s, a)) <==> cfg.creditsOpen && !s.frozen && a.admin && 0 < a.amount <= Available(s, BalanceOf(a.subject, None))
  {
    hide Post, HeldOn;
    PairPosts(s.ledger, MoveTxn(a), BalanceOf(a.subject, None), BalanceOf(0, Some(a.project)), a.amount);
  }

  lemma VibesAccepted(cfg: Config, s: State, a: BuyArgs, price: int)
    requires FindKey(s.ledger.journal, BalanceVibesKey(a.key)).None?
    requires cfg.bitsPerUsd * (price - 1) < a.vibes * NANO_PER_USD <= cfg.bitsPerUsd * price
    ensures Goes(BuyVibes(cfg, s, a)) <==>
      && cfg.creditsOpen && cfg.vibesFromBalance && !s.frozen
      && 0 < a.vibes <= SAFE && (cfg.maxBits != 0 ==> a.vibes <= cfg.maxBits) && cfg.minPurchaseBits <= a.vibes
      && price <= Available(s, BalanceOf(a.subject, None))
  {
    hide Post, HeldOn, PriceNano;
    PriceOnce(cfg, a.vibes, price);
    var t := BuyTxn(cfg, a);
    Sums4(t.entries[0], t.entries[1], t.entries[2], t.entries[3]);
    assert t.entries == [t.entries[0], t.entries[1], t.entries[2], t.entries[3]];
    BalancedPosts(s.ledger, t);
  }

  lemma PriceOnce(cfg: Config, vibes: int, price: int)
    requires cfg.bitsPerUsd * (price - 1) < vibes * NANO_PER_USD <= cfg.bitsPerUsd * price
    ensures PriceNano(cfg, vibes) == price
  {
    var p := PriceNano(cfg, vibes);
    if p < price { MulMono(p, price - 1, cfg.bitsPerUsd); }
    if price < p { MulMono(price, p - 1, cfg.bitsPerUsd); }
  }

  lemma CheckoutsAccepted(cfg: Config, s: State, a: StartArgs, b: PackArgs, fee: int)
    requires ValidTiers(cfg) && a.amountCents > 0 && 10000 * (fee - 1) < a.amountCents * cfg.topupFeeBps <= 10000 * fee
    ensures StartTopup(cfg, s, a).Done? <==>
      cfg.creditsOpen && cfg.topupOpen && !s.frozen && a.enabled && a.amountCents in cfg.topupAmounts && a.amountCents + fee <= MAX_RECEIPT_CENTS
    ensures StartPurchase(cfg, s, b).Done? <==> 0 < b.bits <= SAFE && (cfg.maxBits != 0 ==> b.bits <= cfg.maxBits) && cfg.minPurchaseBits <= b.bits
  {
    hide ExactPrice, ValidTiers;
    FeeIsLeast(a.amountCents, cfg.topupFeeBps, fee);
    FeeIsLeast(a.amountCents, cfg.topupFeeBps, fee - 1);
  }

  // ------------------------------------------------------------------ Vibes Pay

  /** A link is paid when it is pending and alive, the switches and the day's limit allow it, and the payer holds the amount. */
  lemma PaymentAccepted(cfg: Config, s: State, i: nat, p: Subject)
    requires VibesOk(cfg, s) && i < |s.charges| && s.charges[i].status == Pending && s.clock < s.charges[i].expiresAt
    ensures var c := s.charges[i];
      Goes(PayCharge(cfg, s, i, p)) <==>
        && !s.frozen && c.amount <= Bal(s.ledger, if c.sandbox then SandboxPocket(c.app, p) else CreditOf(p))
        && if c.sandbox then cfg.vibesSandbox
           else cfg.vibesPay && cfg.authority && 0 < cfg.dailyVibes && SpentIn(s.charges, p, s.clock - DAY, s.clock, true) + c.amount <= cfg.dailyVibes
  {
    hide Post, VibesOk, SpentToday, SpentIn;
    ChargeKeys(cfg, s, i);
    PaidBeforeNow(cfg, s);
    TodayIsDay(s.charges, p, s.clock);
    var c := s.charges[i];
    PairPosts(s.ledger, PayTxn(cfg, c, i, p), PayerAccount(c.sandbox, c.app, p), ProjectAccount(c.sandbox, c.app, c.project), c.amount);
  }

  lemma PaidBeforeNow(cfg: Config, s: State)
    requires VibesOk(cfg, s)
    ensures forall k :: 0 <= k < |s.charges| && s.charges[k].status == ChargePaid ==> s.charges[k].paidAt <= s.clock
  {
    forall k | 0 <= k < |s.charges| && s.charges[k].status == ChargePaid ensures s.charges[k].paidAt <= s.clock {
      assert ChargeOk(s, k);
    }
  }

  /** What counts against the limit is all that was paid in the last 24 hours, test charges included. */
  lemma {:induction false} TodayIsDay(cs: seq<Charge>, p: Subject, now: Millis)
    requires forall k :: 0 <= k < |cs| && cs[k].status == ChargePaid ==> cs[k].paidAt <= now
    ensures SpentToday(cs, p, now) == SpentIn(cs, p, now - DAY, now, true)
  {
    if cs != [] { TodayIsDay(cs[..|cs| - 1], p, now); }
  }

  /** A link that is not pending any more answers its own payer and refuses everybody else; one past its time expires. */
  lemma PaymentElsewhere(cfg: Config, s: State, i: nat, p: Subject)
    requires !s.frozen && i < |s.charges|
    ensures var c := s.charges[i];
      && (c.status != Pending ==> PayCharge(cfg, s, i, p) == if c.status == ChargePaid && c.payer == Some(p) then Done(s, PaidBefore) else Fail(NotPending))
      && (c.status == Pending && c.expiresAt <= s.clock ==>
            PayCharge(cfg, s, i, p) == Done(s.(charges := s.charges[i := c.(status := ChargeExpired)]), LinkExpired))
  {
    hide Post, PayRefused;
  }

  lemma ChargeRefundAccepted(cfg: Config, s: State, i: nat, app: nat)
    requires VibesOk(cfg, s)
    ensures Goes(RefundCharge(cfg, s, i, app)) <==>
      && !s.frozen && i < |s.charges| && var c := s.charges[i];
      && c.app == app
      && (c.status == ChargeRefunded
          || (c.status == ChargePaid && (c.sandbox || cfg.authority)
              && c.amount <= Bal(s.ledger, if c.sandbox then SandboxWallet(c.app, c.project) else WalletOf(c.project))))
  {
    hide Post, VibesOk;
    if i < |s.charges| && s.charges[i].status == ChargePaid {
      ChargeKeys(cfg, s, i);
      PayerKnown(cfg, s, i);
      var c := s.charges[i];
      PairPosts(s.ledger, RefundTxn(c, i, c.payer.value), ProjectAccount(c.sandbox, c.app, c.project), PayerAccount(c.sandbox, c.app, c.payer.value), c.amount);
    }
  }

  lemma CancelAccepted(s: State, i: nat)
    ensures CancelCharge(s, i).Done? <==> !s.frozen && i < |s.charges| && (s.charges[i].status == Cancelled || s.charges[i].status == Pending)
    ensures Subscriptions.Cancel(s, i).Done? <==> i < |s.subs|
  {
  }

  lemma TestVibesAccepted(cfg: Config, s: State, a: TestVibesArgs)
    requires FindKey(s.ledger.journal, VibesGrantKey(a.grant)).None?
    ensures Goes(TestVibes(cfg, s, a)) <==> a.app.sandbox && cfg.vibesSandbox && !s.frozen && 0 < a.amount <= MAX_VIBES
  {
    hide Post;
    PairPosts(s.ledger, TestVibesTxn(a), VIBES_ISSUER, SandboxPocket(a.app.id, a.subject), a.amount);
  }
}
