/**
 * What a subscription payment and a renewal sweep do: the period and the row written, every balance
 * moved, who is entitled afterwards, and how each due row ends.
 */
module Memberships {
  import opened Basics
  import opened Schema
  import opened Journal
  import opened Rates
  import opened Common
  import opened Invariants
  import opened Purchases
  import opened Subscriptions
  import opened Reversals
  import opened Movements
  import Entitlements

  // ------------------------------------------------------------------ what a payment writes

  /** The row a payment finds for its subscriber and streamer. */
  function Running(s: State, a: PayArgs): Option<Sub>
  {
    var i := FindPair(s.subs, a.subscriber, a.streamer);
    if i.Some? then Some(s.subs[i.value]) else None
  }

  function TierAsked(s: State, a: PayArgs): nat
  {
    if a.tier.Some? then a.tier.value else if Running(s, a).Some? then Running(s, a).value.tier else 1
  }

  /** The caller's price, the list price of a membership, or what a checkout quoted, else the running price of the tier, else the default. */
  ghost predicate PriceAsked(cfg: Config, s: State, a: PayArgs, price: int)
  {
    if a.price.Some? then price == a.price.value && 0 < price <= MAX_PRICE_CENTS
    else if a.funding.FromCredit? then a.funding.listPrice == Some(price)
    else if a.funding.quoted > 0 then price == a.funding.quoted
    else if Running(s, a).Some? && Running(s, a).value.tier == TierAsked(s, a) && Running(s, a).value.priceCents != 0 then
      price == Running(s, a).value.priceCents
    else price == cfg.subPriceCents
  }

  function RenewsNext(s: State, a: PayArgs): bool
  {
    if a.autoRenew.Some? then a.autoRenew.value else if Running(s, a).Some? then Running(s, a).value.autoRenew else a.funding.FromCredit?
  }

  /**
   * One period from now, or from the end of the one still running, to the provider's own end or one
   * period later; its subscription active until then; the intent settled. Nothing else.
   */
  ghost predicate Writes(cfg: Config, s: State, s': State, a: PayArgs)
  {
    var i := FindPair(s.subs, a.subscriber, a.streamer);
    var sub := if i.Some? then i.value else |s.subs|;
    var start := if i.Some? then Max(s.clock, s.subs[i.value].periodEnd) else s.clock;
    var end := if a.funding.FromReceipt? && a.funding.until.Some? then Max(a.funding.until.value, start + 1) else start + cfg.subPeriod;
    && s'.periods == s.periods + [Period(a.subscriber, a.streamer, sub, start, end, |s.ledger.journal|, None)]
    && |s'.subs| == (if i.Some? then |s.subs| else |s.subs| + 1)
    && (forall k :: 0 <= k < |s.subs| && k != sub ==> s'.subs[k] == s.subs[k])
    && PriceAsked(cfg, s, a, s'.subs[sub].priceCents)
    && s'.subs[sub] == Sub(a.subscriber, a.streamer, TierAsked(s, a), if a.funding.FromReceipt? then Some(a.funding.provider) else None,
                           Active, RenewsNext(s, a), false, s'.subs[sub].priceCents, end, None)
    && s'.intents == (if a.intent.Some? && a.intent.value < |s.intents|
                      then s.intents[a.intent.value := s.intents[a.intent.value].(status := IntentSettled, settledTxn := Some(|s.ledger.journal|))]
                      else s.intents)
    && s' == s.(ledger := s'.ledger, subs := s'.subs, periods := s'.periods, intents := s'.intents)
  }

  /** The row a payment leaves, its price and its end. */
  lemma RenewedIs(cfg: Config, s: State, a: PayArgs, price: int)
    requires PriceOf(cfg, s, a, Prior(s, a)) == Ok(price)
    ensures PriceAsked(cfg, s, a, price)
    ensures var start := if Prior(s, a).Some? then Max(s.clock, Prior(s, a).value.periodEnd) else s.clock;
      var end := if a.funding.FromReceipt? && a.funding.until.Some? then Max(a.funding.until.value, start + 1) else start + cfg.subPeriod;
      && PeriodStart(s, Prior(s, a)) == start
      && Renewed(cfg, s, a, Prior(s, a), price) ==
           Sub(a.subscriber, a.streamer, TierAsked(s, a), if a.funding.FromReceipt? then Some(a.funding.provider) else None,
               Active, RenewsNext(s, a), false, price, end, None)
  {
  }

  lemma GrantedWrites(cfg: Config, s: State, l: Ledger, a: PayArgs, price: int)
    requires PriceOf(cfg, s, a, Prior(s, a)) == Ok(price)
    ensures Writes(cfg, s, MarkSettled(Granted(cfg, s.(ledger := l), a, price, |s.ledger.journal|), a.intent, |s.ledger.journal|), a)
  {
    RenewedIs(cfg, s, a, price);
    assert Renewed(cfg, s.(ledger := l), a, Prior(s, a), price) == Renewed(cfg, s, a, Prior(s, a), price);
    assert PeriodStart(s.(ledger := l), Prior(s, a)) == PeriodStart(s, Prior(s, a));
    hide PriceOf, PriceAsked, TierAsked, RenewsNext, Renewed, PeriodStart;
  }

  lemma PayState(cfg: Config, s: State, a: PayArgs) returns (l: Ledger, price: int)
    requires Books(s.ledger) && Pay(cfg, s, a).Done? && !Pay(cfg, s, a).value.replay
    ensures PriceOf(cfg, s, a, Prior(s, a)) == Ok(price)
    ensures Pay(cfg, s, a).state == MarkSettled(Granted(cfg, s.(ledger := l), a, price, |s.ledger.journal|), a.intent, |s.ledger.journal|)
  {
    hide Post, Books, PriceOf, FundsOf, Granted;
    price := PriceOf(cfg, s, a, Prior(s, a)).value;
    var t := PeriodTxn(cfg, a, FundsOf(cfg, s, a, price).value);
    FreshPosts(s.ledger, t);
    PostEffect(s.ledger, t);
    l := Post(s.ledger, t).ledger;
  }

  /** A payment, from credit or from a receipt, writes that and nothing else; a replay writes nothing. */
  lemma PayGrants(cfg: Config, s: State, a: PayArgs)
    requires Books(s.ledger) && Pay(cfg, s, a).Done?
    ensures var r := Pay(cfg, s, a); if r.value.replay then r.state == s else Writes(cfg, s, r.state, a)
  {
    hide Books, Granted, Writes;
    if Pay(cfg, s, a).value.replay {
      PayReplays(cfg, s, a);
    } else {
      hide Pay;
      var l, price := PayState(cfg, s, a);
      GrantedWrites(cfg, s, l, a, price);
    }
  }

  lemma PayReplays(cfg: Config, s: State, a: PayArgs)
    requires Pay(cfg, s, a).Done? && Pay(cfg, s, a).value.replay
    ensures Pay(cfg, s, a).state == s
  {
    hide Post, PriceOf, FundsOf, Granted;
  }

  function PaidSub(s: State, a: PayArgs): nat
  {
    var i := FindPair(s.subs, a.subscriber, a.streamer);
    if i.Some? then i.value else |s.subs|
  }

  /**
   * From credit the member pays the value of the price written on the row, to the nearest Vibe; the
   * creator's percentage of it is payable, the rest revenue.
   */
  lemma PayMoves(cfg: Config, s: State, a: PayArgs)
    requires Books(s.ledger) && Pay(cfg, s, a).Done? && !Pay(cfg, s, a).value.replay && a.funding.FromCredit?
    ensures var s' := Pay(cfg, s, a).state; var sub := PaidSub(s, a);
      && sub < |s'.subs|
      && exists cost: int, share: int ::
           && WorthNearest(cfg, cost, s'.subs[sub].priceCents) && CreatorShare(cfg, s'.subs[sub].priceCents, share)
           && cost <= Bal(s.ledger, CreditOf(a.subscriber))
           && Posts(s.ledger, s'.ledger, PeriodRecord(cfg, a, CreditPeriodMeta(cost, Min(cost, share), a.intent)), CreditChanges(a, cost, Min(cost, share)))
  {
    hide Post, Books, Posts, Granted, WorthNearest, CreatorShare, BitsForValueCents, SubShareBits;
    var price := PriceOf(cfg, s, a, Prior(s, a)).value;
    var cost, share := BitsForValueCents(cfg, price), SubShareBits(cfg, price);
    BitsAreNearest(cfg, price);
    SharesAreNearest(cfg, price);
    var f := FundsOf(cfg, s, a, price).value;
    var t := PeriodTxn(cfg, a, f);
    assert t.entries == f.entries;
    PostMoves(s, t, CreditChanges(a, cost, Min(cost, share)));
    var p := PostOn(s, t);
    GrantedRow(cfg, p.state, a, price, p.value.txn);
    assert Posts(s.ledger, Pay(cfg, s, a).state.ledger, PeriodRecord(cfg, a, CreditPeriodMeta(cost, Min(cost, share), a.intent)),
                 CreditChanges(a, cost, Min(cost, share)));
  }

  function PeriodRecord(cfg: Config, a: PayArgs, meta: Meta): Txn
  {
    Txn(Subscription, a.key, [], None, Some(a.subscriber), Some(a.streamer),
        if a.funding.FromReceipt? then Some(Gateway(a.funding.provider)) else None,
        if a.funding.FromReceipt? then Some(Payment(a.funding.provider, a.funding.payment)) else None, a.source, meta, cfg.bitsPerUsd)
  }

  function CreditChanges(a: PayArgs, cost: int, share: int): seq<Change>
  {
    [Change(CreditOf(a.subscriber), -cost), Change(PayableOf(a.streamer), share), Change(RevenueIn(Bits), cost - share)]
  }

  lemma GrantedRow(cfg: Config, s: State, a: PayArgs, price: int, txn: nat)
    ensures var s' := Granted(cfg, s, a, price, txn);
      s'.ledger == s.ledger && PaidSub(s, a) < |s'.subs| && s'.subs[PaidSub(s, a)].priceCents == price
  {
  }

  /**
   * From a receipt: nothing moves when the provider paid the creator directly. Otherwise the payment
   * goes through clearing and the creator's percentage of it, less a positive fee, becomes payable.
   */
  lemma PayReceiptMoves(cfg: Config, s: State, a: PayArgs)
    requires Books(s.ledger) && Pay(cfg, s, a).Done? && !Pay(cfg, s, a).value.replay && a.funding.FromReceipt?
    ensures 0 < a.funding.paidCents <= MAX_RECEIPT_CENTS
    ensures var s' := Pay(cfg, s, a).state; var f := a.funding;
      if f.direct then Posts(s.ledger, s'.ledger, PeriodRecord(cfg, a, ReceiptPeriodMeta(f.paidCents, 0, a.intent)), [])
      else exists share: int ::
        && CreatorShare(cfg, if f.feeCents > 0 then Max(0, f.paidCents - f.feeCents) else f.paidCents, share)
        && ValueCents(cfg, share) <= f.paidCents
        && Posts(s.ledger, s'.ledger, PeriodRecord(cfg, a, ReceiptPeriodMeta(f.paidCents, share, a.intent)),
                 ReceiptChanges(cfg, f.provider, f.paidCents, share, PayableOf(a.streamer)))
  {
    hide Post, Books, Posts, Granted, PriceOf, CreatorShare, SubShareBits, ValueCents, ReceiptChanges, ReceiptEntries;
    var price := PriceOf(cfg, s, a, Prior(s, a)).value;
    var f := a.funding;
    var base := if f.feeCents > 0 then Max(0, f.paidCents - f.feeCents) else f.paidCents;
    var share := SubShareBits(cfg, base);
    SharesAreNearest(cfg, base);
    var t := PeriodTxn(cfg, a, FundsOf(cfg, s, a, price).value);
    var cs := if f.direct then [] else ReceiptChanges(cfg, f.provider, f.paidCents, share, PayableOf(a.streamer));
    ReceiptListed(cfg, f.provider, f.paidCents, share, PayableOf(a.streamer));
    PostMoves(s, t, cs);
    var p := PostOn(s, t);
    GrantedRow(cfg, p.state, a, price, p.value.txn);
    assert Posts(s.ledger, Pay(cfg, s, a).state.ledger, PeriodRecord(cfg, a, ReceiptPeriodMeta(f.paidCents, if f.direct then 0 else share, a.intent)), cs);
  }

  // ------------------------------------------------------------------ who is entitled

  /** A payment entitles its subscriber to its streamer for its period, and nobody to anything else. */
  lemma PaidCovers(cfg: Config, s: State, a: PayArgs, subject: Subject, scope: Subject, at: Millis)
    requires Books(s.ledger) && Pay(cfg, s, a).Done? && !Pay(cfg, s, a).value.replay
    ensures var s' := Pay(cfg, s, a).state;
      && |s'.periods| == |s.periods| + 1
      && (Entitlements.CoveredAt(s'.periods, subject, scope, at) <==>
           || Entitlements.CoveredAt(s.periods, subject, scope, at)
           || (subject == a.subscriber && scope == a.streamer && s'.periods[|s.periods|].start <= at < s'.periods[|s.periods|].end))
  {
    hide Books, Pay;
    PayGrants(cfg, s, a);
    var ps, later := s.periods, Pay(cfg, s, a).state.periods;
    assert later[|ps|].subject == a.subscriber && later[|ps|].scope == a.streamer && later[|ps|].revoked.None?;
    if k :| 0 <= k < |ps| && Entitlements.Grants(ps[k], subject, scope, at) { assert later[k] == ps[k]; }
    if k :| 0 <= k < |later| && Entitlements.Grants(later[k], subject, scope, at) {
      if k < |ps| { assert later[k] == ps[k]; }
    }
  }

  /** Revoking a payment's periods ends exactly what they covered. */
  lemma RevokedCovers(cfg: Config, s: State, txn: nat, reason: RevokeReason, subject: Subject, scope: Subject, at: Millis)
    requires SubsOk(cfg, s)
    ensures Entitlements.CoveredAt(RevokeFrom(s, txn, reason, 0).periods, subject, scope, at) <==>
      (exists k :: 0 <= k < |s.periods| && s.periods[k].sourceTxn != txn && Entitlements.Grants(s.periods[k], subject, scope, at))
  {
    hide SubsOk;
    RevokeFromKeeps(cfg, s, txn, reason, 0);
    var ps, later := s.periods, RevokeFrom(s, txn, reason, 0).periods;
    if k :| 0 <= k < |later| && Entitlements.Grants(later[k], subject, scope, at) { assert ps[k].sourceTxn != txn && ps[k].revoked.None?; }
    if k :| 0 <= k < |ps| && ps[k].sourceTxn != txn && Entitlements.Grants(ps[k], subject, scope, at) {
      assert Entitlements.Grants(later[k], subject, scope, at);
    }
  }

  // ------------------------------------------------------------------ how a sweep ends a row

  function EndedRow(row: Sub, status: SubStatus): Sub { row.(status := status, autoRenew := false, graceUntil := None) }

  /** Stripe renews its own: the row is left alone until the grace after its end is over, then it expires. */
  lemma SweepStripe(cfg: Config, s: State, i: nat)
    requires i < |s.subs| && IsDue(s.subs[i], s.clock) && s.subs[i].byProvider == Some(Stripe)
    ensures SweepOne(cfg, s, i, s.subs[i]) ==
      Done(if s.clock < s.subs[i].periodEnd + cfg.stripeGrace then s else s.(subs := s.subs[i := EndedRow(s.subs[i], Expired)]), ())
  {
    hide Pay;
  }

  /** A row that stops is ended, Canceled when it was cancelled; nothing is charged. */
  lemma SweepEnds(cfg: Config, s: State, i: nat)
    requires i < |s.subs| && IsDue(s.subs[i], s.clock) && s.subs[i].byProvider != Some(Stripe)
    requires s.subs[i].cancelAtEnd || !s.subs[i].autoRenew
    ensures SweepOne(cfg, s, i, s.subs[i]) ==
      Done(s.(subs := s.subs[i := EndedRow(s.subs[i], if s.subs[i].cancelAtEnd then Canceled else Expired)]), ())
  {
    hide Pay;
  }

  ghost predicate Renewing(s: State, i: nat)
  {
    && i < |s.subs| && IsDue(s.subs[i], s.clock) && s.subs[i].byProvider != Some(Stripe)
    && !s.subs[i].cancelAtEnd && s.subs[i].autoRenew
  }

  /** A row still past due when its grace is over expires; nothing is charged. */
  lemma SweepGraceOver(cfg: Config, s: State, i: nat)
    requires Inv(cfg, s) && Renewing(s, i) && s.subs[i].status == PastDue && s.clock >= s.subs[i].periodEnd + cfg.renewalGrace
    ensures SweepOne(cfg, s, i, s.subs[i]) == Done(s.(subs := s.subs[i := EndedRow(s.subs[i], Expired)]), ())
  {
    hide Inv, Pay;
    RowsOk(cfg, s, i);
  }

  /** No charge for the period end a row has now stands: a standing one would have moved the end on. */
  lemma NoStandingCharge(cfg: Config, s: State, i: nat, x: nat)
    requires Inv(cfg, s) && i < |s.subs| && x < |s.ledger.journal|
    requires s.ledger.journal[x].key.Renewal? && s.ledger.journal[x].key.sub == i && s.ledger.journal[x].key.end >= s.subs[i].periodEnd
    ensures HasReversal(s.ledger.journal, x)
  {
    hide JournalOk, NonNegative, PayoutsOk, PromoOk, RatingOk, TotalsOk, VibesOk, HoldRowsOk, IntentsOk, HasReversal, LastEnd, KeyReversed;
    var key := s.ledger.journal[x].key;
    assert RenewalGranted(key, s.periods, x);
    var m :| 0 <= m < |s.periods| && s.periods[m].sourceTxn == x && s.periods[m].sub == i && s.periods[m].end > key.end;
    if s.periods[m].revoked.None? { LastEndBounds(s.periods, i, m); }
  }

  lemma RenewalKeyFresh(cfg: Config, s: State, i: nat)
    requires Inv(cfg, s) && i < |s.subs|
    ensures FindKey(s.ledger.journal, Renewal(i, s.subs[i].periodEnd, Attempt(s.ledger.journal, i, s.subs[i].periodEnd, 0))).None?
  {
    hide Inv, HasReversal;
    var end := s.subs[i].periodEnd;
    var found := FindKey(s.ledger.journal, Renewal(i, end, Attempt(s.ledger.journal, i, end, 0)));
    if found.Some? {
      NoStandingCharge(cfg, s, i, found.value);
      ReversedAt(s.ledger.journal, found.value);
    }
  }

  lemma ReversedAt(j: seq<Txn>, x: nat)
    requires x < |j| && HasReversal(j, x)
    ensures KeyReversed(j, j[x].key)
  {
  }

  function RenewalPrice(cfg: Config, row: Sub): int { if row.priceCents != 0 then row.priceCents else cfg.subPriceCents }

  function RenewalArgs(cfg: Config, s: State, i: nat): PayArgs
    requires i < |s.subs|
  {
    RenewArgs(cfg, s.subs[i], Renewal(i, s.subs[i].periodEnd, Attempt(s.ledger.journal, i, s.subs[i].periodEnd, 0)))
  }

  /**
   * A renewing row whose member holds the price, at the value rate, is paid for: exactly that leaves
   * the credit, one more period runs from now, and the row is active at the same price until its end.
   */
  lemma SweepRenews(cfg: Config, s: State, i: nat, cost: int)
    requires Valid(cfg) && Inv(cfg, s) && Renewing(s, i) && 0 < RenewalPrice(cfg, s.subs[i]) <= MAX_PRICE_CENTS
    requires s.subs[i].status == PastDue ==> s.clock < s.subs[i].periodEnd + cfg.renewalGrace
    requires WorthNearest(cfg, cost, RenewalPrice(cfg, s.subs[i])) && Bal(s.ledger, CreditOf(s.subs[i].subscriber)) >= cost
    ensures SweepOne(cfg, s, i, s.subs[i]).Done? || SweepOne(cfg, s, i, s.subs[i]) == Fail(AmountOverflow)
    ensures SweepOne(cfg, s, i, s.subs[i]).Done? ==>
      var s' := SweepOne(cfg, s, i, s.subs[i]).state; var row, price := s.subs[i], RenewalPrice(cfg, s.subs[i]);
      && s'.periods == s.periods + [Period(row.subscriber, row.streamer, i, s.clock, s.clock + cfg.subPeriod, |s.ledger.journal|, None)]
      && s'.subs == s.subs[i := row.(byProvider := None, status := Active, priceCents := price, periodEnd := s.clock + cfg.subPeriod, graceUntil := None)]
      && exists share: int ::
           && CreatorShare(cfg, price, share)
           && Moves(s.ledger, s'.ledger, [Change(CreditOf(row.subscriber), -cost), Change(PayableOf(row.streamer), Min(cost, share)),
                                          Change(RevenueIn(Bits), cost - Min(cost, share))])
  {
    hide Inv, Pay, Moves, CreatorShare, Partition, ValidTiers, WorthNearest, Books;
    var a := RenewalArgs(cfg, s, i);
    RowsOk(cfg, s, i);
    RenewalKeyFresh(cfg, s, i);
    PairIs(cfg, s, i);
    InvBooks(cfg, s);
    RenewalPays(cfg, s, a, cost);
    if Pay(cfg, s, a).Done? {
      FreshPays(cfg, s, a);
      PayGrants(cfg, s, a);
      PayMoves(cfg, s, a);
      var s' := Pay(cfg, s, a).state;
      assert s'.subs[i].priceCents == RenewalPrice(cfg, s.subs[i]);
      var c, share :| WorthNearest(cfg, c, s'.subs[i].priceCents) && CreatorShare(cfg, s'.subs[i].priceCents, share)
        && Moves(s.ledger, s'.ledger, CreditChanges(a, c, Min(c, share)));
      NearestOnce(cfg, c, cost, RenewalPrice(cfg, s.subs[i]));
    }
  }

  lemma PairIs(cfg: Config, s: State, i: nat)
    requires Inv(cfg, s) && i < |s.subs|
    ensures FindPair(s.subs, s.subs[i].subscriber, s.subs[i].streamer) == Some(i) && s.subs[i].subscriber != s.subs[i].streamer
  {
    hide LastEnd, RowOk;
    PairFound(s.subs, i);
  }

  lemma NearestOnce(cfg: Config, b: int, c: int, cents: int)
    requires WorthNearest(cfg, b, cents) && WorthNearest(cfg, c, cents)
    ensures b == c
  {
  }

  lemma FreshPays(cfg: Config, s: State, a: PayArgs)
    requires FindKey(s.ledger.journal, a.key).None? && a.funding.FromCredit? && Pay(cfg, s, a).Done?
    ensures !Pay(cfg, s, a).value.replay
  {
    hide Post, PriceOf, FundsOf, Granted;
  }

  /** With the credit there, a renewal is refused for the range of the balances alone. */
  lemma RenewalPays(cfg: Config, s: State, a: PayArgs, cost: int)
    requires a.subscriber != a.streamer && FindKey(s.ledger.journal, a.key).None? && a.funding.FromCredit?
    requires a.price.Some? && 0 < a.price.value <= MAX_PRICE_CENTS && WorthNearest(cfg, cost, a.price.value)
    ensures Pay(cfg, s, a) == Fail(InsufficientFunds) <==> Bal(s.ledger, CreditOf(a.subscriber)) < cost
    ensures Pay(cfg, s, a).Done? || Pay(cfg, s, a) == Fail(InsufficientFunds) || Pay(cfg, s, a) == Fail(AmountOverflow)
  {
    hide Post, Granted, BitsForValueCents, SubShareBits, WorthNearest;
    BitsAreNearest(cfg, a.price.value);
    NearestOnce(cfg, BitsForValueCents(cfg, a.price.value), cost, a.price.value);
    var price := a.price.value;
    assert PriceOf(cfg, s, a, Prior(s, a)) == Ok(price);
    if FundsOf(cfg, s, a, price).Ok? {
      var t := PeriodTxn(cfg, a, FundsOf(cfg, s, a, price).value);
      Sums3(t.entries[0], t.entries[1], t.entries[2]);
      assert t.entries == [t.entries[0], t.entries[1], t.entries[2]];
      BalancedPosts(s.ledger, t);
    }
  }

  /**
   * When the credit falls short nothing moves: the row is past due until the grace after its end is
   * over, and expires at once when it already is.
   */
  lemma SweepFallsDue(cfg: Config, s: State, i: nat, cost: int)
    requires Valid(cfg) && Inv(cfg, s) && Renewing(s, i) && 0 < RenewalPrice(cfg, s.subs[i]) <= MAX_PRICE_CENTS
    requires s.subs[i].status == PastDue ==> s.clock < s.subs[i].periodEnd + cfg.renewalGrace
    requires WorthNearest(cfg, cost, RenewalPrice(cfg, s.subs[i])) && Bal(s.ledger, CreditOf(s.subs[i].subscriber)) < cost
    ensures var row := s.subs[i]; var until := row.periodEnd + cfg.renewalGrace;
      SweepOne(cfg, s, i, row) ==
        Done(s.(subs := s.subs[i := if s.clock < until then row.(status := PastDue, graceUntil := Some(until)) else EndedRow(row, Expired)]), ())
  {
    hide Inv, Pay, Partition, ValidTiers, WorthNearest;
    RowsOk(cfg, s, i);
    RenewalKeyFresh(cfg, s, i);
    PairIs(cfg, s, i);
    RenewalPays(cfg, s, RenewalArgs(cfg, s, i), cost);
  }

  // ------------------------------------------------------------------ a sweep in two steps

  /**
   * A sweep charges or ends only what is still as it read it: a row whose period end moved on since is
   * left alone or paid for again, and one that changed its status is not turned past due.
   */
  lemma SweepStale(cfg: Config, s: State, i: nat, row: Sub)
    requires Books(s.ledger) && i < |s.subs| && SweepOne(cfg, s, i, row).Done?
    requires row.byProvider != Some(Stripe) && !row.cancelAtEnd && row.autoRenew
    requires s.subs[i].periodEnd != row.periodEnd
             || (s.subs[i].status != row.status == Active && row.graceUntil.None? && s.clock < row.periodEnd + cfg.renewalGrace && cfg.renewalGrace > 0)
    ensures var s' := SweepOne(cfg, s, i, row).state; s' == s || |s'.periods| == |s.periods| + 1
  {
    hide Pay, Books;
    var a := RenewArgs(cfg, row, Renewal(i, row.periodEnd, Attempt(s.ledger.journal, i, row.periodEnd, 0)));
    if Pay(cfg, s, a).Done? { PayGrants(cfg, s, a); }
  }

  /** Reading a renewing row and charging it at once does what the sweep's one step does, and leaves what was read. */
  lemma ReadThenCharge(cfg: Config, s: State, i: nat)
    requires Renewing(s, i) && (s.subs[i].status == PastDue ==> s.subs[i].graceUntil.Some? && s.clock < s.subs[i].graceUntil.value)
    ensures ReadDue(s, i).Done?
    ensures var read := ReadDue(s, i).value; var charged := ChargeRead(cfg, ReadDue(s, i).state, read);
      && read.sub == i && read.row == s.subs[i]
      && (charged.Done? ==>
            && SweepOne(cfg, s, i, s.subs[i]).Done?
            && charged.state == SweepOne(cfg, s, i, s.subs[i]).state.(sweeps := s.sweeps + {read}))
      && (charged.Fail? && charged.error != InsufficientFunds ==> SweepOne(cfg, s, i, s.subs[i]) == Fail(charged.error))
  {
    hide Pay;
    PaySweeps(cfg, s, RenewalArgs(cfg, s, i), s.sweeps + {ReadDue(s, i).value});
  }

  lemma PriceSweeps(cfg: Config, s: State, a: PayArgs, sweeps: set<SweepRead>)
    ensures Prior(s.(sweeps := sweeps), a) == Prior(s, a)
    ensures PriceOf(cfg, s.(sweeps := sweeps), a, Prior(s, a)) == PriceOf(cfg, s, a, Prior(s, a))
    ensures forall price :: FundsOf(cfg, s.(sweeps := sweeps), a, price) == FundsOf(cfg, s, a, price)
  {
    hide ReceiptEntries, ValueCents, SubShareBits, BitsForValueCents, FindPair;
  }

  /** Paying does not read what sweeps have read. */
  lemma PaySweeps(cfg: Config, s: State, a: PayArgs, sweeps: set<SweepRead>)
    ensures match Pay(cfg, s, a)
      case Done(s', o) => Pay(cfg, s.(sweeps := sweeps), a) == Done(s'.(sweeps := sweeps), o)
      case Fail(e) => Pay(cfg, s.(sweeps := sweeps), a) == Fail(e)
  {
    hide Post, Granted, PriceOf, FundsOf, FindKey, FindReceipt;
    PriceSweeps(cfg, s, a, sweeps);
    if a.subscriber != a.streamer {
      var r := PriceOf(cfg, s, a, Prior(s, a));
      if r.Ok? && FundsOf(cfg, s, a, r.value).Ok? {
        var p := PostOn(s, PeriodTxn(cfg, a, FundsOf(cfg, s, a, r.value).value));
        if p.Done? { GrantedSweeps(cfg, p.state, a, r.value, p.value.txn, sweeps); }
      }
    }
  }

  lemma GrantedSweeps(cfg: Config, s: State, a: PayArgs, price: int, txn: nat, sweeps: set<SweepRead>)
    ensures Granted(cfg, s.(sweeps := sweeps), a, price, txn) == Granted(cfg, s, a, price, txn).(sweeps := sweeps)
  {
  }
}
