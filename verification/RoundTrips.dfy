/**
 * There and back: a top-up, a purchase or a membership that has just been paid and is then returned
 * whole leaves every balance as it was, but for what the platform books.
 */
module RoundTrips {
  import opened Basics
  import opened Schema
  import opened Journal
  import opened Rates
  import opened Common
  import opened Invariants
  import opened Purchases
  import opened Topups
  import opened Subscriptions
  import opened Reversals
  import opened Movements
  import opened Memberships
  import opened Recoveries
  import Entitlements

  // ------------------------------------------------------------------ a transaction just recorded

  lemma LastReceipt(l: Ledger, l': Ledger, t: Txn, x: ReceiptRef)
    requires Records(l, l', t) && t.receipt == Some(x) && FindReceipt(l.journal, x).None?
    ensures FindReceipt(l'.journal, x) == Some(|l.journal|)
  {
    assert l'.journal[..|l'.journal| - 1] == l.journal;
  }

  /** Nothing of it has been returned yet. */
  lemma NothingReturned(cfg: Config, l: Ledger, l': Ledger, t: Txn)
    requires JournalOk(cfg, l) && Records(l, l', t) && !IsReversal(t)
    ensures ReversedCents(l'.journal, |l.journal|) == 0
  {
    hide Shape, Books;
    NoneReturned(l.journal, |l.journal|);
    assert l'.journal[..|l'.journal| - 1] == l.journal;
  }

  lemma {:induction false} NoneReturned(j: seq<Txn>, i: nat)
    requires forall k :: 0 <= k < |j| ==> j[k].reverses != Some(i)
    ensures ReversedCents(j, i) == 0
  {
    if j != [] { NoneReturned(j[..|j| - 1], i); }
  }

  lemma ReturnedWhole(s: State, a: ReverseArgs, i: nat, cents: int)
    requires Returning(s, a, i, cents) && a.ask == Whole && ReversedCents(s.ledger.journal, i) == 0
    ensures cents == PaidCents(s.ledger.journal[i].meta)
  {
  }

  // ------------------------------------------------------------------ a top-up

  /**
   * A top-up returned whole before anything else happens leaves every balance as it was. A Balance that was
   * already below zero keeps as much of it as it was short, and owes that as debt; no other account differs.
   */
  lemma TopupThenReverse(cfg: Config, s: State, a: TopupArgs, b: ReverseArgs)
    requires Inv(cfg, s) && PlainKey(a.key) && KeyMatchesSource(a.key, a.source)
    requires SettleTopup(cfg, s, a).Done? && SettleTopup(cfg, s, a).value.Credited? && !SettleTopup(cfg, s, a).value.replay
    requires var s1 := SettleTopup(cfg, s, a).state;
      && b.original == Payment(a.provider, a.payment) && b.ask == Whole
      && Reverse(cfg, s1, b).Done? && Reverse(cfg, s1, b).value.Answered? && !Reverse(cfg, s1, b).value.replay
    ensures a.intent.Some? && a.intent.value < |s.intents|
    ensures var i := s.intents[a.intent.value]; var account := BalanceOf(i.subject, i.project);
      var short := Max(0, Min(i.topupCents * NANO_PER_CENT, -Bal(s.ledger, account)));
      forall x :: Bal(Reverse(cfg, SettleTopup(cfg, s, a).state, b).state.ledger, x)
        == Bal(s.ledger, x) + (if x == account then short else if x == DEBT then -short else 0)
  {
    hide Inv, Books, SettleTopup, Reverse, Returning, Moves, JournalOk, TotalsOk, TopupTaken, ReversedCents;
    InvBooks(cfg, s);
    InvLedger(cfg, s);
    FreshTopup(cfg, s, a);
    TopupMoves(cfg, s, a);
    SettleTopupKeeps(cfg, s, a);
    var s1, n := SettleTopup(cfg, s, a).state, |s.ledger.journal|;
    InvLedger(cfg, s1);
    var i := s.intents[a.intent.value];
    LastReceipt(s.ledger, s1.ledger, s1.ledger.journal[n], b.original);
    NothingReturned(cfg, s.ledger, s1.ledger, s1.ledger.journal[n]);
    ReverseTopupMoves(cfg, s1, b);
    var k, cents :| Returning(s1, b, k, cents) && TopupTaken(cfg, s1, Reverse(cfg, s1, b).state.ledger, b, k, cents);
    ReturningAt(s1, b, k, cents);
    ReturnedWhole(s1, b, k, cents);
    TopupBack(cfg, s, a, s1, b, Reverse(cfg, s1, b).state.ledger, i);
  }

  lemma InvLedger(cfg: Config, s: State)
    requires Inv(cfg, s)
    ensures JournalOk(cfg, s.ledger) && TotalsOk(s.ledger) && SubsOk(cfg, s)
  {
  }

  lemma FreshTopup(cfg: Config, s: State, a: TopupArgs)
    requires SettleTopup(cfg, s, a).Done? && SettleTopup(cfg, s, a).value.Credited? && !SettleTopup(cfg, s, a).value.replay
    ensures FindReceipt(s.ledger.journal, Payment(a.provider, a.payment)).None? && a.paidCents > 0
    ensures a.intent.Some? && a.intent.value < |s.intents| && s.intents[a.intent.value].topupCents > 0
  {
    hide Post;
  }

  lemma TopupBack(cfg: Config, s: State, a: TopupArgs, s1: State, b: ReverseArgs, after: Ledger, i: Intent)
    requires a.paidCents > 0 && i.topupCents > 0
    requires Posts(s.ledger, s1.ledger,
                   Txn(Credit, a.key, [], None, None, Some(i.subject), Some(Gateway(a.provider)), Some(Payment(a.provider, a.payment)), a.source,
                       TopupMeta(a.paidCents, i.topupCents * NANO_PER_CENT, i.project, a.intent), 0),
                   [ Change(ClearingOf(a.provider, Nano), -a.paidCents * NANO_PER_CENT),
                     Change(BalanceOf(i.subject, i.project), i.topupCents * NANO_PER_CENT),
                     Change(RevenueIn(Nano), (a.paidCents - i.topupCents) * NANO_PER_CENT) ])
    requires ReversedCents(s1.ledger.journal, |s.ledger.journal|) == 0
    requires TopupTaken(cfg, s1, after, b, |s.ledger.journal|, a.paidCents)
    ensures var account := BalanceOf(i.subject, i.project);
      var short := Max(0, Min(i.topupCents * NANO_PER_CENT, -Bal(s.ledger, account)));
      forall x :: Bal(after, x) == Bal(s.ledger, x) + (if x == account then short else if x == DEBT then -short else 0)
  {
    hide ReversedCents, Moves, TopupTaken, ChangeOf, Bal;
    var account, nano, paid := BalanceOf(i.subject, i.project), i.topupCents * NANO_PER_CENT, a.paidCents * NANO_PER_CENT;
    var short := Max(0, Min(nano, -Bal(s.ledger, account)));
    var cs := [Change(ClearingOf(a.provider, Nano), -paid), Change(account, nano), Change(RevenueIn(Nano), paid - nano)];
    BalanceRaised(s.ledger, s1.ledger, cs, account, nano);
    var orig := s1.ledger.journal[|s.ledger.journal|];
    TakenWhole(cfg, s1, after, b, |s.ledger.journal|, orig, account, nano - short);
    var ds := [Change(ClearingOf(a.provider, Nano), paid), Change(account, -(nano - short)), Change(RevenueIn(Nano), -(paid - nano)), Change(DEBT, -short)];
    forall x ensures Bal(after, x) == Bal(s.ledger, x) + (if x == account then short else if x == DEBT then -short else 0) {
      MovesAt(s.ledger, s1.ledger, cs, x);
      MovesAt(s1.ledger, after, ds, x);
      ThreeChanges(cs[0], cs[1], cs[2], x);
      FourChanges(ds, x);
    }
  }

  lemma MovesAt(l: Ledger, l': Ledger, cs: seq<Change>, x: Account)
    requires Moves(l, l', cs)
    ensures Bal(l', x) == Bal(l, x) + ChangeOf(cs, x)
  {
  }

  lemma FourChanges(cs: seq<Change>, a: Account)
    requires |cs| == 4
    ensures ChangeOf(cs, a) == At(cs[0], a) + At(cs[1], a) + At(cs[2], a) + At(cs[3], a)
  {
    assert cs == [cs[0], cs[1], cs[2]] + [cs[3]];
    ThreeChanges(cs[0], cs[1], cs[2], a);
  }

  lemma BalanceRaised(l: Ledger, l1: Ledger, cs: seq<Change>, account: Account, n: int)
    requires Moves(l, l1, cs) && |cs| == 3 && cs[0].account != account && cs[1] == Change(account, n) && cs[2].account != account
    ensures Bal(l1, account) == Bal(l, account) + n
  {
    assert cs == [cs[0], cs[1], cs[2]];
    ThreeChanges(cs[0], cs[1], cs[2], account);
  }

  /** All of a top-up, with `taken` of what it bought still there. */
  lemma TakenWhole(cfg: Config, s: State, after: Ledger, b: ReverseArgs, n: nat, orig: Txn, account: Account, taken: int)
    requires n < |s.ledger.journal| && s.ledger.journal[n] == orig && orig.meta.TopupMeta? && orig.meta.paidCents > 0 && orig.meta.amountNano >= 0
    requires orig.to.Some? && orig.provider.Some? && orig.provider.value.Gateway?
    requires account == BalanceOf(orig.to.value, orig.meta.project) && taken == Max(0, Min(Bal(s.ledger, account), orig.meta.amountNano))
    requires ReversedCents(s.ledger.journal, n) == 0 && TopupTaken(cfg, s, after, b, n, orig.meta.paidCents)
    ensures var paid := orig.meta.paidCents * NANO_PER_CENT;
      Moves(s.ledger, after, [Change(ClearingOf(orig.provider.value.provider, Nano), paid), Change(account, -taken),
                              Change(RevenueIn(Nano), -(paid - orig.meta.amountNano)), Change(DEBT, -(orig.meta.amountNano - taken))])
  {
    hide ReversedCents, Moves, Bal;
    WholeShare(orig.meta.amountNano, orig.meta.paidCents);
  }

  lemma WholeShare(n: int, paid: int)
    requires paid > 0
    ensures (n * (0 + paid)) / paid - (n * 0) / paid == n
  {
    DivShift(0, n, paid);
    assert n * (0 + paid) == 0 + n * paid && n * 0 == 0;
  }

  lemma WholeRounded(n: int, paid: int)
    requires paid > 0
    ensures RoundDiv(n * (0 + paid), paid) - RoundDiv(n * 0, paid) == n
  {
    RoundExact(n, paid);
    ZeroShare(n, 0, paid);
    assert n * (0 + paid) == n * paid;
  }

  lemma ThreeChanges(c: Change, d: Change, e: Change, a: Account)
    ensures ChangeOf([c, d, e], a) == (if c.account == a then c.n else 0) + (if d.account == a then d.n else 0) + (if e.account == a then e.n else 0)
  {
    assert [c, d, e][..2] == [c, d];
    TwoChanges(c, d, a);
  }

  lemma FiveChanges(cs: seq<Change>, a: Account)
    requires |cs| == 5
    ensures ChangeOf(cs, a) == At(cs[0], a) + At(cs[1], a) + At(cs[2], a) + At(cs[3], a) + At(cs[4], a)
  {
    assert cs[..4][..3] == cs[..3] == [cs[0], cs[1], cs[2]];
    ThreeChanges(cs[0], cs[1], cs[2], a);
    assert ChangeOf(cs[..4], a) == ChangeOf(cs[..3], a) + At(cs[3], a);
  }

  lemma SixChanges(cs: seq<Change>, a: Account)
    requires |cs| == 6
    ensures ChangeOf(cs, a) == At(cs[0], a) + At(cs[1], a) + At(cs[2], a) + At(cs[3], a) + At(cs[4], a) + At(cs[5], a)
  {
    FiveChanges(cs[..5], a);
  }

  function At(c: Change, a: Account): int { if c.account == a then c.n else 0 }

  // ------------------------------------------------------------------ a purchase

  /** Bought Vibes refunded whole while they are all still there: only revenue and refunds differ, by the same amount. */
  lemma PurchaseThenReverse(cfg: Config, s: State, a: SettleArgs, b: ReverseArgs)
    requires ValidTiers(cfg) && Inv(cfg, s) && PlainKey(a.key) && KeyMatchesSource(a.key, a.source)
    requires Settle(cfg, s, a).Done? && !Settle(cfg, s, a).value.replay && FindKey(s.ledger.journal, a.key).None?
    requires var s1 := Settle(cfg, s, a).state;
      && b.original == Payment(a.provider, a.payment) && b.ask == Whole && !b.chargeback
      && Reverse(cfg, s1, b).Done? && Reverse(cfg, s1, b).value.Answered? && !Reverse(cfg, s1, b).value.replay
    ensures var after := Reverse(cfg, Settle(cfg, s, a).state, b).state.ledger;
      && (forall x :: x != RevenueIn(Cents) && x != REFUNDS ==> Bal(after, x) == Bal(s.ledger, x))
      && Bal(after, RevenueIn(Cents)) + Bal(after, REFUNDS) == Bal(s.ledger, RevenueIn(Cents)) + Bal(s.ledger, REFUNDS)
  {
    hide Inv, Books, Settle, Reverse, Returning, Moves, JournalOk, TotalsOk, PurchaseTaken, ReversedCents, ValidTiers, ReceiptChanges, ValueCents, BitsForPriceCents, SubsOk;
    InvBooks(cfg, s);
    InvLedger(cfg, s);
    PurchaseMoves(cfg, s, a);
    SettleKeeps(cfg, s, a);
    var s1, n := Settle(cfg, s, a).state, |s.ledger.journal|;
    var bits, subject :| Posts(s.ledger, s1.ledger, PurchaseRecord(cfg, a, subject, bits),
                               ReceiptChanges(cfg, a.provider, a.paidCents, bits, CreditOf(subject)))
      && 0 < bits && ValueCents(cfg, bits) <= a.paidCents;
    InvLedger(cfg, s1);
    CreditThere(cfg, s, subject);
    FreshReceipt(cfg, s, a);
    LastReceipt(s.ledger, s1.ledger, s1.ledger.journal[n], b.original);
    NothingReturned(cfg, s.ledger, s1.ledger, s1.ledger.journal[n]);
    ReversePurchaseMoves(cfg, s1, b);
    var k, cents :| Returning(s1, b, k, cents) && PurchaseTaken(cfg, s1, Reverse(cfg, s1, b).state.ledger, b, k, cents);
    ReturningAt(s1, b, k, cents);
    ReturnedWhole(s1, b, k, cents);
    PurchaseBack(cfg, s, a, s1, b, Reverse(cfg, s1, b).state.ledger, bits, subject);
  }

  lemma CreditThere(cfg: Config, s: State, p: Subject)
    requires Inv(cfg, s)
    ensures Bal(s.ledger, CreditOf(p)) >= 0 && Bal(s.ledger, PayableOf(p)) >= 0
  {
    hide JournalOk, PayoutsOk, PeriodsCharged, SubsOk, RenewalsOk, PromoOk, RatingOk, TotalsOk, VibesOk, HoldRowsOk, IntentsOk, Bal;
  }

  lemma FreshReceipt(cfg: Config, s: State, a: SettleArgs)
    requires ValidTiers(cfg) && Settle(cfg, s, a).Done? && !Settle(cfg, s, a).value.replay
    ensures FindReceipt(s.ledger.journal, Payment(a.provider, a.payment)).None?
  {
    hide Post, ChosenBits, ValidTiers;
  }

  lemma PurchaseBack(cfg: Config, s: State, a: SettleArgs, s1: State, b: ReverseArgs, after: Ledger, bits: int, subject: Subject)
    requires a.paidCents > 0 && 0 < bits && ValueCents(cfg, bits) <= a.paidCents && Bal(s.ledger, CreditOf(subject)) >= 0 && !b.chargeback
    requires Posts(s.ledger, s1.ledger, PurchaseRecord(cfg, a, subject, bits), ReceiptChanges(cfg, a.provider, a.paidCents, bits, CreditOf(subject)))
    requires ReversedCents(s1.ledger.journal, |s.ledger.journal|) == 0
    requires PurchaseTaken(cfg, s1, after, b, |s.ledger.journal|, a.paidCents)
    ensures forall x :: x != RevenueIn(Cents) && x != REFUNDS ==> Bal(after, x) == Bal(s.ledger, x)
    ensures Bal(after, RevenueIn(Cents)) + Bal(after, REFUNDS) == Bal(s.ledger, RevenueIn(Cents)) + Bal(s.ledger, REFUNDS)
  {
    hide ReversedCents, PurchaseTaken, ChangeOf, ValueCents, Bal;
    var cs := ReceiptChanges(cfg, a.provider, a.paidCents, bits, CreditOf(subject));
    FiveChanges(cs, CreditOf(subject));
    BoughtWhole(cfg, s1, after, b, |s.ledger.journal|, s1.ledger.journal[|s.ledger.journal|], bits, a.provider);
    var ds := WholeReturn(cfg, subject, bits, a.provider, a.paidCents);
    forall x ensures Bal(after, x) == Bal(s.ledger, x) + ChangeOf(cs, x) + ChangeOf(ds, x) {}
    forall x ensures ChangeOf(cs, x) + ChangeOf(ds, x)
      == (if x == RevenueIn(Cents) then a.paidCents - ValueCents(cfg, bits) else if x == REFUNDS then ValueCents(cfg, bits) - a.paidCents else 0)
    {
      FiveChanges(cs, x);
      SixChanges(ds, x);
    }
  }

  function WholeReturn(cfg: Config, subject: Subject, bits: int, p: Provider, paid: int): seq<Change>
  {
    [ Change(CreditOf(subject), -bits), Change(FX_BITS, bits), Change(FX_CENTS, -ValueCents(cfg, bits)), Change(ClearingOf(p, Cents), paid),
      Change(LOSS, 0), Change(REFUNDS, -(paid - ValueCents(cfg, bits))) ]
  }

  /** All of a purchase, with all it bought still there. */
  lemma BoughtWhole(cfg: Config, s: State, after: Ledger, b: ReverseArgs, n: nat, orig: Txn, bits: int, p: Provider)
    requires n < |s.ledger.journal| && s.ledger.journal[n] == orig && orig.meta.PurchaseMeta? && orig.meta.paidCents > 0
    requires orig.meta.bits == bits > 0 && ValueCents(cfg, bits) <= orig.meta.paidCents
    requires orig.to.Some? && orig.provider == Some(Gateway(p)) && Bal(s.ledger, CreditOf(orig.to.value)) >= bits && !b.chargeback
    requires ReversedCents(s.ledger.journal, n) == 0 && PurchaseTaken(cfg, s, after, b, n, orig.meta.paidCents)
    ensures Moves(s.ledger, after, WholeReturn(cfg, orig.to.value, bits, p, orig.meta.paidCents))
  {
    hide ReversedCents, Moves, Bal, RoundDiv, ValueCents;
    WholeRounded(bits, orig.meta.paidCents);
    NoValue(cfg);
  }

  // ------------------------------------------------------------------ a membership

  /** A membership paid from credit and refunded at once leaves every balance and everyone's entitlement as they were. */
  lemma PayThenRefundPeriod(cfg: Config, s: State, a: PayArgs, b: PeriodRefundArgs, subject: Subject, scope: Subject, at: Millis)
    requires Valid(cfg) && Inv(cfg, s) && PlainKey(a.key) && KeyMatchesSource(a.key, a.source) && a.source.None?
    requires a.funding.FromCredit? && Pay(cfg, s, a).Done? && !Pay(cfg, s, a).value.replay
    requires var s1 := Pay(cfg, s, a).state;
      b.txn == |s.ledger.journal| && RefundPeriod(cfg, s1, b).Done? && RefundPeriod(cfg, s1, b).value.Answered? && !RefundPeriod(cfg, s1, b).value.replay
    ensures var s' := RefundPeriod(cfg, Pay(cfg, s, a).state, b).state;
      && (forall x :: Bal(s'.ledger, x) == Bal(s.ledger, x))
      && (Entitlements.CoveredAt(s'.periods, subject, scope, at) <==> Entitlements.CoveredAt(s.periods, subject, scope, at))
  {
    hide Inv, Books, Pay, RefundPeriod, Moves, JournalOk, TotalsOk, SubsOk, WorthNearest, CreatorShare, Partition, ValidTiers, Writes, Granting, HasReversal, ValueCents;
    InvBooks(cfg, s);
    InvLedger(cfg, s);
    PayMoves(cfg, s, a);
    PaidCovers(cfg, s, a, subject, scope, at);
    PayKeeps(cfg, s, a);
    CreditThere(cfg, s, a.streamer);
    var s1 := Pay(cfg, s, a).state;
    var cost, share :| WorthNearest(cfg, cost, s1.subs[PaidSub(s, a)].priceCents) && CreatorShare(cfg, s1.subs[PaidSub(s, a)].priceCents, share)
      && Posts(s.ledger, s1.ledger, PeriodRecord(cfg, a, CreditPeriodMeta(cost, Min(cost, share), a.intent)), CreditChanges(a, cost, Min(cost, share)));
    InvLedger(cfg, s1);
    RefundPeriodMoves(cfg, s1, b);
    NotSelf(cfg, s, a);
    ShareNotNegative(cfg, cost, s1.subs[PaidSub(s, a)].priceCents, share);
    PeriodBack(cfg, s, a, s1, b, cost, Min(cost, share));
    PayGrants(cfg, s, a);
    PeriodGone(cfg, s, a, s1, RefundPeriod(cfg, s1, b).state, subject, scope, at);
  }

  lemma NotSelf(cfg: Config, s: State, a: PayArgs)
    requires Pay(cfg, s, a).Done?
    ensures a.subscriber != a.streamer
  {
    hide Post, PriceOf, FundsOf, Granted;
  }

  lemma ShareNotNegative(cfg: Config, cost: int, price: int, share: int)
    requires WorthNearest(cfg, cost, price) && CreatorShare(cfg, price, share)
    ensures cost >= 0 && share >= 0
  {
    NearestNotNegative(cfg, cost, price);
    var whole :| 100 * whole <= price * cfg.subSharePct < 100 * whole + 100 && WorthNearest(cfg, share, whole);
    NearestNotNegative(cfg, share, whole);
  }

  lemma NearestNotNegative(cfg: Config, bits: int, cents: int)
    requires WorthNearest(cfg, bits, cents)
    ensures bits >= 0
  {
    if cents > 0 { MulMono(1, cents, cfg.bitsPerUsd); }
  }

  lemma PeriodBack(cfg: Config, s: State, a: PayArgs, s1: State, b: PeriodRefundArgs, cost: int, share: int)
    requires JournalOk(cfg, s1.ledger) && SubsOk(cfg, s1) && RefundPeriod(cfg, s1, b).Done?
    requires RefundPeriod(cfg, s1, b).value.Answered? && !RefundPeriod(cfg, s1, b).value.replay && b.txn == |s.ledger.journal|
    requires a.subscriber != a.streamer && 0 <= share <= cost && Bal(s.ledger, PayableOf(a.streamer)) >= 0
    requires Posts(s.ledger, s1.ledger, PeriodRecord(cfg, a, CreditPeriodMeta(cost, share, a.intent)), CreditChanges(a, cost, share))
    ensures forall x :: Bal(RefundPeriod(cfg, s1, b).state.ledger, x) == Bal(s.ledger, x)
  {
    hide JournalOk, SubsOk, RefundPeriod, ChangeOf, Bal, ValueCents, Granting, HasReversal, Revoked;
    RefundPeriodMoves(cfg, s1, b);
    var after := RefundPeriod(cfg, s1, b).state.ledger;
    var cs := CreditChanges(a, cost, share);
    ThreeChanges(cs[0], cs[1], cs[2], PayableOf(a.streamer));
    assert cs == [cs[0], cs[1], cs[2]];
    NoValue(cfg);
    var ds := [Change(CreditOf(a.subscriber), cost), Change(RevenueIn(Bits), -(cost - share)), Change(PayableOf(a.streamer), -share),
               Change(FX_BITS, 0), Change(FX_CENTS, 0), Change(LOSS, 0)];
    assert Moves(s1.ledger, after, ds);
    forall x ensures Bal(after, x) == Bal(s.ledger, x) {
      ThreeChanges(cs[0], cs[1], cs[2], x);
      SixChanges(ds, x);
    }
  }

  lemma PeriodGone(cfg: Config, s: State, a: PayArgs, s1: State, s': State, subject: Subject, scope: Subject, at: Millis)
    requires Inv(cfg, s) && Writes(cfg, s, s1, a) && Revoked(s1, s', |s.ledger.journal|, ForRefund)
    ensures Entitlements.CoveredAt(s'.periods, subject, scope, at) <==> Entitlements.CoveredAt(s.periods, subject, scope, at)
  {
    hide JournalOk, NonNegative, PayoutsOk, SubsOk, RenewalsOk, PromoOk, RatingOk, TotalsOk, VibesOk, HoldRowsOk, IntentsOk, PriceAsked;
    var n := |s.periods|;
    assert forall k :: 0 <= k < n ==> s'.periods[k] == s.periods[k];
    assert s'.periods[n].revoked.Some?;
    if k :| 0 <= k < n && Entitlements.Grants(s.periods[k], subject, scope, at) { assert Entitlements.Grants(s'.periods[k], subject, scope, at); }
  }
}
