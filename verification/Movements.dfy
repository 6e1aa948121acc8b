/**
 * What each operation moves and records: the transaction it appends, the whole change of every
 * balance and the rows it writes, and nothing anywhere else. Replays move nothing.
 */
module Movements {
  import opened Basics
  import opened Schema
  import opened Journal
  import opened Rates
  import opened Common
  import opened Invariants
  import opened Purchases
  import opened Topups
  import opened Transfers
  import opened Cashouts
  import opened Promo
  import opened Credits
  import opened Balance
  import opened Vibes

  /** `n` more in `a` than before; an account listed twice adds up. */
  datatype Change = Change(account: Account, n: int)

  function ChangeOf(cs: seq<Change>, a: Account): int
  {
    if cs == [] then 0 else ChangeOf(cs[..|cs| - 1], a) + (if cs[|cs| - 1].account == a then cs[|cs| - 1].n else 0)
  }

  /** Every balance moved by exactly what the list says. */
  ghost predicate Moves(before: Ledger, after: Ledger, cs: seq<Change>)
  {
    forall a :: Bal(after, a) == Bal(before, a) + ChangeOf(cs, a)
  }

  /** One transaction was appended, this one but for its entries. */
  ghost predicate Records(before: Ledger, after: Ledger, t: Txn)
  {
    && |after.journal| == |before.journal| + 1 && after.journal[..|before.journal|] == before.journal
    && after.journal[|before.journal|] == t.(entries := after.journal[|before.journal|].entries)
  }

  ghost predicate Posts(before: Ledger, after: Ledger, t: Txn, cs: seq<Change>) { Records(before, after, t) && Moves(before, after, cs) }

  /** The transaction an answer names carries the key. */
  predicate Carries(s: State, txn: nat, key: Key) { txn < |s.ledger.journal| && s.ledger.journal[txn].key == key }

  lemma {:induction false} EntriesAreChanges(es: seq<Entry>, cs: seq<Change>, a: Account)
    requires |es| == |cs| && forall i :: 0 <= i < |es| ==> es[i] == Entry(cs[i].account, cs[i].n)
    ensures Delta(es, a) == ChangeOf(cs, a)
  {
    if es != [] { EntriesAreChanges(es[..|es| - 1], cs[..|cs| - 1], a); }
  }

  ghost predicate Listed(es: seq<Entry>, cs: seq<Change>)
  {
    |es| == |cs| && forall i :: 0 <= i < |cs| ==> es[i] == Entry(cs[i].account, cs[i].n)
  }

  lemma LedgerPosts(l: Ledger, t: Txn, cs: seq<Change>)
    requires Books(l) && Post(l, t).Posted? && Listed(t.entries, cs)
    ensures Posts(l, Post(l, t).ledger, t.(entries := []), cs) && Post(l, t).txn == |l.journal|
  {
    hide Books, Post;
    PostEffect(l, t);
    forall a { EntriesAreChanges(t.entries, cs, a); }
  }

  /** A posting under a fresh key. */
  lemma PostMoves(s: State, t: Txn, cs: seq<Change>)
    requires Books(s.ledger) && FindKey(s.ledger.journal, t.key).None? && PostOn(s, t).Done? && Listed(t.entries, cs)
    ensures var r := PostOn(s, t);
      && Posts(s.ledger, r.state.ledger, t.(entries := []), cs)
      && r.state == s.(ledger := r.state.ledger) && r.value == Outcome(|s.ledger.journal|, false)
  {
    hide Books, Posts, Listed;
    FreshPosts(s.ledger, t);
    hide Post;
    LedgerPosts(s.ledger, t, cs);
  }

  // ------------------------------------------------------------------ receipts

  /** A receipt: the payment through clearing, the value across fx, the bits to the target, the rest to revenue. */
  function ReceiptChanges(cfg: Config, p: Provider, paid: int, bits: int, target: Account): seq<Change>
  {
    [ Change(ClearingOf(p, Cents), -paid), Change(RevenueIn(Cents), paid - ValueCents(cfg, bits)), Change(FX_CENTS, ValueCents(cfg, bits)),
      Change(FX_BITS, -bits), Change(target, bits) ]
  }

  lemma ReceiptListed(cfg: Config, p: Provider, paid: int, bits: int, target: Account)
    ensures Listed(ReceiptEntries(cfg, p, paid, bits, target), ReceiptChanges(cfg, p, paid, bits, target))
  {
  }

  /** What a settlement records of the payment. */
  function PurchaseRecord(cfg: Config, a: SettleArgs, subject: Subject, bits: int): Txn
  {
    Txn(Purchase, a.key, [], None, None, Some(subject), Some(Gateway(a.provider)), Some(Payment(a.provider, a.payment)), a.source,
        PurchaseMeta(a.paidCents, bits, a.intent), cfg.bitsPerUsd)
  }

  /**
   * A purchase credits the package of its intent when the payment covers it to the cent, else the
   * explicit bits, else what the price tiers give, never worth more than was paid; the intent is settled
   * by it. Under a key that was used for something else nothing is posted.
   */
  lemma PurchaseMoves(cfg: Config, s: State, a: SettleArgs)
    requires ValidTiers(cfg) && Books(s.ledger) && Settle(cfg, s, a).Done?
    ensures var r := Settle(cfg, s, a);
      if r.value.replay then r.state == s
      else if FindKey(s.ledger.journal, a.key).Some? then r.state == s.(intents := r.state.intents)
      else
        && r.value.txn == |s.ledger.journal| && r.state == s.(ledger := r.state.ledger, intents := r.state.intents)
        && 0 < a.paidCents <= MAX_RECEIPT_CENTS
        && exists bits: int, subject: Subject ::
             && Posts(s.ledger, r.state.ledger, PurchaseRecord(cfg, a, subject, bits),
                      ReceiptChanges(cfg, a.provider, a.paidCents, bits, CreditOf(subject)))
             && 0 < bits <= cfg.maxBits && ValueCents(cfg, bits) <= a.paidCents
             && (a.subject.Some? ==> a.subject == Some(subject))
             && (a.intent.None? && a.bits.Some? ==> bits == a.bits.value)
             && (a.intent.None? && a.bits.None? ==> bits == BitsForPriceCents(cfg, a.paidCents))
             && (a.intent.None? ==> a.subject.Some? && r.state.intents == s.intents)
             && (a.intent.Some? ==>
                   && a.intent.value < |s.intents| && var i := s.intents[a.intent.value];
                   && subject == i.subject && i.kind == PurchaseIntent && i.provider == a.provider
                   && (if i.bits != 0 && a.paidCents >= i.amountCents - 1 then bits == i.bits
                       else if a.bits.Some? then bits == a.bits.value else bits == BitsForPriceCents(cfg, a.paidCents))
                   && r.state.intents == s.intents[a.intent.value := i.(status := IntentSettled, settledTxn := Some(|s.ledger.journal|))])
  {
    hide Post, ValidTiers, Books, ValueCents, BitsForPriceCents, Posts, ReceiptChanges, ReceiptEntries, Listed;
    var r := Settle(cfg, s, a);
    if FindKey(s.ledger.journal, a.key).Some? {
      forall t: Txn | t.key == a.key { KnownReplays(s.ledger, t); }
    } else if !r.value.replay {
      var intent := if a.intent.Some? then Some(s.intents[a.intent.value]) else None;
      var subject := if intent.Some? then Some(intent.value.subject) else a.subject;
      var bits := ChosenBits(cfg, intent, a).value;
      ReceiptListed(cfg, a.provider, a.paidCents, bits, CreditOf(subject.value));
      PostMoves(s, PurchaseTxn(cfg, a, subject.value, bits), ReceiptChanges(cfg, a.provider, a.paidCents, bits, CreditOf(subject.value)));
      assert Posts(s.ledger, r.state.ledger, PurchaseRecord(cfg, a, subject.value, bits),
                   ReceiptChanges(cfg, a.provider, a.paidCents, bits, CreditOf(subject.value)));
    }
  }

  /** A site-routed tip becomes payable of the creator, to the nearest Vibe of the value rate, with no credit in between. */
  lemma TipMoves(cfg: Config, s: State, a: TipArgs)
    requires Books(s.ledger) && TipFromReceipt(cfg, s, a).Done?
    ensures var r := TipFromReceipt(cfg, s, a);
      if r.value.replay || FindKey(s.ledger.journal, a.key).Some? then r.state == s
      else
        && r.value.txn == |s.ledger.journal| && r.state == s.(ledger := r.state.ledger)
        && 0 < a.paidCents <= MAX_RECEIPT_CENTS && a.from != Some(a.to)
        && exists bits: int ::
             && WorthNearest(cfg, bits, a.paidCents) && ValueCents(cfg, bits) <= a.paidCents
             && Posts(s.ledger, r.state.ledger,
                      Txn(Donation, a.key, [], None, a.from, Some(a.to), Some(Gateway(a.provider)), Some(Payment(a.provider, a.payment)), a.source,
                          TipMeta(a.paidCents, bits), cfg.bitsPerUsd),
                      ReceiptChanges(cfg, a.provider, a.paidCents, bits, PayableOf(a.to)))
  {
    hide Post, Books, ValueCents, BitsForValueCents, WorthNearest, Posts, ReceiptChanges, ReceiptEntries, Listed;
    if FindKey(s.ledger.journal, a.key).Some? {
      KnownReplays(s.ledger, TipTxn(cfg, a));
    } else if !TipFromReceipt(cfg, s, a).value.replay {
      var bits := BitsForValueCents(cfg, a.paidCents);
      BitsAreNearest(cfg, a.paidCents);
      ReceiptListed(cfg, a.provider, a.paidCents, bits, PayableOf(a.to));
      PostMoves(s, TipTxn(cfg, a), ReceiptChanges(cfg, a.provider, a.paidCents, bits, PayableOf(a.to)));
    }
  }

  /**
   * A settled top-up adds the whole cents its intent asked for to the Balance of the intent's person or
   * project, takes the payment through clearing and books the rest, the fee, as revenue.
   */
  lemma TopupMoves(cfg: Config, s: State, a: TopupArgs)
    requires Books(s.ledger) && SettleTopup(cfg, s, a).Done?
    ensures var r := SettleTopup(cfg, s, a);
      if r.value.Skipped? || r.value.replay then r.state == s
      else
        && a.intent.Some? && a.intent.value < |s.intents| && var i := s.intents[a.intent.value];
        && i.kind == TopupIntent && i.provider == a.provider && a.paidCents >= i.amountCents
        && r.value.txn == |s.ledger.journal| && r.state == s.(ledger := r.state.ledger, intents := r.state.intents)
        && r.state.intents == s.intents[a.intent.value := i.(status := IntentSettled, settledTxn := Some(|s.ledger.journal|))]
        && Posts(s.ledger, r.state.ledger,
                 Txn(Credit, a.key, [], None, None, Some(i.subject), Some(Gateway(a.provider)), Some(Payment(a.provider, a.payment)), a.source,
                     TopupMeta(a.paidCents, i.topupCents * NANO_PER_CENT, i.project, a.intent), 0),
                 [ Change(ClearingOf(a.provider, Nano), -a.paidCents * NANO_PER_CENT),
                   Change(BalanceOf(i.subject, i.project), i.topupCents * NANO_PER_CENT),
                   Change(RevenueIn(Nano), (a.paidCents - i.topupCents) * NANO_PER_CENT) ])
  {
    hide Post, Books, Posts;
    var r := SettleTopup(cfg, s, a);
    if r.value.Credited? && !r.value.replay {
      var i := s.intents[a.intent.value];
      PostMoves(s, TopupTxn(a, i), [ Change(ClearingOf(a.provider, Nano), -a.paidCents * NANO_PER_CENT),
        Change(BalanceOf(i.subject, i.project), i.topupCents * NANO_PER_CENT), Change(RevenueIn(Nano), (a.paidCents - i.topupCents) * NANO_PER_CENT) ]);
    }
  }

  // ------------------------------------------------------------------ gifts

  function GiftRecord(cfg: Config, a: GiftArgs): Txn
  {
    Txn(Donation, a.key, [], None, Some(a.from), Some(a.to), None, None, None, GiftMeta(a.amount), cfg.bitsPerUsd)
  }

  lemma GiveMoves(cfg: Config, s: State, a: GiftArgs)
    requires Books(s.ledger) && Give(cfg, s, a).Done?
    ensures var r := Give(cfg, s, a);
      if r.value.replay then r.state == s && Carries(s, r.value.txn, a.key)
      else
        && r.value.txn == |s.ledger.journal| && r.state == s.(ledger := r.state.ledger)
        && 0 < a.amount <= Bal(s.ledger, CreditOf(a.from)) && a.from != a.to
        && Posts(s.ledger, r.state.ledger, GiftRecord(cfg, a), [Change(CreditOf(a.from), -a.amount), Change(PayableOf(a.to), a.amount)])
  {
    hide Books, Posts, PostOn;
    if FindKey(s.ledger.journal, a.key).None? {
      PostMoves(s, GiftTxn(cfg, a), [Change(CreditOf(a.from), -a.amount), Change(PayableOf(a.to), a.amount)]);
    }
  }

  /** A refund of a gift takes back what is asked, or all that is left, from the receiver to the giver. */
  lemma RefundGiftMoves(s: State, a: GiftRefundArgs)
    requires Books(s.ledger) && RefundGift(s, a).Done?
    ensures var r := RefundGift(s, a);
      if r.value.replay then r.state == s && Carries(s, r.value.txn, a.key)
      else
        && a.txn < |s.ledger.journal| && s.ledger.journal[a.txn].meta.GiftMeta?
        && s.ledger.journal[a.txn].from.Some? && s.ledger.journal[a.txn].to.Some?
        && var orig := s.ledger.journal[a.txn];
           var left := orig.meta.amountBits - RefundedBits(s.ledger.journal, a.txn);
           var n := if a.amount.Some? then a.amount.value else left;
           && n <= left && (a.amount.Some? ==> n > 0) && n <= Bal(s.ledger, PayableOf(orig.to.value))
           && r.value.txn == |s.ledger.journal| && r.state == s.(ledger := r.state.ledger)
           && Posts(s.ledger, r.state.ledger, Txn(Refund, a.key, [], Some(a.txn), orig.to, orig.from, None, None, None, GiftRefundMeta(n), 0),
                    [Change(PayableOf(orig.to.value), -n), Change(CreditOf(orig.from.value), n)])
           && RefundedBits(r.state.ledger.journal, a.txn) == RefundedBits(s.ledger.journal, a.txn) + n
  {
    hide Books, Moves, PostOn, RefundedBits;
    if FindKey(s.ledger.journal, a.key).None? {
      var orig := s.ledger.journal[a.txn];
      var n := if a.amount.Some? then a.amount.value else orig.meta.amountBits - RefundedBits(s.ledger.journal, a.txn);
      PostMoves(s, GiftRefundTxn(orig, a, n), [Change(PayableOf(orig.to.value), -n), Change(CreditOf(orig.from.value), n)]);
      RefundCounted(s.ledger, RefundGift(s, a).state.ledger, a, n, orig);
    }
  }

  lemma RefundCounted(l: Ledger, l': Ledger, a: GiftRefundArgs, n: int, orig: Txn)
    requires Records(l, l', Txn(Refund, a.key, [], Some(a.txn), orig.to, orig.from, None, None, None, GiftRefundMeta(n), 0))
    ensures RefundedBits(l'.journal, a.txn) == RefundedBits(l.journal, a.txn) + n
  {
    assert l'.journal[..|l'.journal| - 1] == l.journal;
  }

  /** A gift given and wholly refunded leaves every balance as it was, and nothing of it to refund again. */
  lemma GiveThenRefund(cfg: Config, s: State, a: GiftArgs, b: GiftRefundArgs)
    requires Inv(cfg, s) && Give(cfg, s, a).Done? && !Give(cfg, s, a).value.replay
    requires b.txn == Give(cfg, s, a).value.txn && b.amount.None? && b.key != a.key && FindKey(s.ledger.journal, b.key).None?
    requires RefundGift(Give(cfg, s, a).state, b).Done?
    ensures var s' := RefundGift(Give(cfg, s, a).state, b).state;
      && (forall x :: Bal(s'.ledger, x) == Bal(s.ledger, x))
      && b.txn < |s'.ledger.journal| && RefundedBits(s'.ledger.journal, b.txn) == a.amount
  {
    hide Inv, Books, Give, RefundGift, Moves, RefundedBits;
    InvBooks(cfg, s);
    GiveMoves(cfg, s, a);
    var s1 := Give(cfg, s, a).state;
    PostedBooks(cfg, s, a);
    LastKey(s.ledger, s1.ledger, GiftRecord(cfg, a), b.key);
    RefundGiftMoves(s1, b);
    RefundFresh(s1, b);
    NotRefundedYet(cfg, s, s1.ledger.journal);
    var x, y := CreditOf(a.from), PayableOf(a.to);
    MovesBack(s.ledger, s1.ledger, RefundGift(s1, b).state.ledger, x, y, a.amount);
  }

  lemma PostedBooks(cfg: Config, s: State, a: GiftArgs)
    requires Books(s.ledger) && Give(cfg, s, a).Done?
    ensures Books(Give(cfg, s, a).state.ledger)
  {
    hide Books;
    if FindKey(s.ledger.journal, a.key).None? {
      FreshPosts(s.ledger, GiftTxn(cfg, a));
      hide Post;
      PostEffect(s.ledger, GiftTxn(cfg, a));
    }
  }

  lemma LastKey(l: Ledger, l': Ledger, t: Txn, key: Key)
    requires Records(l, l', t) && t.key != key && FindKey(l.journal, key).None?
    ensures FindKey(l'.journal, key).None?
  {
    assert l'.journal[..|l'.journal| - 1] == l.journal;
  }

  lemma RefundFresh(s: State, b: GiftRefundArgs)
    requires FindKey(s.ledger.journal, b.key).None? && RefundGift(s, b).Done?
    ensures !RefundGift(s, b).value.replay
  {
    hide Post, RefundedBits;
    if b.txn < |s.ledger.journal| {
      forall t: Txn | t.key == b.key { FreshPosts(s.ledger, t); }
    }
  }

  /** Nothing refers to a transaction that is not there yet. */
  lemma NotRefundedYet(cfg: Config, s: State, later: seq<Txn>)
    requires Inv(cfg, s) && |later| == |s.ledger.journal| + 1 && later[..|s.ledger.journal|] == s.ledger.journal && later[|s.ledger.journal|].ty != Refund
    ensures RefundedBits(later, |s.ledger.journal|) == 0
  {
    hide NonNegative, PayoutsOk, PeriodsCharged, SubsOk, RenewalsOk, PromoOk, RatingOk, TotalsOk, VibesOk, HoldRowsOk, IntentsOk, Shape, Books;
    NoneRefund(s.ledger.journal, |s.ledger.journal|);
    assert later[..|later| - 1] == s.ledger.journal;
  }

  lemma {:induction false} NoneRefund(j: seq<Txn>, i: nat)
    requires forall k :: 0 <= k < |j| ==> j[k].reverses != Some(i)
    ensures RefundedBits(j, i) == 0
  {
    if j != [] { NoneRefund(j[..|j| - 1], i); }
  }

  lemma MovesBack(l: Ledger, l1: Ledger, l2: Ledger, x: Account, y: Account, n: int)
    requires Moves(l, l1, [Change(x, -n), Change(y, n)]) && Moves(l1, l2, [Change(y, -n), Change(x, n)])
    ensures forall a :: Bal(l2, a) == Bal(l, a)
  {
    forall a ensures Bal(l2, a) == Bal(l, a) {
      TwoChanges(Change(x, -n), Change(y, n), a);
      TwoChanges(Change(y, -n), Change(x, n), a);
    }
  }

  // ------------------------------------------------------------------ cashouts

  /** A request moves the amount into escrow, a project's through its owner, and opens one row for it. */
  lemma RequestMoves(cfg: Config, s: State, a: CashoutArgs)
    requires Books(s.ledger) && Request(cfg, s, a).Done?
    ensures var r := Request(cfg, s, a);
      if r.value.replay then
        r.state == s && Carries(s, r.value.txn, a.key) && s.ledger.journal[r.value.txn].from == Some(a.subject)
        && s.ledger.journal[r.value.txn].meta == CashoutMeta(a.amount, a.project)
      else
        && a.amount >= cfg.minCashoutBits && (a.project.Some? ==> a.ownsProject)
        && r.value.txn == |s.ledger.journal|
        && Records(s.ledger, r.state.ledger,
             Txn(CashoutRequest, a.key, [], None, Some(a.subject), None, None, None, None, CashoutMeta(a.amount, a.project), cfg.bitsPerUsd))
        && (forall x :: Bal(r.state.ledger, x) == Bal(s.ledger, x)
              + (if x == (if a.project.Some? then WalletOf(a.project.value) else PayableOf(a.subject)) then -a.amount
                 else if x == PendingOf(a.subject) then a.amount else 0))
        && r.state == s.(ledger := r.state.ledger, cashouts := s.cashouts + [Cashout(
             a.subject, a.project, a.amount, ValueCents(cfg, a.amount), Requested, s.clock + cfg.escrow, |s.ledger.journal|, None, None)])
  {
    hide Books, Post, ValueCents;
    if FindKey(s.ledger.journal, a.key).None? {
      var t := RequestTxn(cfg, a);
      FreshPosts(s.ledger, t);
      PostEffect(s.ledger, t);
      RequestDelta(cfg, a);
    }
  }

  lemma RequestDelta(cfg: Config, a: CashoutArgs)
    ensures forall x :: Delta(RequestTxn(cfg, a).entries, x) == if x == Source(a) then -a.amount else if x == PendingOf(a.subject) then a.amount else 0
  {
    if a.project.Some? {
      Sums4(Entry(WalletOf(a.project.value), -a.amount), Entry(PayableOf(a.subject), a.amount),
            Entry(PayableOf(a.subject), -a.amount), Entry(PendingOf(a.subject), a.amount));
    } else {
      Sums2(Entry(PayableOf(a.subject), -a.amount), Entry(PendingOf(a.subject), a.amount));
    }
  }

  /** A payout leaves escrow across fx to the payout provider, once its escrow is over. */
  lemma ApproveMoves(cfg: Config, s: State, a: ApproveArgs)
    requires Books(s.ledger) && Approve(cfg, s, a).Done? && (FindKey(s.ledger.journal, a.key).None? || !Awaits(s, a.cashout))
    ensures a.cashout < |s.cashouts|
    ensures var r := Approve(cfg, s, a); var c := s.cashouts[a.cashout];
      if r.value.replay then r.state == s && r.value.txn == c.requestTxn && c.status == Paid && c.payoutRef == Some(a.reference)
      else
        && c.status == Requested && c.escrowUntil <= s.clock && r.value.txn == |s.ledger.journal|
        && Posts(s.ledger, r.state.ledger,
                 Txn(CashoutPaid, a.key, [], None, Some(c.subject), None, Some(PayoutsOf(a.through)), Some(Payout(a.through, a.reference)), None,
                     CashoutMeta(c.amount, c.project), cfg.bitsPerUsd),
                 [ Change(PendingOf(c.subject), -c.amount), Change(FX_BITS, c.amount),
                   Change(FX_CENTS, -c.valueCents), Change(PayoutsThrough(a.through), c.valueCents) ])
        && r.state == s.(ledger := r.state.ledger, cashouts := s.cashouts[a.cashout := c.(
             status := Paid, settleTxn := Some(|s.ledger.journal|), payoutRef := Some(a.reference))])
  {
    hide Books, Posts, Post;
    var c := s.cashouts[a.cashout];
    if !Approve(cfg, s, a).value.replay {
      PostMoves(s, PaidTxn(cfg, c, a), [Change(PendingOf(c.subject), -c.amount), Change(FX_BITS, c.amount),
                                        Change(FX_CENTS, -c.valueCents), Change(PayoutsThrough(a.through), c.valueCents)]);
    }
  }

  /** A denied cashout returns to the payable of whoever asked, a project's owner included. */
  lemma DenyMoves(s: State, a: DenyArgs)
    requires Books(s.ledger) && Deny(s, a).Done? && (FindKey(s.ledger.journal, a.key).None? || !Awaits(s, a.cashout))
    ensures a.cashout < |s.cashouts|
    ensures var r := Deny(s, a); var c := s.cashouts[a.cashout];
      if r.value.replay then r.state == s && r.value.txn == c.requestTxn && c.status == Denied
      else
        && c.status == Requested && r.value.txn == |s.ledger.journal|
        && Posts(s.ledger, r.state.ledger,
                 Txn(CashoutDenied, a.key, [], Some(c.requestTxn), None, Some(c.subject), None, None, None, CashoutMeta(c.amount, c.project), 0),
                 [Change(PendingOf(c.subject), -c.amount), Change(PayableOf(c.subject), c.amount)])
        && r.state == s.(ledger := r.state.ledger, cashouts := s.cashouts[a.cashout := c.(
             status := Denied, settleTxn := Some(|s.ledger.journal|))])
  {
    hide Books, Posts, Post;
    var c := s.cashouts[a.cashout];
    if !Deny(s, a).value.replay {
      PostMoves(s, DeniedTxn(c, a), [Change(PendingOf(c.subject), -c.amount), Change(PayableOf(c.subject), c.amount)]);
    }
  }

  /** Asking and being refused leaves a person's balances as they were; a project's money stays with its owner. */
  lemma RequestThenDeny(cfg: Config, s: State, a: CashoutArgs, d: DenyArgs)
    requires Inv(cfg, s) && PlainKey(a.key) && !a.key.Delivered? && Request(cfg, s, a).Done? && !Request(cfg, s, a).value.replay
    requires d.cashout == |s.cashouts| && d.key != a.key && FindKey(Request(cfg, s, a).state.ledger.journal, d.key).None?
    requires Deny(Request(cfg, s, a).state, d).Done?
    ensures var s' := Deny(Request(cfg, s, a).state, d).state;
      forall x :: Bal(s'.ledger, x) == Bal(s.ledger, x)
        + (if x == Source(a) then -a.amount else 0) + (if x == PayableOf(a.subject) then a.amount else 0)
  {
    hide Inv, Books, Deny, Request, Records;
    InvBooks(cfg, s);
    RequestMoves(cfg, s, a);
    RequestKeeps(cfg, s, a);
    var s1 := Request(cfg, s, a).state;
    InvBooks(cfg, s1);
    DenyMoves(s1, d);
    var c := s1.cashouts[d.cashout];
    var cs := [Change(PendingOf(c.subject), -c.amount), Change(PayableOf(c.subject), c.amount)];
    forall x ensures ChangeOf(cs, x) == (if x == PendingOf(c.subject) then -c.amount else 0) + (if x == PayableOf(c.subject) then c.amount else 0) {
      TwoChanges(Change(PendingOf(c.subject), -c.amount), Change(PayableOf(c.subject), c.amount), x);
    }
    DeniedNow(s1, d);
  }

  lemma TwoChanges(c: Change, d: Change, a: Account)
    ensures ChangeOf([c, d], a) == (if c.account == a then c.n else 0) + (if d.account == a then d.n else 0)
  {
    assert [c, d][..1] == [c] && [c][..0] == [];
    assert ChangeOf([c], a) == if c.account == a then c.n else 0;
  }

  lemma DeniedNow(s: State, a: DenyArgs)
    requires FindKey(s.ledger.journal, a.key).None? && Deny(s, a).Done? && s.cashouts[a.cashout].status == Requested
    ensures !Deny(s, a).value.replay
  {
    hide Post;
    FreshPosts(s.ledger, DeniedTxn(s.cashouts[a.cashout], a));
  }

  lemma RecycleMoves(cfg: Config, s: State, a: RecycleArgs)
    requires Books(s.ledger) && RecyclePayable(cfg, s, a).Done?
    ensures var r := RecyclePayable(cfg, s, a);
      if r.value.replay then r.state == s && Carries(s, r.value.txn, a.key)
      else
        && 0 < a.amount <= Bal(s.ledger, PayableOf(a.subject))
        && r.value.txn == |s.ledger.journal| && r.state == s.(ledger := r.state.ledger)
        && Posts(s.ledger, r.state.ledger, Txn(Recycle, a.key, [], None, Some(a.subject), Some(a.subject), None, None, None, NoMeta, 0),
                 [Change(PayableOf(a.subject), -a.amount), Change(CreditOf(a.subject), a.amount)])
  {
    hide Books, Posts, PostOn;
    if FindKey(s.ledger.journal, a.key).None? {
      PostMoves(s, RecycleTxn(a), [Change(PayableOf(a.subject), -a.amount), Change(CreditOf(a.subject), a.amount)]);
    }
  }

  // ------------------------------------------------------------------ Balance

  /** Vibes bought from a Balance: the exact price, rounded up to a nano-USD, for exactly the Vibes asked. */
  lemma BuyMoves(cfg: Config, s: State, a: BuyArgs)
    requires Books(s.ledger) && BuyVibes(cfg, s, a).Done?
    ensures var r := BuyVibes(cfg, s, a); var wallet := BalanceOf(a.subject, None);
      if r.value.replay then
        r.state == s && Carries(s, r.value.txn, BalanceVibesKey(a.key)) && s.ledger.journal[r.value.txn].from == Some(a.subject)
        && s.ledger.journal[r.value.txn].meta == BalanceMeta(a.vibes, None)
      else
        && cfg.creditsOpen && cfg.vibesFromBalance && !s.frozen && a.vibes >= cfg.minPurchaseBits
        && r.value.txn == |s.ledger.journal| && r.state == s.(ledger := r.state.ledger)
        && exists price: int ::
             && cfg.bitsPerUsd * (price - 1) < a.vibes * NANO_PER_USD <= cfg.bitsPerUsd * price && price <= Available(s, wallet)
             && Posts(s.ledger, r.state.ledger,
                      Txn(Purchase, BalanceVibesKey(a.key), [], None, Some(a.subject), Some(a.subject), None, None, None, BalanceMeta(a.vibes, None), 0),
                      [Change(wallet, -price), Change(RevenueIn(Nano), price), Change(FX_BITS, -a.vibes), Change(CreditOf(a.subject), a.vibes)])
  {
    hide Books, Posts, PostOn;
    if FindKey(s.ledger.journal, BalanceVibesKey(a.key)).None? {
      var price := PriceNano(cfg, a.vibes);
      PostMoves(s, BuyTxn(cfg, a), [Change(BalanceOf(a.subject, None), -price), Change(RevenueIn(Nano), price), Change(FX_BITS, -a.vibes),
                                    Change(CreditOf(a.subject), a.vibes)]);
    }
  }

  lemma MoveMoves(cfg: Config, s: State, a: MoveArgs)
    requires Books(s.ledger) && Move(cfg, s, a).Done?
    ensures var r := Move(cfg, s, a); var wallet := BalanceOf(a.subject, None);
      if r.value.replay then
        r.state == s && Carries(s, r.value.txn, BalanceTransferKey(a.key)) && s.ledger.journal[r.value.txn].from == Some(a.subject)
        && s.ledger.journal[r.value.txn].meta == BalanceMeta(a.amount, Some(a.project))
      else
        && cfg.creditsOpen && !s.frozen && a.admin && 0 < a.amount <= Available(s, wallet)
        && r.value.txn == |s.ledger.journal| && r.state == s.(ledger := r.state.ledger)
        && Posts(s.ledger, r.state.ledger,
                 Txn(BalanceTransfer, BalanceTransferKey(a.key), [], None, Some(a.subject), None, None, None, None, BalanceMeta(a.amount, Some(a.project)), 0),
                 [Change(wallet, -a.amount), Change(BalanceOf(a.subject, Some(a.project)), a.amount)])
  {
    hide Books, Posts, PostOn;
    if FindKey(s.ledger.journal, BalanceTransferKey(a.key)).None? {
      PostMoves(s, MoveTxn(a), [Change(BalanceOf(a.subject, None), -a.amount), Change(BalanceOf(a.subject, Some(a.project)), a.amount)]);
    }
  }

  /** Sandbox Balance comes from its own issuer, to the person's or the project's sandbox account. */
  lemma SandboxMoves(cfg: Config, s: State, a: SandboxArgs)
    requires Books(s.ledger) && SandboxGrant(cfg, s, a).Done?
    ensures var r := SandboxGrant(cfg, s, a);
      && cfg.creditsOpen && cfg.sandboxOpen && !s.frozen && a.amount > 0
      && if r.value.replay then r.state == s && Carries(s, r.value.txn, SandboxGrantKey(a.grant))
         else
           && r.value.txn == |s.ledger.journal| && r.state == s.(ledger := r.state.ledger)
           && Posts(s.ledger, r.state.ledger, Txn(Credit, SandboxGrantKey(a.grant), [], None, None, Some(a.subject), None, None, None, NoMeta, 0),
                    [Change(SANDBOX_ISSUER, -a.amount),
                     Change(Account(UsdCreditSandbox, if a.project.Some? then ProjectOf(a.project.value) else Person(a.subject), Nano), a.amount)])
  {
    hide Books, Posts, Post;
    var t := SandboxTxn(a);
    if FindKey(s.ledger.journal, t.key).None? {
      PostMoves(s, t, [Change(SANDBOX_ISSUER, -a.amount), Change(SandboxBalanceOf(a.subject, a.project), a.amount)]);
    } else {
      KnownReplays(s.ledger, t);
    }
  }

  // ------------------------------------------------------------------ Vibes Pay

  /** Test Vibes come from their own issuer, to the tester's pocket of the calling app. */
  lemma TestVibesMoves(cfg: Config, s: State, a: TestVibesArgs)
    requires Books(s.ledger) && TestVibes(cfg, s, a).Done?
    ensures var r := TestVibes(cfg, s, a);
      && a.app.sandbox && cfg.vibesSandbox && !s.frozen && 0 < a.amount <= MAX_VIBES
      && if r.value.replay then r.state == s && Carries(s, r.value.txn, VibesGrantKey(a.grant))
         else
           && r.value.txn == |s.ledger.journal| && r.state == s.(ledger := r.state.ledger)
           && Posts(s.ledger, r.state.ledger, Txn(VibesGrant, VibesGrantKey(a.grant), [], None, None, Some(a.subject), None, None, None, NoMeta, 0),
                    [Change(VIBES_ISSUER, -a.amount), Change(SandboxPocket(a.app.id, a.subject), a.amount)])
  {
    hide Books, Posts, Post;
    var t := TestVibesTxn(a);
    if FindKey(s.ledger.journal, t.key).None? {
      PostMoves(s, t, [Change(VIBES_ISSUER, -a.amount), Change(SandboxPocket(a.app.id, a.subject), a.amount)]);
    } else {
      KnownReplays(s.ledger, t);
    }
  }

  lemma PayChargeMoves(cfg: Config, s: State, i: nat, p: Subject)
    requires Books(s.ledger) && VibesOk(cfg, s) && PayCharge(cfg, s, i, p).Done? && PayCharge(cfg, s, i, p).value.PaidNow?
    ensures i < |s.charges|
    ensures var r := PayCharge(cfg, s, i, p); var c := s.charges[i];
      && !s.frozen && c.status == Pending && s.clock < c.expiresAt && c.amount <= Bal(s.ledger, PayerAccount(c.sandbox, c.app, p))
      && r.value.txn == |s.ledger.journal|
      && Posts(s.ledger, r.state.ledger, Txn(VibesCharge, ChargePaidKey(i), [], None, Some(p), None, None, None, None, NoMeta, 0),
               [Change(PayerAccount(c.sandbox, c.app, p), -c.amount), Change(ProjectAccount(c.sandbox, c.app, c.project), c.amount)])
      && r.state == s.(ledger := r.state.ledger, charges := s.charges[i := c.(status := ChargePaid, paidAt := s.clock, payer := Some(p))])
  {
    hide Books, VibesOk, Post, PayRefused, Posts;
    PayPosts(cfg, s, i, p);
    var c := s.charges[i];
    PostMoves(s, PayTxn(cfg, c, i, p), [Change(PayerAccount(c.sandbox, c.app, p), -c.amount), Change(ProjectAccount(c.sandbox, c.app, c.project), c.amount)]);
  }

  lemma RefundChargeMoves(cfg: Config, s: State, i: nat, app: nat)
    requires Books(s.ledger) && VibesOk(cfg, s) && RefundCharge(cfg, s, i, app).Done? && RefundCharge(cfg, s, i, app).value.RefundedNow?
    ensures i < |s.charges| && s.charges[i].payer.Some?
    ensures var r := RefundCharge(cfg, s, i, app); var c := s.charges[i]; var p := c.payer.value;
      && !s.frozen && c.app == app && c.status == ChargePaid && r.value.txn == |s.ledger.journal|
      && Posts(s.ledger, r.state.ledger, Txn(VibesRefund, ChargeRefundKey(i), [], None, None, Some(p), None, None, None, NoMeta, 0),
               [Change(ProjectAccount(c.sandbox, c.app, c.project), -c.amount), Change(PayerAccount(c.sandbox, c.app, p), c.amount)])
      && r.state == s.(ledger := r.state.ledger, charges := s.charges[i := c.(status := ChargeRefunded)])
  {
    hide Books, VibesOk, Post, Posts;
    RefundPosts(cfg, s, i, app);
    var c := s.charges[i];
    PostMoves(s, RefundTxn(c, i, c.payer.value),
      [Change(ProjectAccount(c.sandbox, c.app, c.project), -c.amount), Change(PayerAccount(c.sandbox, c.app, c.payer.value), c.amount)]);
  }

  /** A paid charge refunded moves its amount back, so paying and refunding leave every balance as it was. */
  lemma PayThenRefund(cfg: Config, s: State, i: nat, p: Subject, app: nat)
    requires Inv(cfg, s) && PayCharge(cfg, s, i, p).Done? && PayCharge(cfg, s, i, p).value.PaidNow?
    requires RefundCharge(cfg, PayCharge(cfg, s, i, p).state, i, app).Done?
    ensures var s' := RefundCharge(cfg, PayCharge(cfg, s, i, p).state, i, app).state;
      && (forall a :: Bal(s'.ledger, a) == Bal(s.ledger, a))
      && i < |s'.charges| && s'.charges[i].status == ChargeRefunded
  {
    hide Inv, PayCharge, RefundCharge, Books, VibesOk;
    InvVibes(cfg, s);
    InvBooks(cfg, s);
    PayChargeMoves(cfg, s, i, p);
    PayChargeKeeps(cfg, s, i, p);
    var s1 := PayCharge(cfg, s, i, p).state;
    InvVibes(cfg, s1);
    InvBooks(cfg, s1);
    PaidIsNotRefunded(cfg, s1, i, app);
    RefundChargeMoves(cfg, s1, i, app);
    var c := s.charges[i];
    var x, y := PayerAccount(c.sandbox, c.app, p), ProjectAccount(c.sandbox, c.app, c.project);
    var s' := RefundCharge(cfg, s1, i, app).state;
    forall a ensures Bal(s'.ledger, a) == Bal(s.ledger, a) {
      TwoChanges(Change(x, -c.amount), Change(y, c.amount), a);
      TwoChanges(Change(y, -c.amount), Change(x, c.amount), a);
    }
  }

  lemma PaidIsNotRefunded(cfg: Config, s: State, i: nat, app: nat)
    requires i < |s.charges| && s.charges[i].status == ChargePaid && RefundCharge(cfg, s, i, app).Done?
    ensures RefundCharge(cfg, s, i, app).value.RefundedNow?
  {
    hide Post;
  }

  // ------------------------------------------------------------------ promo

  /** A grant raises the person's promo credit and the window open now by the bits granted. */
  lemma GrantMoves(cfg: Config, s: State, a: GrantArgs)
    requires Valid(cfg) && Inv(cfg, s) && Grant(cfg, s, a).Done? && FindKey(s.ledger.journal, PromoGrantKey(a.key)).None?
    ensures var s' := Grant(cfg, s, a).state; var now := LapseAll(s, a.subject);
      && now.Done?
      && Bal(s'.ledger, PromoOf(a.subject)) == Bal(now.state.ledger, PromoOf(a.subject)) + a.bits
      && Remaining(s', a.subject, a.service) == Remaining(s, a.subject, a.service) + a.bits
      && (forall x: Account :: !IsPromo(x.kind) ==> Bal(s'.ledger, x) == Bal(s.ledger, x))
  {
    hide Inv, Valid, LapseAll, Post, PromoOk, Topped, OpenBy, OpenOf, LapsedTo, Books;
    ToppedElsewhere(cfg, s, a);
    LapseKeeps(cfg, s, a.subject);
    var s1 := LapseAll(s, a.subject).state;
    LapsedFacts(s, s1, a.subject);
    InvBooks(cfg, s1);
    FreshAfterLapse(s, s1, a);
    ToppedElsewhere(cfg, s1, a);
    var s2 := Topped(cfg, s1, a);
    var t := GrantTxn(a);
    FreshPosts(s1.ledger, t);
    PostEffect(s1.ledger, t);
    Sums2(t.entries[0], t.entries[1]);
    assert t.entries == [t.entries[0], t.entries[1]];
    GrantKeeps(cfg, s, a);
    PromoOfInv(cfg, s);
    PromoOfInv(cfg, s1);
    PromoOfInv(cfg, Grant(cfg, s, a).state);
    RemainingIsOpen(cfg, s, a.subject, a.service);
    RemainingIsOpen(cfg, Grant(cfg, s, a).state, a.subject, a.service);
    LapseHidesNothing(s.allowances, s1.allowances, a.subject, a.service, s.clock);
    ToppedOpens(cfg, s1, a);
  }

  lemma LapsedFacts(s: State, s1: State, p: Subject)
    requires LapsedTo(s, s1, p)
    ensures s1.clock == s.clock && |s1.allowances| == |s.allowances| && PromoGrowth(s.ledger.journal, s1.ledger.journal)
    ensures forall a: Account :: !IsPromo(a.kind) ==> Bal(s1.ledger, a) == Bal(s.ledger, a)
    ensures forall i :: 0 <= i < |s.allowances| ==>
      s1.allowances[i] == s.allowances[i] || (s1.allowances[i] == s.allowances[i].(expired := s1.allowances[i].expired) && s.allowances[i].end <= s.clock)
  {
  }

  lemma FreshAfterLapse(s: State, s1: State, a: GrantArgs)
    requires PromoGrowth(s.ledger.journal, s1.ledger.journal) && FindKey(s.ledger.journal, PromoGrantKey(a.key)).None?
    ensures FindKey(s1.ledger.journal, PromoGrantKey(a.key)).None?
  {
    StillFresh(s.ledger.journal, s1.ledger.journal, PromoGrantKey(a.key));
  }

  /** With rows and journal in step, what remains is what the open windows hold. */
  lemma RemainingIsOpen(cfg: Config, s: State, p: Subject, service: nat)
    requires PromoOk(cfg, s)
    ensures Remaining(s, p, service) == OpenBy(s.allowances, p, service, s.clock, None)
  {
    PromoFacts(cfg, s, p);
    OpenBounds(s.allowances, p, service, s.clock, None);
  }

  lemma ToppedOpens(cfg: Config, s: State, a: GrantArgs)
    requires Valid(cfg) && PromoOk(cfg, s)
    ensures OpenBy(Topped(cfg, s, a).allowances, a.subject, a.service, s.clock, None)
      == OpenBy(s.allowances, a.subject, a.service, s.clock, None) + a.bits
  {
    hide ValidTiers;
    var w := cfg.windowOf(a.reset, s.clock);
    var found := FindWindow(s.allowances, a, w.start);
    assert w.start <= s.clock < w.end;
    if found.Some? {
      var row := s.allowances[found.value];
      assert AllowanceOk(cfg, row);
      assert cfg.windowOf(a.reset, w.start) == w;
      OpenByRaised(s.allowances, found.value, row.(granted := row.granted + a.bits), a.subject, a.service, s.clock);
    } else {
      var row := Allowance(a.subject, a.service, a.reset, a.bits, 0, 0, w.start, w.end);
      assert (s.allowances + [row])[..|s.allowances|] == s.allowances;
    }
  }

  lemma {:induction false} OpenByRaised(rows: seq<Allowance>, i: nat, r: Allowance, p: Subject, service: nat, now: Millis)
    requires i < |rows| && r == rows[i].(granted := r.granted) && Counted(r, p, service, now, None)
    ensures OpenBy(rows[i := r], p, service, now, None) == OpenBy(rows, p, service, now, None) + r.granted - rows[i].granted
  {
    var n := |rows| - 1;
    if i == n {
      assert rows[i := r][..n] == rows[..n];
    } else {
      assert rows[i := r][..n] == rows[..n][i := r];
      OpenByRaised(rows[..n], i, r, p, service, now);
    }
  }
}
