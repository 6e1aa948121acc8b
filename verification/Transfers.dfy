/** server/ops/transfers.js: gifts, their partial refunds, and site-routed tips. */
module Transfers {
  import opened Basics
  import opened Schema
  import opened Journal
  import opened Rates
  import opened Common
  import opened Invariants
  import opened Store

  datatype GiftArgs = GiftArgs(from: Subject, to: Subject, amount: int, key: Key)
  datatype GiftRefundArgs = GiftRefundArgs(txn: nat, amount: Option<int>, key: Key)
  datatype TipArgs = TipArgs(
    provider: Provider, payment: nat, paidCents: int, from: Option<Subject>, to: Subject, key: Key, source: Option<nat>)

  predicate PositiveInt(n: int, max: int) { 0 < n <= SAFE && (max == 0 || n <= max) }

  function GiftTxn(cfg: Config, a: GiftArgs): Txn
  {
    Txn(Donation, a.key, [Entry(CreditOf(a.from), -a.amount), Entry(PayableOf(a.to), a.amount)], None,
        Some(a.from), Some(a.to), None, None, None, GiftMeta(a.amount), cfg.bitsPerUsd)
  }

  function Give(cfg: Config, s: State, a: GiftArgs): Step<Outcome>
  {
    if !PositiveInt(a.amount, cfg.maxBits) then Fail(InvalidAmount)
    else if a.from == a.to then Fail(SelfDealing)
    else
      var existing := FindKey(s.ledger.journal, a.key);
      if existing.Some? then Done(s, Outcome(existing.value, true))
      else if Bal(s.ledger, CreditOf(a.from)) < a.amount then Fail(InsufficientFunds)
      else PostOn(s, GiftTxn(cfg, a))
  }

  method Create(cfg: Config, db: Db, a: GiftArgs) returns (r: Result<Outcome, Error>)
    modifies db
    ensures db.Answers(old(db.View()), Give(cfg, old(db.View()), a), r)
  {
    if !PositiveInt(a.amount, cfg.maxBits) { return Err(InvalidAmount); }
    if a.from == a.to { return Err(SelfDealing); }
    var existing := FindKey(db.journal, a.key);
    if existing.Some? { return Ok(Outcome(existing.value, true)); }
    var enough := db.Holds(CreditOf(a.from), a.amount);
    if !enough { return Err(InsufficientFunds); }
    r := db.Post(GiftTxn(cfg, a));
  }

  function GiftRefundTxn(orig: Txn, a: GiftRefundArgs, amount: int): Txn
    requires orig.from.Some? && orig.to.Some?
  {
    Txn(Refund, a.key, [Entry(PayableOf(orig.to.value), -amount), Entry(CreditOf(orig.from.value), amount)], Some(a.txn),
        orig.to, orig.from, None, None, None, GiftRefundMeta(amount), 0)
  }

  function RefundGift(s: State, a: GiftRefundArgs): Step<Outcome>
  {
    var existing := FindKey(s.ledger.journal, a.key);
    if existing.Some? then Done(s, Outcome(existing.value, true))
    else if a.txn >= |s.ledger.journal| || s.ledger.journal[a.txn].ty != Donation then Fail(NotFound)
    else
      var orig := s.ledger.journal[a.txn];
      if orig.from.None? || orig.receipt.Some? || orig.to.None? || !orig.meta.GiftMeta? then Fail(NotRefundable)
      else
        var remaining := orig.meta.amountBits - RefundedBits(s.ledger.journal, a.txn);
        var amount := if a.amount.Some? then a.amount.value else remaining;
        if a.amount.Some? && !PositiveInt(amount, 0) then Fail(InvalidAmount)
        else if amount > remaining then Fail(AlreadyReversed)
        else if Bal(s.ledger, PayableOf(orig.to.value)) < amount then Fail(InsufficientFunds)
        else PostOn(s, GiftRefundTxn(orig, a, amount))
  }

  method RefundTransfer(db: Db, a: GiftRefundArgs) returns (r: Result<Outcome, Error>)
    modifies db
    ensures db.Answers(old(db.View()), RefundGift(old(db.View()), a), r)
  {
    var existing := FindKey(db.journal, a.key);
    if existing.Some? { return Ok(Outcome(existing.value, true)); }
    if a.txn >= |db.journal| || db.journal[a.txn].ty != Donation { return Err(NotFound); }
    var orig := db.journal[a.txn];
    if orig.from.None? || orig.receipt.Some? || orig.to.None? || !orig.meta.GiftMeta? { return Err(NotRefundable); }
    var remaining := orig.meta.amountBits - RefundedBits(db.journal, a.txn);
    var amount := if a.amount.Some? then a.amount.value else remaining;
    if a.amount.Some? && !PositiveInt(amount, 0) { return Err(InvalidAmount); }
    if amount > remaining { return Err(AlreadyReversed); }
    var enough := db.Holds(PayableOf(orig.to.value), amount);
    if !enough { return Err(InsufficientFunds); }
    r := db.Post(GiftRefundTxn(orig, a, amount));
  }

  function TipTxn(cfg: Config, a: TipArgs): Txn
  {
    var bits := BitsForValueCents(cfg, a.paidCents);
    Txn(Donation, a.key, ReceiptEntries(cfg, a.provider, a.paidCents, bits, PayableOf(a.to)), None,
        a.from, Some(a.to), Some(Gateway(a.provider)), Some(Payment(a.provider, a.payment)), a.source,
        TipMeta(a.paidCents, bits), cfg.bitsPerUsd)
  }

  function TipFromReceipt(cfg: Config, s: State, a: TipArgs): Step<Outcome>
  {
    var dup := FindReceipt(s.ledger.journal, Payment(a.provider, a.payment));
    if dup.Some? then Done(s, Outcome(dup.value, true))
    else if !PositiveInt(a.paidCents, MAX_RECEIPT_CENTS) then Fail(InvalidAmount)
    else if a.from == Some(a.to) then Fail(SelfDealing)
    else if ValueCents(cfg, BitsForValueCents(cfg, a.paidCents)) > a.paidCents then Fail(Overcredit)
    else
      match PostOn(s, TipTxn(cfg, a))
      case Fail(e) => Fail(e)
      case Done(s', o) => Done(s', Outcome(o.txn, false))
  }

  method FromReceipt(cfg: Config, db: Db, a: TipArgs) returns (r: Result<Outcome, Error>)
    modifies db
    ensures db.Answers(old(db.View()), TipFromReceipt(cfg, old(db.View()), a), r)
  {
    var dup := FindReceipt(db.journal, Payment(a.provider, a.payment));
    if dup.Some? { return Ok(Outcome(dup.value, true)); }
    if !PositiveInt(a.paidCents, MAX_RECEIPT_CENTS) { return Err(InvalidAmount); }
    if a.from == Some(a.to) { return Err(SelfDealing); }
    if ValueCents(cfg, BitsForValueCents(cfg, a.paidCents)) > a.paidCents { return Err(Overcredit); }
    r := db.Post(TipTxn(cfg, a));
    if r.Ok? { r := Ok(Outcome(r.value.txn, false)); }
  }

  // ------------------------------------------------------------------ what they keep

  /** Two entries between bits accounts of ordinary kinds: no fx, no promo, nothing else touched. */
  lemma PairShape(t: Txn, x: Account, y: Account, amount: int)
    requires t.entries == [Entry(x, -amount), Entry(y, amount)] && x != y
    requires x.kind in {UserCredit, CreatorPayable} && y.kind in {UserCredit, CreatorPayable, PlatformRevenue}
    ensures FxMirror(t) && PromoIsolated(t) && PendingOwned(t)
    ensures forall a :: Delta(t.entries, a) == if a == x then -amount else if a == y then amount else 0
    ensures !Touches(t, PayoutsPending) && !Touches(t, ProjectPayable) && !Touches(t, PromoCredit) && !Touches(t, PromoReserve)
  {
    hide FxMirror, PromoIsolated, PendingOwned, Touches;
    PlainEntries(t);
    Sums2(Entry(x, -amount), Entry(y, amount));
    NoFxMirrors(t);
  }

  lemma GiveKeeps(cfg: Config, s: State, a: GiftArgs)
    requires Inv(cfg, s) && PlainKey(a.key) && !a.key.Delivered? && Give(cfg, s, a).Done?
    ensures Inv(cfg, Give(cfg, s, a).state)
  {
    hide JournalOk, PayoutsOk, PeriodsCharged, RenewalsOk, PromoOk, RatingOk, TotalsOk, VibesOk, HoldRowsOk, SubsOk, IntentsOk, Touches, Shape, Post,
         Bal, Delta;
    if FindKey(s.ledger.journal, a.key).None? {
      var t := GiftTxn(cfg, a);
      FreshPosts(s.ledger, t);
      GiftShape(cfg, a);
      PlainPost(cfg, s, t);
    }
  }

  lemma GiftShape(cfg: Config, a: GiftArgs)
    requires a.amount > 0 && a.from != a.to && !a.key.Delivered?
    ensures var t := GiftTxn(cfg, a);
      && Shape(cfg, t)
      && (forall x :: Delta(t.entries, x) == if x == CreditOf(a.from) then -a.amount else if x == PayableOf(a.to) then a.amount else 0)
      && !Touches(t, PayoutsPending) && !Touches(t, ProjectPayable) && !Touches(t, PromoCredit) && !Touches(t, PromoReserve)
  {
    hide Touches, FxMirror, PromoIsolated, PendingOwned, Delta;
    PairShape(GiftTxn(cfg, a), CreditOf(a.from), PayableOf(a.to), a.amount);
  }

  lemma TipShape(cfg: Config, a: TipArgs)
    requires a.paidCents > 0 && KeyMatchesSource(a.key, a.source)
    ensures Shape(cfg, TipTxn(cfg, a))
  {
    ReceiptShape(cfg, TipTxn(cfg, a), a.provider, a.paidCents, BitsForValueCents(cfg, a.paidCents), PayableOf(a.to));
  }

  lemma TipKeeps(cfg: Config, s: State, a: TipArgs)
    requires Inv(cfg, s)
    requires PlainKey(a.key) && KeyMatchesSource(a.key, a.source)
    requires TipFromReceipt(cfg, s, a).Done?
    ensures Inv(cfg, TipFromReceipt(cfg, s, a).state)
  {
    hide Shape, JournalOk, PayoutsOk, PeriodsCharged, RenewalsOk, PromoOk, RatingOk, TotalsOk, VibesOk, HoldRowsOk, SubsOk, IntentsOk, Touches, Post,
         Bal, Delta, ReceiptEntries, FxMirror, PromoIsolated, Cleared, ValueCents;
    if FindKey(s.ledger.journal, a.key).Some? {
      KnownReplays(s.ledger, TipTxn(cfg, a));
    } else if FindReceipt(s.ledger.journal, Payment(a.provider, a.payment)).None? {
      var t := TipTxn(cfg, a);
      FreshPosts(s.ledger, t);
      ReceiptShape(cfg, t, a.provider, a.paidCents, BitsForValueCents(cfg, a.paidCents), PayableOf(a.to));
      TipShape(cfg, a);
      PlainPost(cfg, s, t);
    }
  }

  /** A gift's refund stays within the gift: the totals survive it. */
  lemma GiftTotalsKept(l: Ledger, stored: Txn, i: nat, amount: int)
    requires TotalsOk(l) && i < |l.journal| && l.journal[i].meta.GiftMeta?
    requires forall k :: 0 <= k < |l.journal| && l.journal[k].reverses.Some? ==> l.journal[k].reverses.value < k
    requires stored.ty == Refund && stored.reverses == Some(i) && stored.meta == GiftRefundMeta(amount)
    requires 0 <= amount <= l.journal[i].meta.amountBits - RefundedBits(l.journal, i)
    ensures TotalsOk(Ledger(l.journal + [stored], l.balances))
  {
    var j := l.journal + [stored];
    forall k | 0 <= k < |j| ensures TotalsAt(j, k) {
      if k == |l.journal| {
        TotalsAtFresh(l.journal, stored);
      } else if k != i {
        TotalsAtKept(l.journal, stored, k);
      } else {
        assert TotalsAt(l.journal, i);
        AppendTotals(l.journal, stored, i);
      }
    }
  }

  lemma RefundGiftKeeps(cfg: Config, s: State, a: GiftRefundArgs)
    requires Inv(cfg, s) && PlainKey(a.key) && !a.key.Delivered? && RefundGift(s, a).Done?
    ensures Inv(cfg, RefundGift(s, a).state)
  {
    hide JournalOk, NonNegative, PayoutsOk, PeriodsCharged, RenewalsOk, PromoOk, RatingOk, VibesOk, HoldRowsOk, SubsOk, TotalsOk, Shape, Post;
    if FindKey(s.ledger.journal, a.key).None? {
      var orig := s.ledger.journal[a.txn];
      RefundAmount(s.ledger, a.txn);
      var remaining := orig.meta.amountBits - RefundedBits(s.ledger.journal, a.txn);
      var amount := if a.amount.Some? then a.amount.value else remaining;
      FreshPosts(s.ledger, GiftRefundTxn(orig, a, amount));
      RefundPosted(cfg, s, a, GiftRefundTxn(orig, a, amount), orig, amount);
    }
  }

  lemma RefundAmount(l: Ledger, i: nat)
    requires TotalsOk(l) && i < |l.journal| && l.journal[i].meta.GiftMeta?
    ensures RefundedBits(l.journal, i) <= l.journal[i].meta.amountBits
  {
    assert TotalsAt(l.journal, i);
  }

  lemma GiftRefundShape(cfg: Config, t: Txn, orig: Txn, a: GiftRefundArgs, amount: int)
    requires orig.from.Some? && orig.to.Some? && !a.key.Delivered? && amount >= 0
    requires t == GiftRefundTxn(orig, a, amount)
    ensures Shape(cfg, t)
    ensures forall x ::
      (Delta(t.entries, x) == if x == PayableOf(orig.to.value) then -amount else if x == CreditOf(orig.from.value) then amount else 0)
    ensures !Touches(t, PayoutsPending) && !Touches(t, ProjectPayable) && !Touches(t, PromoCredit) && !Touches(t, PromoReserve)
  {
    hide Touches, FxMirror, PromoIsolated, PendingOwned, Delta;
    PairShape(t, PayableOf(orig.to.value), CreditOf(orig.from.value), amount);
  }

  lemma RefundPosted(cfg: Config, s: State, a: GiftRefundArgs, t: Txn, orig: Txn, amount: int)
    requires Inv(cfg, s) && Post(s.ledger, t).Posted?
    requires a.txn < |s.ledger.journal| && orig == s.ledger.journal[a.txn]
    requires orig.ty == Donation && orig.meta.GiftMeta? && orig.from.Some? && orig.to.Some?
    requires PlainKey(a.key) && !a.key.Delivered? && t == GiftRefundTxn(orig, a, amount)
    requires 0 <= amount <= orig.meta.amountBits - RefundedBits(s.ledger.journal, a.txn)
    requires amount <= Bal(s.ledger, PayableOf(orig.to.value))
    ensures Inv(cfg, s.(ledger := Post(s.ledger, t).ledger))
  {
    hide JournalOk, PayoutsOk, PeriodsCharged, RenewalsOk, PromoOk, RatingOk, VibesOk, HoldRowsOk, SubsOk, IntentsOk, Touches, FxMirror, PromoIsolated,
         PendingOwned, TotalsAt, TotalsOk, Shape, Post, Bal, Delta;
    GiftRefundShape(cfg, t, orig, a, amount);
    PostKeeps(cfg, s, t);
    BooksOf(cfg, s.ledger);
    FundsKept(s.ledger, t);
    BackRefs(cfg, s.ledger);
    var stored := Appended(s.ledger, t);
    GiftTotalsKept(s.ledger, stored, a.txn, amount);
    TotalsOfJournal(Ledger(s.ledger.journal + [stored], s.ledger.balances), Post(s.ledger, t).ledger);
  }
}
