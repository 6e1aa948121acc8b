/** server/ops/topups.js and the intents it settles: a paid checkout adds to a Balance, once. */
module Topups {
  import opened Basics
  import opened Schema
  import opened Journal
  import opened Rates
  import opened Common
  import opened Invariants
  import opened Store
  import opened Transfers
  import opened Purchases

  // ------------------------------------------------------------------ starting a checkout

  datatype StartArgs = StartArgs(provider: Provider, enabled: bool, subject: Subject, project: Option<nat>, amountCents: int)

  /** The fee in whole cents: the least that is not below amount x bps / 10000. */
  function FeeCents(amount: int, bps: nat): int { CeilDiv(amount * bps, 10000) }

  function TopupIntentRow(cfg: Config, a: StartArgs): Intent
  {
    Intent(TopupIntent, a.provider, a.subject, a.amountCents + FeeCents(a.amountCents, cfg.topupFeeBps), 0,
           IntentCreated, None, a.amountCents, a.project)
  }

  function StartTopup(cfg: Config, s: State, a: StartArgs): Step<nat>
  {
    if !cfg.creditsOpen || !cfg.topupOpen then Fail(NotEnabled)
    else if s.frozen then Fail(EconomyFrozen)
    else if !PositiveInt(a.amountCents, MAX_RECEIPT_CENTS) || a.amountCents !in cfg.topupAmounts then Fail(InvalidAmount)
    else if !a.enabled then Fail(NotEnabled)
    else if a.amountCents + FeeCents(a.amountCents, cfg.topupFeeBps) > MAX_RECEIPT_CENTS then Fail(InvalidAmount)
    else Done(s.(intents := s.intents + [TopupIntentRow(cfg, a)]), |s.intents|)
  }

  method BeginTopup(cfg: Config, db: Db, a: StartArgs) returns (r: Result<nat, Error>)
    modifies db
    ensures db.Answers(old(db.View()), StartTopup(cfg, old(db.View()), a), r)
  {
    if !cfg.creditsOpen || !cfg.topupOpen { return Err(NotEnabled); }
    if db.frozen { return Err(EconomyFrozen); }
    if !PositiveInt(a.amountCents, MAX_RECEIPT_CENTS) { return Err(InvalidAmount); }
    if a.amountCents !in cfg.topupAmounts { return Err(InvalidAmount); }
    if !a.enabled { return Err(NotEnabled); }
    var fee := FeeCents(a.amountCents, cfg.topupFeeBps);
    if a.amountCents + fee > MAX_RECEIPT_CENTS { return Err(InvalidAmount); }
    r := Ok(|db.intents|);
    db.intents := db.intents + [Intent(TopupIntent, a.provider, a.subject, a.amountCents + fee, 0, IntentCreated, None, a.amountCents, a.project)];
  }

  datatype PackArgs = PackArgs(provider: Provider, subject: Subject, bits: int)

  /** A purchase intent: the amount comes from the price tiers, never from the client. */
  function StartPurchase(cfg: Config, s: State, a: PackArgs): Step<nat>
    requires ValidTiers(cfg)
  {
    if !PositiveInt(a.bits, cfg.maxBits) || a.bits < cfg.minPurchaseBits then Fail(InvalidAmount)
    else
      Done(s.(intents := s.intents + [Intent(PurchaseIntent, a.provider, a.subject, PriceCents(cfg, a.bits), a.bits, IntentCreated, None, 0, None)]),
           |s.intents|)
  }

  method BeginPurchase(cfg: Config, db: Db, a: PackArgs) returns (r: Result<nat, Error>)
    requires ValidTiers(cfg)
    modifies db
    ensures db.Answers(old(db.View()), StartPurchase(cfg, old(db.View()), a), r)
  {
    if !PositiveInt(a.bits, cfg.maxBits) || a.bits < cfg.minPurchaseBits { return Err(InvalidAmount); }
    r := Ok(|db.intents|);
    db.intents := db.intents + [Intent(PurchaseIntent, a.provider, a.subject, PriceCents(cfg, a.bits), a.bits, IntentCreated, None, 0, None)];
  }

  // ------------------------------------------------------------------ settling one

  datatype TopupArgs = TopupArgs(provider: Provider, payment: nat, paidCents: int, intent: Option<nat>, key: Key, source: Option<nat>)
  datatype TopupAnswer = Skipped | Credited(txn: nat, replay: bool)

  function TopupTxn(a: TopupArgs, i: Intent): Txn
  {
    var paid, amount := a.paidCents * NANO_PER_CENT, i.topupCents * NANO_PER_CENT;
    Txn(Credit, a.key,
        [ Entry(ClearingOf(a.provider, Nano), -paid), Entry(BalanceOf(i.subject, i.project), amount), Entry(RevenueIn(Nano), paid - amount) ],
        None, None, Some(i.subject), Some(Gateway(a.provider)), Some(Payment(a.provider, a.payment)), a.source,
        TopupMeta(a.paidCents, amount, i.project, a.intent), 0)
  }

  function SettleTopup(cfg: Config, s: State, a: TopupArgs): Step<TopupAnswer>
  {
    if !cfg.creditsOpen || !cfg.topupOpen then Done(s, Skipped)
    else
      var byKey, byReceipt := FindKey(s.ledger.journal, a.key), FindReceipt(s.ledger.journal, Payment(a.provider, a.payment));
      if byKey.Some? then Done(s, Credited(byKey.value, true))
      else if byReceipt.Some? then Done(s, Credited(byReceipt.value, true))
      else if a.intent.None? then Fail(InvalidInput)
      else if a.intent.value >= |s.intents| then Fail(NotFound)
      else
        var i := s.intents[a.intent.value];
        if !i.kind.TopupIntent? || i.provider != a.provider then Fail(IntentMismatch)
        else if i.status == IntentSettled && i.settledTxn.Some? then Done(s, Credited(i.settledTxn.value, true))
        else if !PositiveInt(a.paidCents, MAX_RECEIPT_CENTS) then Fail(InvalidAmount)
        else if a.paidCents < i.amountCents then Fail(Underpaid)
        else if !PositiveInt(i.topupCents, 0) then Fail(IntentMismatch)
        else
          match PostOn(s, TopupTxn(a, i))
          case Fail(e) => Fail(e)
          case Done(s', o) => Done(MarkSettled(s', a.intent, o.txn), Credited(o.txn, false))
  }

  method SettlePaidTopup(cfg: Config, db: Db, a: TopupArgs) returns (r: Result<TopupAnswer, Error>)
    modifies db
    ensures db.Answers(old(db.View()), SettleTopup(cfg, old(db.View()), a), r)
  {
    hide Post;
    if !cfg.creditsOpen || !cfg.topupOpen { return Ok(Skipped); }
    var byKey := FindKey(db.journal, a.key);
    if byKey.Some? { return Ok(Credited(byKey.value, true)); }
    var byReceipt := FindReceipt(db.journal, Payment(a.provider, a.payment));
    if byReceipt.Some? { return Ok(Credited(byReceipt.value, true)); }
    if a.intent.None? { return Err(InvalidInput); }
    if a.intent.value >= |db.intents| { return Err(NotFound); }
    var i := db.intents[a.intent.value];
    if !i.kind.TopupIntent? { return Err(IntentMismatch); }
    if i.provider != a.provider { return Err(IntentMismatch); }
    if i.status == IntentSettled && i.settledTxn.Some? { return Ok(Credited(i.settledTxn.value, true)); }
    if !PositiveInt(a.paidCents, MAX_RECEIPT_CENTS) { return Err(InvalidAmount); }
    if a.paidCents < i.amountCents { return Err(Underpaid); }
    if !PositiveInt(i.topupCents, 0) { return Err(IntentMismatch); }
    var posted := db.Post(TopupTxn(a, i));
    if posted.Err? { return Err(posted.error); }
    db.intents := db.intents[a.intent.value := SettledIntent(db.intents[a.intent.value], posted.value.txn)];
    r := Ok(Credited(posted.value.txn, false));
  }

  // ------------------------------------------------------------------ what they keep

  lemma StartKeeps(cfg: Config, s: State, row: Intent)
    requires Inv(cfg, s) && row.amountCents >= row.topupCents
    ensures Inv(cfg, s.(intents := s.intents + [row]))
  {
    hide JournalOk, NonNegative, PayoutsOk, PeriodsCharged, SubsOk, RenewalsOk, PromoOk, RatingOk, TotalsOk, VibesOk, HoldRowsOk;
    Frame(cfg, s, s.(intents := s.intents + [row]));
  }

  lemma StartTopupKeeps(cfg: Config, s: State, a: StartArgs)
    requires Inv(cfg, s) && StartTopup(cfg, s, a).Done?
    ensures Inv(cfg, StartTopup(cfg, s, a).state)
  {
    hide Inv;
    FeeIsLeast(a.amountCents, cfg.topupFeeBps, 0);
    StartKeeps(cfg, s, TopupIntentRow(cfg, a));
  }

  /** The fee is the least whole number of cents not below the rate's share of the amount, so 0 at a rate of 0. */
  lemma FeeIsLeast(amount: int, bps: nat, cents: int)
    requires amount >= 0
    ensures FeeCents(amount, bps) <= cents <==> amount * bps <= 10000 * cents
    ensures FeeCents(amount, bps) >= 0 && (FeeCents(amount, bps) == 0 <==> amount == 0 || bps == 0)
  {
    var fee := FeeCents(amount, bps);
    assert 10000 * (fee - 1) < amount * bps <= 10000 * fee;
    assert amount * bps >= 0;
    if amount != 0 && bps != 0 { MulMono(1, amount, bps); }
  }

  lemma StartPurchaseKeeps(cfg: Config, s: State, a: PackArgs)
    requires ValidTiers(cfg) && Inv(cfg, s) && StartPurchase(cfg, s, a).Done?
    ensures Inv(cfg, StartPurchase(cfg, s, a).state)
  {
    hide Inv;
    PriceNotNegative(cfg, a.bits);
    StartKeeps(cfg, s, Intent(PurchaseIntent, a.provider, a.subject, PriceCents(cfg, a.bits), a.bits, IntentCreated, None, 0, None));
  }

  lemma PriceNotNegative(cfg: Config, bits: int)
    requires ValidTiers(cfg) && bits >= 0
    ensures PriceCents(cfg, bits) >= 0
  {
    assert ExactPrice(cfg, bits) >= 0;
  }

  lemma TopupShape(cfg: Config, a: TopupArgs, i: Intent)
    requires 0 < i.topupCents <= a.paidCents && KeyMatchesSource(a.key, a.source)
    ensures var t := TopupTxn(a, i); var amount := i.topupCents * NANO_PER_CENT;
      && Shape(cfg, t)
      && (forall x: Account :: Guarded(x.kind) ==> Delta(t.entries, x) == 0)
      && (forall x: Account :: Spendable(x) ==> Delta(t.entries, x) == if x == BalanceOf(i.subject, i.project) then amount else 0)
      && !Touches(t, PayoutsPending) && !Touches(t, ProjectPayable) && !Touches(t, PromoCredit) && !Touches(t, PromoReserve)
  {
    hide FxMirror, PromoIsolated, PendingOwned, Touches;
    var t := TopupTxn(a, i);
    PlainEntries(t);
    Sums3(t.entries[0], t.entries[1], t.entries[2]);
    NoFxMirrors(t);
  }

  /** What a top-up that is credited now posts. */
  lemma TopupPosts(cfg: Config, s: State, a: TopupArgs)
    requires SettleTopup(cfg, s, a).Done?
    ensures var r := SettleTopup(cfg, s, a);
      if r.value.Credited? && !r.value.replay then
        && a.intent.Some? && a.intent.value < |s.intents| && 0 < s.intents[a.intent.value].topupCents
        && s.intents[a.intent.value].amountCents <= a.paidCents
        && var t := TopupTxn(a, s.intents[a.intent.value]);
           && Post(s.ledger, t).Posted? && t.key == a.key && t.reverses.None? && t.meta.TopupMeta? && t.ty == Credit
           && t.receipt == Some(Payment(a.provider, a.payment)) && t.bitsPerUsd == 0
           && r.state == MarkSettled(s.(ledger := Post(s.ledger, t).ledger), a.intent, Post(s.ledger, t).txn)
      else r.state == s
  {
    hide Post;
    var r := SettleTopup(cfg, s, a);
    if r.value.Credited? && !r.value.replay { FreshPosts(s.ledger, TopupTxn(a, s.intents[a.intent.value])); }
  }

  /** A settled top-up keeps every check and the cover of the holds, and adds exactly the intent's amount. */
  lemma SettleTopupKeeps(cfg: Config, s: State, a: TopupArgs)
    requires Inv(cfg, s) && PlainKey(a.key) && KeyMatchesSource(a.key, a.source)
    requires SettleTopup(cfg, s, a).Done?
    ensures Inv(cfg, SettleTopup(cfg, s, a).state)
    ensures Covered(s) ==> Covered(SettleTopup(cfg, s, a).state)
    ensures SettleTopup(cfg, s, a).state != s ==>
      && a.intent.Some? && a.intent.value < |s.intents|
      && var i := s.intents[a.intent.value];
         Bal(SettleTopup(cfg, s, a).state.ledger, BalanceOf(i.subject, i.project))
           == Bal(s.ledger, BalanceOf(i.subject, i.project)) + i.topupCents * NANO_PER_CENT
  {
    hide SettleTopup, TopupTxn, Post, Books, Bal, Delta, HeldOn, Shape, Touches, JournalOk, PayoutsOk, PeriodsCharged, RenewalsOk, PromoOk, RatingOk, TotalsOk, VibesOk, SubsOk, HoldRowsOk;
    TopupPosts(cfg, s, a);
    var r := SettleTopup(cfg, s, a);
    if r.value.Credited? && !r.value.replay {
      var i := s.intents[a.intent.value];
      var t := TopupTxn(a, i);
      TopupShape(cfg, a, i);
      PlainPost(cfg, s, t);
      BooksOf(cfg, s.ledger);
      BalancesMove(s.ledger, t);
      MarkKeeps(cfg, s.(ledger := Post(s.ledger, t).ledger), a.intent, Post(s.ledger, t).txn);
    }
  }

  /** Once credited, a second event for the same payment and a second payment of the same intent credit nothing more. */
  lemma CreditedOnce(cfg: Config, s: State, a: TopupArgs, b: TopupArgs)
    requires Inv(cfg, s) && SettleTopup(cfg, s, a).Done?
    requires SettleTopup(cfg, s, a).value.Credited? && !SettleTopup(cfg, s, a).value.replay
    requires b.provider == a.provider && (b.payment == a.payment || b.intent == a.intent)
    ensures var s' := SettleTopup(cfg, s, a).state;
      SettleTopup(cfg, s', b).Done? ==> SettleTopup(cfg, s', b).state == s'
  {
    hide Post, Inv, TopupTxn;
    var s' := SettleTopup(cfg, s, a).state;
    TopupPosts(cfg, s, a);
    InvBooks(cfg, s);
    var t := TopupTxn(a, s.intents[a.intent.value]);
    var stored := Appended(s.ledger, t);
    assert s'.ledger.journal[|s.ledger.journal|].receipt == Some(Payment(a.provider, a.payment));
  }
}
