/**
 * What the remaining operations write beside the journal: checkouts, payment links, budgets,
 * cancellations and stored deliveries, row by row and nothing else.
 */
module Rows {
  import opened Basics
  import opened Schema
  import opened Journal
  import opened Rates
  import opened Common
  import opened Invariants
  import opened Topups
  import opened Subscriptions
  import opened Rating
  import opened Vibes
  import opened Movements

  // ------------------------------------------------------------------ checkouts

  /** A top-up checkout asks for one of the configured amounts plus the least whole-cent fee that covers the rate, and will credit the amount. */
  lemma StartTopupWrites(cfg: Config, s: State, a: StartArgs)
    requires StartTopup(cfg, s, a).Done?
    ensures var r := StartTopup(cfg, s, a);
      && cfg.creditsOpen && cfg.topupOpen && !s.frozen && a.enabled && a.amountCents in cfg.topupAmounts && a.amountCents > 0
      && r.value == |s.intents| && |r.state.intents| == |s.intents| + 1
      && var fee := r.state.intents[|s.intents|].amountCents - a.amountCents;
         && 10000 * (fee - 1) < a.amountCents * cfg.topupFeeBps <= 10000 * fee && a.amountCents + fee <= MAX_RECEIPT_CENTS
         && r.state == s.(intents := s.intents + [
              Intent(TopupIntent, a.provider, a.subject, a.amountCents + fee, 0, IntentCreated, None, a.amountCents, a.project)])
  {
    assert StartTopup(cfg, s, a).state.intents[|s.intents|].amountCents - a.amountCents == FeeCents(a.amountCents, cfg.topupFeeBps);
  }

  /** A purchase checkout asks for the tier price of the bits, to the nearest cent. */
  lemma StartPurchaseWrites(cfg: Config, s: State, a: PackArgs)
    requires ValidTiers(cfg) && StartPurchase(cfg, s, a).Done?
    ensures var r := StartPurchase(cfg, s, a);
      && 0 < a.bits && cfg.minPurchaseBits <= a.bits && r.value == |s.intents| && |r.state.intents| == |s.intents| + 1
      && var price := r.state.intents[|s.intents|].amountCents;
         && 2 * cfg.scale * price <= 2 * ExactPrice(cfg, a.bits) + cfg.scale < 2 * cfg.scale * price + 2 * cfg.scale
         && r.state == s.(intents := s.intents + [Intent(PurchaseIntent, a.provider, a.subject, price, a.bits, IntentCreated, None, 0, None)])
  {
    hide ExactPrice;
    assert StartPurchase(cfg, s, a).state.intents[|s.intents|].amountCents == PriceCents(cfg, a.bits);
  }

  // ------------------------------------------------------------------ budgets

  /** Setting a budget opens the window of now with nothing spent; a window already open keeps what it has spent. */
  lemma SetBudgetWrites(cfg: Config, s: State, a: BudgetArgs)
    requires SetBudget(cfg, s, a).Done?
    ensures var r := SetBudget(cfg, s, a); var w := cfg.windowOf(a.reset, s.clock); var rows := r.state.budgets;
      && 0 <= a.bits <= SAFE && r.state == s.(budgets := rows)
      && ((exists i :: 0 <= i < |s.budgets| && Of(s.budgets[i], a, w.start) && r.value.spent == s.budgets[i].spent && rows == s.budgets[i := r.value])
          || ((forall i :: 0 <= i < |s.budgets| ==> !Of(s.budgets[i], a, w.start)) && r.value.spent == 0 && rows == s.budgets + [r.value]))
      && r.value == Budget(a.subject, a.service, a.reset, a.bits, r.value.spent, w.start, w.end, s.clock)
  {
    var found := AtWindow(s.budgets, a.subject, a.service, cfg.windowOf(a.reset, s.clock).start);
    if found.Some? { assert Of(s.budgets[found.value], a, cfg.windowOf(a.reset, s.clock).start); }
  }

  predicate Of(b: Budget, a: BudgetArgs, start: Millis) { b.subject == a.subject && b.service == a.service && b.start == start }

  // ------------------------------------------------------------------ cancelling a membership

  /** A running membership stops renewing and is marked to end; its period, price and status stay. */
  lemma CancelWrites(s: State, i: nat)
    requires Subscriptions.Cancel(s, i).Done?
    ensures i < |s.subs|
    ensures Subscriptions.Cancel(s, i) ==
      if s.subs[i].status == Active || s.subs[i].status == PastDue
      then Done(s.(subs := s.subs[i := s.subs[i].(cancelAtEnd := true, autoRenew := false)]), false)
      else Done(s, true)
  {
  }

  // ------------------------------------------------------------------ payment links

  /** The row the caller's own app and project get for what they asked. */
  function ChargeAsked(cfg: Config, s: State, a: ChargeArgs): Charge
  {
    Charge(a.app.id, a.app.project, a.amount, a.reference, a.description, a.returnUrl, a.app.sandbox, s.clock + cfg.chargeTtl, Pending, None, 0)
  }

  predicate SameCharge(c: Charge, a: ChargeArgs) { c.amount == a.amount && c.description == a.description && c.returnUrl == a.returnUrl }

  /** A new reference opens one pending link; a known one answers its link when everything asked is the same, and is refused otherwise. */
  lemma CreateChargeWrites(cfg: Config, s: State, a: ChargeArgs)
    requires 0 < a.amount <= MAX_VIBES && !s.frozen
    requires if a.app.sandbox then cfg.vibesSandbox else cfg.vibesPay && a.amount <= cfg.maxChargeVibes
    ensures (forall i :: 0 <= i < |s.charges| ==> !Named(s.charges[i], a)) ==>
      CreateCharge(cfg, s, a) == Done(s.(charges := s.charges + [ChargeAsked(cfg, s, a)]), ChargeAnswer(|s.charges|, false))
    ensures forall i :: 0 <= i < |s.charges| && Named(s.charges[i], a) && (forall k :: 0 <= k < i ==> !Named(s.charges[k], a)) ==>
      CreateCharge(cfg, s, a) == (if SameCharge(s.charges[i], a) then Done(s, ChargeAnswer(i, true)) else Fail(ReferenceReused))
  {
    var found := FindReference(s.charges, a.app.id, a.reference);
    if found.Some? { assert Named(s.charges[found.value], a); }
  }

  predicate Named(c: Charge, a: ChargeArgs) { c.app == a.app.id && c.reference == a.reference }

  /** Outside those limits, or with the economy frozen, no link is opened. */
  lemma CreateChargeLimits(cfg: Config, s: State, a: ChargeArgs)
    requires CreateCharge(cfg, s, a).Done?
    ensures 0 < a.amount <= MAX_VIBES && !s.frozen && (if a.app.sandbox then cfg.vibesSandbox else cfg.vibesPay && a.amount <= cfg.maxChargeVibes)
  {
  }

  /** The same request again answers the same link, whoever paid or cancelled it; another one under its reference is refused. */
  lemma ChargeAgain(cfg: Config, s: State, a: ChargeArgs, b: ChargeArgs)
    requires CreateCharge(cfg, s, a).Done? && !CreateCharge(cfg, s, a).value.replay
    requires b.app == a.app && b.reference == a.reference && CreateCharge(cfg, s, b).Done?
    ensures var s1 := CreateCharge(cfg, s, a).state;
      CreateCharge(cfg, s1, b) == if SameCharge(s1.charges[|s.charges|], b) then Done(s1, ChargeAnswer(|s.charges|, true)) else Fail(ReferenceReused)
  {
    var s1 := CreateCharge(cfg, s, a).state;
    CreateChargeLimits(cfg, s, b);
    forall k | 0 <= k < |s.charges| ensures !Named(s1.charges[k], b) { assert s1.charges[k] == s.charges[k]; }
    CreateChargeWrites(cfg, s1, b);
  }

  /** Created and paid: the amount asked leaves the payer for the wallet of the app's own project, and the app can refund it. */
  lemma CreateThenPay(cfg: Config, s: State, a: ChargeArgs, p: Subject)
    requires Inv(cfg, s) && CreateCharge(cfg, s, a).Done? && !CreateCharge(cfg, s, a).value.replay
    requires PayCharge(cfg, CreateCharge(cfg, s, a).state, |s.charges|, p).Done?
    requires PayCharge(cfg, CreateCharge(cfg, s, a).state, |s.charges|, p).value.PaidNow?
    ensures var s2 := PayCharge(cfg, CreateCharge(cfg, s, a).state, |s.charges|, p).state;
      var payer := if a.app.sandbox then SandboxPocket(a.app.id, p) else CreditOf(p);
      var wallet := if a.app.sandbox then SandboxWallet(a.app.id, a.app.project) else WalletOf(a.app.project);
      && Moves(s.ledger, s2.ledger, [Change(payer, -a.amount), Change(wallet, a.amount)])
      && ((a.app.sandbox || cfg.authority) && a.amount <= Bal(s2.ledger, wallet) ==>
            RefundCharge(cfg, s2, |s.charges|, a.app.id).Done? || RefundCharge(cfg, s2, |s.charges|, a.app.id) == Fail(AmountOverflow))
      && (forall app: nat :: app != a.app.id ==> RefundCharge(cfg, s2, |s.charges|, app) == Fail(NotFound))
  {
    hide Inv, Books, VibesOk, PayCharge, RefundCharge, Moves, Post;
    var s1 := CreateCharge(cfg, s, a).state;
    CreateChargeKeeps(cfg, s, a);
    InvVibes(cfg, s1);
    InvBooks(cfg, s1);
    PayChargeMoves(cfg, s1, |s.charges|, p);
    PayChargeKeeps(cfg, s1, |s.charges|, p);
    var s2 := PayCharge(cfg, s1, |s.charges|, p).state;
    InvVibes(cfg, s2);
    if a.app.sandbox || cfg.authority { OwnRefund(cfg, s2, |s.charges|, a.app.id); }
    forall app: nat | app != a.app.id { NotItsOwn(cfg, s2, |s.charges|, app); }
  }

  /** A paid charge's refund by its own app is refused for the wallet's funds or the range of the balances alone. */
  lemma OwnRefund(cfg: Config, s: State, i: nat, app: nat)
    requires VibesOk(cfg, s) && i < |s.charges| && s.charges[i].status == ChargePaid && s.charges[i].app == app && !s.frozen
    requires s.charges[i].sandbox || cfg.authority
    ensures s.charges[i].amount <= Bal(s.ledger, ProjectAccount(s.charges[i].sandbox, app, s.charges[i].project)) ==>
      RefundCharge(cfg, s, i, app).Done? || RefundCharge(cfg, s, i, app) == Fail(AmountOverflow)
  {
    hide Post, VibesOk;
    ChargeKeys(cfg, s, i);
    PayerKnown(cfg, s, i);
    var t := RefundTxn(s.charges[i], i, s.charges[i].payer.value);
    Sums2(t.entries[0], t.entries[1]);
    BalancedPosts(s.ledger, t);
  }

  lemma NotItsOwn(cfg: Config, s: State, i: nat, app: nat)
    requires i < |s.charges| && s.charges[i].app != app && !s.frozen
    ensures RefundCharge(cfg, s, i, app) == Fail(NotFound)
  {
  }

  lemma PayerKnown(cfg: Config, s: State, i: nat)
    requires VibesOk(cfg, s) && i < |s.charges| && s.charges[i].status == ChargePaid
    ensures s.charges[i].payer.Some?
  {
    assert ChargeOk(s, i);
  }

  /** A pending link is cancelled, or found expired; any other stays as it is. */
  lemma CancelChargeWrites(s: State, i: nat)
    requires CancelCharge(s, i).Done?
    ensures var r := CancelCharge(s, i);
      && !s.frozen && i < |s.charges|
      && var c := s.charges[i];
         if c.status == Cancelled then r == Done(s, CancelledBefore)
         else
           && c.status == Pending
           && r == if s.clock < c.expiresAt then Done(s.(charges := s.charges[i := c.(status := Cancelled)]), CancelledNow)
                   else Done(s.(charges := s.charges[i := c.(status := ChargeExpired)]), CancelExpired)
  {
  }
}
