/**
 * Idempotency of the operations: the same call again, whatever it did the first time, leaves the
 * store as it is and answers the same transaction.
 */
module Repeats {
  import opened Basics
  import opened Schema
  import opened Journal
  import opened Rates
  import opened Common
  import opened Invariants
  import opened Purchases
  import opened Topups
  import opened Transfers
  import opened Cashouts
  import opened Subscriptions
  import opened Reversals
  import opened Promo
  import opened Rating
  import opened Credits
  import opened Balance
  import opened Vibes
  import opened Providers
  import opened Runs
  import opened Movements

  /** What was just posted is found, by its key and by its receipt. */
  lemma PostedKnown(s: State, t: Txn)
    requires PostOn(s, t).Done?
    ensures var r := PostOn(s, t);
      && FindKey(r.state.ledger.journal, t.key) == Some(r.value.txn)
      && (t.receipt.Some? && !r.value.replay ==> FindReceipt(r.state.ledger.journal, t.receipt.value) == Some(r.value.txn))
      && r.state == s.(ledger := r.state.ledger)
  {
    hide Merge, NonZero, Bump, RowFits, SumsError, Currencies;
    var j, j' := s.ledger.journal, PostOn(s, t).state.ledger.journal;
    if |j'| > |j| { assert j'[..|j'| - 1] == j; }
  }

  // ------------------------------------------------------------------ money

  lemma SettleRepeats(cfg: Config, s: State, a: SettleArgs)
    requires ValidTiers(cfg) && Settle(cfg, s, a).Done?
    ensures var r := Settle(cfg, s, a); var again := Settle(cfg, r.state, a);
      again.Done? && again.state == r.state && again.value.txn == r.value.txn
  {
    hide Post, ValidTiers, ChosenBits, ValueCents, ReceiptEntries;
    var intent := if a.intent.Some? && a.intent.value < |s.intents| then Some(s.intents[a.intent.value]) else None;
    var subject := if intent.Some? then Some(intent.value.subject) else a.subject;
    var bits := ChosenBits(cfg, intent, a);
    if FindReceipt(s.ledger.journal, Payment(a.provider, a.payment)).None? && Settle(cfg, s, a).state != s {
      var t := PurchaseTxn(cfg, a, subject.value, bits.value);
      PostedKnown(s, t);
      if FindKey(s.ledger.journal, a.key).Some? { KnownReplays(s.ledger, t); }
      hide FindKey, FindReceipt;
    }
  }

  lemma TopupRepeats(cfg: Config, s: State, a: TopupArgs)
    requires SettleTopup(cfg, s, a).Done?
    ensures var r := SettleTopup(cfg, s, a); var again := SettleTopup(cfg, r.state, a);
      again.Done? && again.state == r.state && (r.value.Credited? ==> again.value == Credited(r.value.txn, true))
  {
    hide Post;
    if a.intent.Some? && a.intent.value < |s.intents| && PostOn(s, TopupTxn(a, s.intents[a.intent.value])).Done? {
      PostedKnown(s, TopupTxn(a, s.intents[a.intent.value]));
    }
  }

  lemma TipRepeats(cfg: Config, s: State, a: TipArgs)
    requires TipFromReceipt(cfg, s, a).Done?
    ensures var r := TipFromReceipt(cfg, s, a); var again := TipFromReceipt(cfg, r.state, a);
      again.Done? && again.state == r.state && again.value.txn == r.value.txn
  {
    hide Post, ReceiptEntries, ValueCents, BitsForValueCents;
    if PostOn(s, TipTxn(cfg, a)).Done? {
      PostedKnown(s, TipTxn(cfg, a));
      if FindKey(s.ledger.journal, a.key).Some? { KnownReplays(s.ledger, TipTxn(cfg, a)); }
    }
  }

  lemma GiveRepeats(cfg: Config, s: State, a: GiftArgs)
    requires Give(cfg, s, a).Done?
    ensures Give(cfg, Give(cfg, s, a).state, a) == Done(Give(cfg, s, a).state, Outcome(Give(cfg, s, a).value.txn, true))
  {
    hide Post;
    if FindKey(s.ledger.journal, a.key).None? { PostedKnown(s, GiftTxn(cfg, a)); }
  }

  lemma RefundGiftRepeats(s: State, a: GiftRefundArgs)
    requires RefundGift(s, a).Done?
    ensures RefundGift(RefundGift(s, a).state, a) == Done(RefundGift(s, a).state, Outcome(RefundGift(s, a).value.txn, true))
  {
    hide Post, RefundedBits;
    if FindKey(s.ledger.journal, a.key).None? {
      var orig := s.ledger.journal[a.txn];
      PostedKnown(s, GiftRefundTxn(orig, a, if a.amount.Some? then a.amount.value else orig.meta.amountBits - RefundedBits(s.ledger.journal, a.txn)));
    }
  }

  lemma RequestRepeats(cfg: Config, s: State, a: CashoutArgs)
    requires Books(s.ledger) && Request(cfg, s, a).Done?
    ensures Request(cfg, Request(cfg, s, a).state, a) == Done(Request(cfg, s, a).state, Outcome(Request(cfg, s, a).value.txn, true))
  {
    hide Post, Books;
    if FindKey(s.ledger.journal, a.key).None? {
      PostedKnown(s, RequestTxn(cfg, a));
      FreshPosts(s.ledger, RequestTxn(cfg, a));
      PostEffect(s.ledger, RequestTxn(cfg, a));
    }
  }

  lemma ApproveRepeats(cfg: Config, s: State, a: ApproveArgs)
    requires Approve(cfg, s, a).Done?
    ensures Approve(cfg, Approve(cfg, s, a).state, a).Done? && Approve(cfg, Approve(cfg, s, a).state, a).state == Approve(cfg, s, a).state
  {
    hide Post;
  }

  lemma DenyRepeats(s: State, a: DenyArgs)
    requires Deny(s, a).Done?
    ensures Deny(Deny(s, a).state, a).Done? && Deny(Deny(s, a).state, a).state == Deny(s, a).state
  {
    hide Post;
  }

  lemma RecycleRepeats(cfg: Config, s: State, a: RecycleArgs)
    requires RecyclePayable(cfg, s, a).Done?
    ensures RecyclePayable(cfg, RecyclePayable(cfg, s, a).state, a) == Done(RecyclePayable(cfg, s, a).state, Outcome(RecyclePayable(cfg, s, a).value.txn, true))
  {
    hide Post;
    if FindKey(s.ledger.journal, a.key).None? { PostedKnown(s, RecycleTxn(a)); }
  }

  lemma ReverseRepeats(cfg: Config, s: State, a: ReverseArgs)
    requires Reverse(cfg, s, a).Done?
    ensures var r := Reverse(cfg, s, a); var again := Reverse(cfg, r.state, a);
      again.Done? && again.state == r.state && (r.value.Answered? ==> again.value == Answered(r.value.txn, true, false))
  {
    hide Post, PartOf, RevokeFrom, ReversedCents, CentsNow;
    var found := FindReceipt(s.ledger.journal, a.original);
    if KnownReversal(s.ledger.journal, a.key, a.reversal).None? && Reverse(cfg, s, a).value.Answered? {
      var orig, done := s.ledger.journal[found.value], ReversedCents(s.ledger.journal, found.value);
      var cents := CentsNow(a.ask, PaidCents(orig.meta), done);
      var t := ReversalTxn(cfg, orig, found.value, a, PartOf(cfg, s.ledger, orig, a.chargeback, done, cents).value);
      PostedKnown(s, t);
      RevokeElsewhere(PostOn(s, t).state, found.value, if a.chargeback then ForChargeback else ForRefund, 0);
    }
  }

  lemma MoneyRepeats(cfg: Config, s: State, c: MoneyCommand)
    requires Valid(cfg) && Books(s.ledger) && !c.StartTopupC? && !c.StartPackC?
    ensures ExecMoney(cfg, ExecMoney(cfg, s, c), c) == ExecMoney(cfg, s, c)
  {
    hide Books, Partition, ValidTiers, Settle, SettleTopup, TipFromReceipt, Give, RefundGift, Request, Approve, Deny, RecyclePayable, Reverse;
    match c {
      case SettleC(a) => if Settle(cfg, s, a).Done? { SettleRepeats(cfg, s, a); }
      case TopupC(a) => if SettleTopup(cfg, s, a).Done? { TopupRepeats(cfg, s, a); }
      case TipC(a) => if TipFromReceipt(cfg, s, a).Done? { TipRepeats(cfg, s, a); }
      case GiveC(a) => if Give(cfg, s, a).Done? { GiveRepeats(cfg, s, a); }
      case RefundGiftC(a) => if RefundGift(s, a).Done? { RefundGiftRepeats(s, a); }
      case RequestC(a) => if Request(cfg, s, a).Done? { RequestRepeats(cfg, s, a); }
      case ApproveC(a) => if Approve(cfg, s, a).Done? { ApproveRepeats(cfg, s, a); }
      case DenyC(a) => if Deny(s, a).Done? { DenyRepeats(s, a); }
      case RecycleC(a) => if RecyclePayable(cfg, s, a).Done? { RecycleRepeats(cfg, s, a); }
      case ReverseC(a) => if Reverse(cfg, s, a).Done? { ReverseRepeats(cfg, s, a); }
    }
  }

  // ------------------------------------------------------------------ memberships, allowances and budgets

  lemma PayRepeats(cfg: Config, s: State, a: PayArgs)
    requires Subscriptions.Pay(cfg, s, a).Done?
    ensures var r := Subscriptions.Pay(cfg, s, a); Subscriptions.Pay(cfg, r.state, a) == Done(r.state, Outcome(r.value.txn, true))
  {
    hide Post, PriceOf, FundsOf, Granted;
    var r := Subscriptions.Pay(cfg, s, a);
    if !r.value.replay {
      var price := PriceOf(cfg, s, a, Prior(s, a)).value;
      var t := PeriodTxn(cfg, a, FundsOf(cfg, s, a, price).value);
      PostedKnown(s, t);
      GrantedFrame(cfg, PostOn(s, t).state, a, price, PostOn(s, t).value.txn);
    }
  }

  lemma RefundPeriodRepeats(cfg: Config, s: State, a: PeriodRefundArgs)
    requires RefundPeriod(cfg, s, a).Done?
    ensures var r := RefundPeriod(cfg, s, a); var again := RefundPeriod(cfg, r.state, a);
      again.Done? && again.state == r.state && (r.value.Answered? ==> again.value == Answered(r.value.txn, true, false))
  {
    hide Post, RevokeFrom, Granting, HasReversal, ValueCents, PeriodRefundTxn;
    if FindKey(s.ledger.journal, a.key).None? && RefundPeriod(cfg, s, a).value.Answered? {
      var t := PeriodRefundTxn(cfg, s.ledger, s.ledger.journal[a.txn], a);
      RefundRefers(cfg, s, s.ledger.journal[a.txn], a);
      PostedKnown(s, t);
      RevokeElsewhere(PostOn(s, t).state, a.txn, ForRefund, 0);
    }
  }

  lemma GrantRepeats(cfg: Config, s: State, a: GrantArgs)
    requires Grant(cfg, s, a).Done?
    ensures Grant(cfg, Grant(cfg, s, a).state, a) == Done(Grant(cfg, s, a).state, Outcome(Grant(cfg, s, a).value.txn, true))
  {
    hide Post, LapseAll, Topped, GrantedNow;
    if FindKey(s.ledger.journal, PromoGrantKey(a.key)).None? { PostedKnown(Topped(cfg, LapseAll(s, a.subject).state, a), GrantTxn(a)); }
  }

  /** A draw for a reading happens once: asked again it answers what it drew, and for another person or service it is refused. */
  lemma DrawRepeats(s: State, a: DrawArgs, b: DrawArgs)
    requires FindKey(s.ledger.journal, PromoDrawKey(a.reading)).None? && Consume(s, a).Done? && Consume(s, a).value.txn.Some?
    requires b.reading == a.reading && 0 < b.bits <= SAFE
    ensures var r := Consume(s, a);
      Consume(r.state, b) == if b.subject == a.subject && b.service == a.service then Done(r.state, r.value) else Fail(KeyReused)
  {
    hide Post, LapseAll, Take, Taken, DrawOrder;
    var s1 := LapseAll(s, a.subject).state;
    var ids := DrawOrder(s1.allowances, a.subject, a.service, s1.clock);
    var left := Min(a.bits, Max(0, Bal(s1.ledger, PromoOf(a.subject))));
    var used := Taken(s1.allowances, ids, left);
    var s2, t := s1.(allowances := Take(s1.allowances, ids, left)), DrawTxn(a, used);
    PostedKnown(s2, t);
    LapseKeepsKey(s, a.subject, PromoDrawKey(a.reading));
    PostedIs(s2.ledger, t);
  }

  lemma DrawnUnderKey(s: State, a: DrawArgs)
    requires FindKey(s.ledger.journal, PromoDrawKey(a.reading)).None? && Consume(s, a).Done? && Consume(s, a).value.txn.Some?
    ensures Carries(Consume(s, a).state, Consume(s, a).value.txn.value, PromoDrawKey(a.reading))
  {
    hide Post, LapseAll, Take, Taken, DrawOrder;
    var s1 := LapseAll(s, a.subject).state;
    var ids := DrawOrder(s1.allowances, a.subject, a.service, s1.clock);
    var left := Min(a.bits, Max(0, Bal(s1.ledger, PromoOf(a.subject))));
    LapseKeepsKey(s, a.subject, PromoDrawKey(a.reading));
    var t := DrawTxn(a, Taken(s1.allowances, ids, left));
    FreshPosts(s1.ledger, t);
    PostedIs(s1.ledger, t);
  }

  lemma RestUnderKey(cfg: Config, s: State, id: nat, p: Subject, service: nat, charge: int)
    requires FindKey(s.ledger.journal, UsageKey(id)).None? && ChargeRest(cfg, s, id, p, service, charge).Done?
    ensures var r := ChargeRest(cfg, s, id, p, service, charge);
      if charge <= 0 then r.value.None? && r.state == s
      else r.value.Some? && Carries(r.state, r.value.value, UsageKey(id)) && r.state.ledger.journal[r.value.value].from == Some(p)
  {
    hide Post, SpendBudgets;
    if charge > 0 {
      var t := UsageTxn(cfg, id, p, charge);
      FreshPosts(s.ledger, t);
      PostedIs(s.ledger, t);
    }
  }

  /** A rating answers the transaction that paid: its charge, else its draw, else none. */
  lemma RatedByTxn(cfg: Config, s: State, cards: seq<Card>, id: nat)
    requires Inv(cfg, s) && Rate(cfg, s, cards, id).Done? && Rate(cfg, s, cards, id).value.RatedNow?
    ensures var s', r, txn := Rate(cfg, s, cards, id).state, Rate(cfg, s, cards, id).value.rated, Rate(cfg, s, cards, id).value.txn;
      if r.charged > 0 then txn.Some? && Carries(s', txn.value, UsageKey(id)) && s'.ledger.journal[txn.value].from == s.readings[id].subject
      else if r.promoBits > 0 then txn.Some? && Carries(s', txn.value, PromoDrawKey(id))
      else txn.None?
  {
    hide Inv, DrawFor, ChargeRest, ChargeFor, Remaining, PickCard;
    RatingMoves(cfg, s, cards, id);
    var p, service := s.readings[id].subject.value, s.readings[id].service;
    var gross := ChargeFor(cfg, PickCard(cards, s.readings[id]).value, s.readings[id].quantity).value;
    ChargeNotNegative(cfg, PickCard(cards, s.readings[id]).value, s.readings[id].quantity);
    var drawn := DrawFor(s, p, service, gross, id);
    DrawMoves(cfg, s, p, service, gross, id);
    RestUnderKey(cfg, drawn.state, id, p, service, gross - drawn.value.bits);
    DrawForUnderKey(cfg, s, p, service, gross, id);
  }

  lemma DrawForUnderKey(cfg: Config, s: State, p: Subject, service: nat, gross: int, id: nat)
    requires Inv(cfg, s) && id < |s.readings| && s.readings[id].rated.None? && DrawFor(s, p, service, gross, id).Done?
    ensures var d := DrawFor(s, p, service, gross, id);
      if d.value.bits == 0 then d.value.txn.None? else d.value.txn.Some? && Carries(d.state, d.value.txn.value, PromoDrawKey(id))
  {
    hide Inv, Consume;
    RatingOf(cfg, s);
    UnratedKeysAreFresh(s, id);
    if gross > 0 {
      var a := DrawArgs(p, service, gross, id);
      ConsumeDraws(cfg, s, a);
      if Consume(s, a).value.txn.Some? { DrawnUnderKey(s, a); }
    }
  }

  lemma PostedIs(l: Ledger, t: Txn)
    requires Post(l, t).Posted?
    ensures var j' := Post(l, t).ledger.journal;
      && |j'| == |l.journal| + 1 && Post(l, t).txn == |l.journal|
      && j'[|l.journal|] == t.(entries := j'[|l.journal|].entries)
  {
    hide Merge, NonZero, Bump, RowFits, SumsError, Currencies;
  }

  /** Lapsing posts under its own keys alone. */
  lemma LapseKeepsKey(s: State, p: Subject, key: Key)
    requires FindKey(s.ledger.journal, key).None? && !key.PromoLapseKey? && LapseAll(s, p).Done?
    ensures FindKey(LapseAll(s, p).state.ledger.journal, key).None?
  {
    hide EndedOrder;
    var ids := EndedOrder(s.allowances, p, s.clock);
    assert forall k :: 0 <= k < |ids| ==> ids[k] in ids;
    LapsesKeepKey(s, ids, key);
  }

  lemma {:induction false} LapsesKeepKey(s: State, ids: seq<nat>, key: Key)
    requires Within(ids, |s.allowances|) && LapseIds(s, ids).Done? && FindKey(s.ledger.journal, key).None? && !key.PromoLapseKey?
    ensures FindKey(LapseIds(s, ids).state.ledger.journal, key).None?
    decreases |ids|
  {
    hide Post, FindKey;
    if ids != [] {
      LapseOneKeepsKey(s, ids[0], key);
      LapsesKeepKey(LapseOne(s, ids[0]).state, ids[1..], key);
    }
  }

  lemma LapseOneKeepsKey(s: State, i: nat, key: Key)
    requires i < |s.allowances| && LapseOne(s, i).Done? && FindKey(s.ledger.journal, key).None? && !key.PromoLapseKey?
    ensures FindKey(LapseOne(s, i).state.ledger.journal, key).None?
  {
    hide Post, FindKey, Bal;
    var row := s.allowances[i];
    var t := LapseTxn(row, i, Min(Open(row), Max(0, Bal(s.ledger, PromoOf(row.subject)))));
    if Post(s.ledger, t).Posted? { OtherKeyStaysFree(s.ledger, t, key); }
  }

  lemma OtherKeyStaysFree(l: Ledger, t: Txn, key: Key)
    requires Post(l, t).Posted? && FindKey(l.journal, key).None? && t.key != key
    ensures FindKey(Post(l, t).ledger.journal, key).None?
  {
    hide Merge, NonZero, Bump, RowFits, SumsError, Currencies;
    var j' := Post(l, t).ledger.journal;
    assert j'[..|j'| - 1] == l.journal;
  }

  lemma BudgetRepeats(cfg: Config, s: State, a: BudgetArgs)
    requires Valid(cfg) && SetBudget(cfg, s, a).Done?
    ensures SetBudget(cfg, SetBudget(cfg, s, a).state, a) == SetBudget(cfg, s, a)
  {
    hide ValidTiers;
    var w := cfg.windowOf(a.reset, s.clock);
    var found := AtWindow(s.budgets, a.subject, a.service, w.start);
    var row := SetBudget(cfg, s, a).value;
    if found.Some? {
      WindowReplaced(s.budgets, found.value, row, a.subject, a.service, w.start);
    } else {
      assert (s.budgets + [row])[..|s.budgets|] == s.budgets;
    }
  }

  lemma {:induction false} WindowReplaced(rows: seq<Budget>, i: nat, b: Budget, p: Subject, service: nat, start: Millis)
    requires AtWindow(rows, p, service, start) == Some(i) && IsFor(b, p, service) && b.start == start
    ensures AtWindow(rows[i := b], p, service, start) == Some(i)
  {
    var n := |rows| - 1;
    if i == n {
      assert rows[i := b][..n] == rows[..n];
    } else {
      assert rows[i := b][..n] == rows[..n][i := b];
      WindowReplaced(rows[..n], i, b, p, service, start);
    }
  }

  // ------------------------------------------------------------------ Balance

  lemma HoldAppended(hs: seq<Hold>, h: Hold)
    requires FindHold(hs, h.key).None?
    ensures FindHold(hs + [h], h.key) == Some(|hs|)
  {
    assert (hs + [h])[..|hs|] == hs;
  }

  lemma CreateHoldRepeats(cfg: Config, s: State, a: HoldArgs)
    requires CreateHold(cfg, s, a).Done?
    ensures CreateHold(cfg, CreateHold(cfg, s, a).state, a) == Done(CreateHold(cfg, s, a).state, HoldAnswer(CreateHold(cfg, s, a).value.hold, true))
  {
    hide Available;
    if FindHold(s.holds, a.key).None? { HoldAppended(s.holds, NewHold(cfg, s, a)); }
  }

  lemma SettleHoldRepeats(cfg: Config, s: State, a: SettleHoldArgs)
    requires SettleHold(cfg, s, a).Done?
    ensures var r := SettleHold(cfg, s, a); SettleHold(cfg, r.state, a) == Done(r.state, SettleAnswer(r.value.settlement, true))
  {
    hide Post, CollectedOf, ComputeCharge;
    var r := SettleHold(cfg, s, a);
    if FindSettlement(s.settlements, a.key).None? {
      assert r.state.settlements[..|s.settlements|] == s.settlements;
    }
  }

  lemma SandboxRepeats(cfg: Config, s: State, a: SandboxArgs)
    requires SandboxGrant(cfg, s, a).Done?
    ensures SandboxGrant(cfg, SandboxGrant(cfg, s, a).state, a) == Done(SandboxGrant(cfg, s, a).state, Outcome(SandboxGrant(cfg, s, a).value.txn, true))
  {
    PostedTwice(s, SandboxTxn(a));
    hide Post;
  }

  lemma PostedTwice(s: State, t: Txn)
    requires PostOn(s, t).Done?
    ensures PostOn(PostOn(s, t).state, t) == Done(PostOn(s, t).state, Outcome(PostOn(s, t).value.txn, true))
  {
    hide Post;
    PostedKnown(s, t);
    KnownReplays(PostOn(s, t).state.ledger, t);
  }

  lemma MoveRepeats(cfg: Config, s: State, a: MoveArgs)
    requires Books(s.ledger) && Move(cfg, s, a).Done?
    ensures Move(cfg, Move(cfg, s, a).state, a) == Done(Move(cfg, s, a).state, Outcome(Move(cfg, s, a).value.txn, true))
  {
    hide Post, Books, HeldOn;
    if FindKey(s.ledger.journal, BalanceTransferKey(a.key)).None? {
      PostedKnown(s, MoveTxn(a));
      FreshPosts(s.ledger, MoveTxn(a));
      PostEffect(s.ledger, MoveTxn(a));
    }
  }

  lemma BuyRepeats(cfg: Config, s: State, a: BuyArgs)
    requires Books(s.ledger) && BuyVibes(cfg, s, a).Done?
    ensures BuyVibes(cfg, BuyVibes(cfg, s, a).state, a) == Done(BuyVibes(cfg, s, a).state, Outcome(BuyVibes(cfg, s, a).value.txn, true))
  {
    hide Post, Books, HeldOn, PriceNano;
    if FindKey(s.ledger.journal, BalanceVibesKey(a.key)).None? {
      PostedKnown(s, BuyTxn(cfg, a));
      FreshPosts(s.ledger, BuyTxn(cfg, a));
      PostEffect(s.ledger, BuyTxn(cfg, a));
    }
  }

  // ------------------------------------------------------------------ Vibes Pay and the feed

  lemma CreateChargeRepeats(cfg: Config, s: State, a: ChargeArgs)
    requires CreateCharge(cfg, s, a).Done?
    ensures var r := CreateCharge(cfg, s, a); CreateCharge(cfg, r.state, a) == Done(r.state, ChargeAnswer(r.value.charge, true))
  {
    if FindReference(s.charges, a.app.id, a.reference).None? {
      assert (s.charges + [NewCharge(cfg, s.clock, a)])[..|s.charges|] == s.charges;
    }
  }

  lemma PayChargeRepeats(cfg: Config, s: State, i: nat, p: Subject)
    requires PayCharge(cfg, s, i, p).Done?
    ensures var r := PayCharge(cfg, s, i, p); var again := PayCharge(cfg, r.state, i, p);
      if r.value.LinkExpired? then again == Fail(NotPending) else again == Done(r.state, PaidBefore)
  {
    hide Post, PayRefused;
  }

  lemma RefundChargeRepeats(cfg: Config, s: State, i: nat, app: nat)
    requires RefundCharge(cfg, s, i, app).Done?
    ensures RefundCharge(cfg, RefundCharge(cfg, s, i, app).state, i, app) == Done(RefundCharge(cfg, s, i, app).state, RefundedBefore)
  {
    hide Post;
  }

  lemma TestVibesRepeats(cfg: Config, s: State, a: TestVibesArgs)
    requires TestVibes(cfg, s, a).Done?
    ensures TestVibes(cfg, TestVibes(cfg, s, a).state, a) == Done(TestVibes(cfg, s, a).state, Outcome(TestVibes(cfg, s, a).value.txn, true))
  {
    PostedTwice(s, TestVibesTxn(a));
    hide Post;
  }

  lemma StoreRepeats(s: State, p: Provider, eventId: nat, payload: nat)
    ensures var r := StoreEvent(s, p, eventId, payload);
      r.Done? && StoreEvent(r.state, p, eventId, payload) == Done(r.state, Stored(r.value.event, true))
  {
    if FindEvent(s.events, p, eventId).None? {
      assert (s.events + [Event(p, eventId, payload, None, 0)])[..|s.events|] == s.events;
    }
  }

  // ------------------------------------------------------------------ every command that carries a key

  /** The commands that name what they do: by a key, a receipt, a reference, an event id or the row they close. */
  predicate Keyed(c: Command)
  {
    match c
    case Money(m) => !m.StartTopupC? && !m.StartPackC?
    case Subs(m) => m.PayC? || m.CancelC? || m.ChargeReadC? || m.RefundPeriodC?
    case Usage(m) => m.GrantC? || m.BudgetC?
    case Holds(m) => !m.ExtendHoldC?
    case Pay(_) => true
    case Feed(m) => m.StoreC?
    case _ => false
  }

  /** Sent twice, such a command does what it does sent once. */
  lemma CommandsRepeat(cfg: Config, adapter: Adapter, s: State, c: Command)
    requires Valid(cfg) && Books(s.ledger) && Keyed(c)
    ensures Exec(cfg, adapter, Exec(cfg, adapter, s, c), c) == Exec(cfg, adapter, s, c)
  {
    hide Books, Partition, ValidTiers, ExecMoney, ExecSubs, ExecUsage, ExecHolds, ExecVibes, ExecFeed;
    match c {
      case Money(m) => MoneyRepeats(cfg, s, m);
      case Subs(m) => SubsRepeat(cfg, s, m);
      case Usage(m) => UsageRepeats(cfg, s, m);
      case Holds(m) => HoldsRepeat(cfg, s, m);
      case Pay(m) => VibesRepeat(cfg, s, m);
      case Feed(m) => FeedRepeats(cfg, adapter, s, m);
    }
  }

  lemma SubsRepeat(cfg: Config, s: State, c: SubsCommand)
    requires Valid(cfg) && (c.PayC? || c.CancelC? || c.ChargeReadC? || c.RefundPeriodC?)
    ensures ExecSubs(cfg, ExecSubs(cfg, s, c), c) == ExecSubs(cfg, s, c)
  {
    hide Partition, ValidTiers, Subscriptions.Pay, RefundPeriod;
    match c {
      case PayC(a) => if Subscriptions.Pay(cfg, s, a).Done? { PayRepeats(cfg, s, a); }
      case CancelC(i) =>
      case ChargeReadC(read) =>
        var a := RenewArgs(cfg, read.row, Renewal(read.sub, read.row.periodEnd, read.attempt));
        if Subscriptions.Pay(cfg, s, a).Done? { PayRepeats(cfg, s, a); }
      case RefundPeriodC(a) => if RefundPeriod(cfg, s, a).Done? { RefundPeriodRepeats(cfg, s, a); }
    }
  }

  lemma UsageRepeats(cfg: Config, s: State, c: UsageCommand)
    requires Valid(cfg) && (c.GrantC? || c.BudgetC?)
    ensures ExecUsage(cfg, ExecUsage(cfg, s, c), c) == ExecUsage(cfg, s, c)
  {
    hide Partition, ValidTiers, Grant, SetBudget;
    match c {
      case GrantC(a) => if Grant(cfg, s, a).Done? { GrantRepeats(cfg, s, a); }
      case BudgetC(a) => if SetBudget(cfg, s, a).Done? { BudgetRepeats(cfg, s, a); }
    }
  }

  lemma HoldsRepeat(cfg: Config, s: State, c: HoldCommand)
    requires Valid(cfg) && Books(s.ledger) && !c.ExtendHoldC?
    ensures ExecHolds(cfg, ExecHolds(cfg, s, c), c) == ExecHolds(cfg, s, c)
  {
    hide Books, Partition, ValidTiers, CreateHold, SettleHold, SandboxGrant, Move, BuyVibes, ExpiredCount;
    match c {
      case CreateHoldC(a) => if CreateHold(cfg, s, a).Done? { CreateHoldRepeats(cfg, s, a); }
      case SettleHoldC(a) => if SettleHold(cfg, s, a).Done? { SettleHoldRepeats(cfg, s, a); }
      case ReleaseHoldC(i) =>
      case SweepHoldsC => assert Credits.Expired(Credits.Expired(s.holds, s.clock), s.clock) == Credits.Expired(s.holds, s.clock);
      case SandboxC(a) => if SandboxGrant(cfg, s, a).Done? { SandboxRepeats(cfg, s, a); }
      case MoveC(a) => if Move(cfg, s, a).Done? { MoveRepeats(cfg, s, a); }
      case BuyVibesC(a) => if BuyVibes(cfg, s, a).Done? { BuyRepeats(cfg, s, a); }
    }
  }

  lemma VibesRepeat(cfg: Config, s: State, c: VibesCommand)
    ensures ExecVibes(cfg, ExecVibes(cfg, s, c), c) == ExecVibes(cfg, s, c)
  {
    hide CreateCharge, PayCharge, RefundCharge, TestVibes;
    match c {
      case CreateChargeC(a) => if CreateCharge(cfg, s, a).Done? { CreateChargeRepeats(cfg, s, a); }
      case PayChargeC(i, p) => if PayCharge(cfg, s, i, p).Done? { PayChargeRepeats(cfg, s, i, p); }
      case RefundChargeC(i, app) => if RefundCharge(cfg, s, i, app).Done? { RefundChargeRepeats(cfg, s, i, app); }
      case CancelChargeC(i) =>
      case TestVibesC(a) => if TestVibes(cfg, s, a).Done? { TestVibesRepeats(cfg, s, a); }
    }
  }

  lemma FeedRepeats(cfg: Config, adapter: Adapter, s: State, c: FeedCommand)
    requires Valid(cfg) && c.StoreC?
    ensures ExecFeed(cfg, adapter, ExecFeed(cfg, adapter, s, c), c) == ExecFeed(cfg, adapter, s, c)
  {
    hide Partition, ValidTiers;
    StoreRepeats(s, c.provider, c.eventId, c.payload);
  }
}
