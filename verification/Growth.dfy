/** What each operation adds to the journal: at most one transaction under its own key and source. */
module Growth {
  import opened Basics
  import opened Schema
  import opened Journal
  import opened Rates
  import opened Common
  import opened Invariants
  import opened Purchases
  import opened Topups
  import opened Transfers
  import opened Subscriptions
  import opened Reversals

  /** One new transaction, from the source and provider given; the events are not touched. */
  ghost predicate AddsOne(s: State, s': State, source: Option<nat>, provider: Option<Owner>, receipt: Option<ReceiptRef>)
  {
    && s'.events == s.events && s'.frozen == s.frozen && s'.clock == s.clock
    && |s'.ledger.journal| == |s.ledger.journal| + 1 && s'.ledger.journal[..|s.ledger.journal|] == s.ledger.journal
    && var t := s'.ledger.journal[|s.ledger.journal|];
       t.source == source && (source.Some? ==> t.provider == provider) && t.receipt == receipt && !t.meta.BalanceMeta?
  }

  lemma PostGrows(cfg: Config, s: State, t: Txn)
    requires JournalOk(cfg, s.ledger) && Post(s.ledger, t).Posted? && !t.meta.BalanceMeta?
    ensures AddsOne(s, s.(ledger := Post(s.ledger, t).ledger), t.source, t.provider, t.receipt)
  {
    hide Post, JournalOk;
    BooksOf(cfg, s.ledger);
    var stored := Appended(s.ledger, t);
  }

  lemma SettleGrows(cfg: Config, s: State, a: SettleArgs)
    requires ValidTiers(cfg) && JournalOk(cfg, s.ledger) && FindKey(s.ledger.journal, a.key).None?
    requires Settle(cfg, s, a).Done?
    ensures var r := Settle(cfg, s, a);
      if r.value.replay then r.state == s
      else AddsOne(s, r.state, a.source, Some(Gateway(a.provider)), Some(Payment(a.provider, a.payment)))
  {
    hide Post, ValidTiers, ChosenBits, ReceiptEntries, JournalOk, ValueCents;
    var r := Settle(cfg, s, a);
    if !r.value.replay {
      var intent := if a.intent.Some? then Some(s.intents[a.intent.value]) else None;
      var subject := if intent.Some? then Some(intent.value.subject) else a.subject;
      var t := PurchaseTxn(cfg, a, subject.value, ChosenBits(cfg, intent, a).value);
      FreshPosts(s.ledger, t);
      PostGrows(cfg, s, t);
    }
  }

  /** Under a key already in the journal a settlement posts nothing. */
  lemma SettleKnown(cfg: Config, s: State, a: SettleArgs)
    requires ValidTiers(cfg) && FindKey(s.ledger.journal, a.key).Some? && Settle(cfg, s, a).Done?
    ensures Settle(cfg, s, a).state == s.(intents := Settle(cfg, s, a).state.intents)
  {
    forall t: Txn | t.key == a.key { KnownReplays(s.ledger, t); }
    hide Post, ValidTiers, ChosenBits, ReceiptEntries, ValueCents;
  }

  lemma TipKnown(cfg: Config, s: State, a: TipArgs)
    requires FindKey(s.ledger.journal, a.key).Some? && TipFromReceipt(cfg, s, a).Done?
    ensures TipFromReceipt(cfg, s, a).state == s
  {
    KnownReplays(s.ledger, TipTxn(cfg, a));
    hide Post, ReceiptEntries, ValueCents, BitsForValueCents;
  }

  lemma TopupGrows(cfg: Config, s: State, a: TopupArgs)
    requires JournalOk(cfg, s.ledger) && SettleTopup(cfg, s, a).Done?
    ensures var r := SettleTopup(cfg, s, a);
      if r.value.Skipped? || r.value.replay then r.state == s
      else AddsOne(s, r.state, a.source, Some(Gateway(a.provider)), Some(Payment(a.provider, a.payment)))
  {
    hide SettleTopup, Post, JournalOk;
    TopupPosts(cfg, s, a);
    var r := SettleTopup(cfg, s, a);
    if r.value.Credited? && !r.value.replay { PostGrows(cfg, s, TopupTxn(a, s.intents[a.intent.value])); }
  }

  lemma TipGrows(cfg: Config, s: State, a: TipArgs)
    requires JournalOk(cfg, s.ledger) && FindKey(s.ledger.journal, a.key).None?
    requires TipFromReceipt(cfg, s, a).Done?
    ensures var r := TipFromReceipt(cfg, s, a);
      if r.value.replay then r.state == s
      else AddsOne(s, r.state, a.source, Some(Gateway(a.provider)), Some(Payment(a.provider, a.payment)))
  {
    hide Post, ReceiptEntries, JournalOk, ValueCents, BitsForValueCents;
    if !TipFromReceipt(cfg, s, a).value.replay {
      FreshPosts(s.ledger, TipTxn(cfg, a));
      PostGrows(cfg, s, TipTxn(cfg, a));
    }
  }

  lemma PayGrows(cfg: Config, s: State, a: PayArgs)
    requires JournalOk(cfg, s.ledger) && Pay(cfg, s, a).Done?
    ensures var r := Pay(cfg, s, a);
      if r.value.replay then r.state == s
      else AddsOne(s, r.state, a.source, if a.funding.FromReceipt? then Some(Gateway(a.funding.provider)) else None, PaymentRef(a.funding))
  {
    hide Post, JournalOk, PriceOf, FundsOf, Granted;
    var r := Pay(cfg, s, a);
    if !r.value.replay {
      var price := PriceOf(cfg, s, a, Prior(s, a)).value;
      var t := PeriodTxn(cfg, a, FundsOf(cfg, s, a, price).value);
      FundsMeta(cfg, s, a, price);
      FreshPosts(s.ledger, t);
      PostGrows(cfg, s, t);
      GrantedFrame(cfg, s.(ledger := Post(s.ledger, t).ledger), a, price, Post(s.ledger, t).txn);
    }
  }

  lemma ReverseGrows(cfg: Config, s: State, a: ReverseArgs, p: Provider)
    requires JournalOk(cfg, s.ledger) && Reverse(cfg, s, a).Done?
    requires a.original.Payment? && a.original.provider == p
    ensures var r := Reverse(cfg, s, a);
      if r.value.AlreadyDone? || r.value.replay then r.state == s
      else AddsOne(s, r.state, a.source, Some(Gateway(p)), a.reversal)
  {
    hide Post, JournalOk, PartOf, RevokeFrom, CentsNow, ReversedCents, Shape;
    var r := Reverse(cfg, s, a);
    if r.value.Answered? && !r.value.replay {
      var i := FindReceipt(s.ledger.journal, a.original).value;
      var orig := s.ledger.journal[i];
      var done := ReversedCents(s.ledger.journal, i);
      var cents := CentsNow(a.ask, PaidCents(orig.meta), done);
      var t := ReversalTxn(cfg, orig, i, a, PartOf(cfg, s.ledger, orig, a.chargeback, done, cents).value);
      ShapeOf(cfg, s.ledger, i);
      PaymentProvider(cfg, orig);
      PartMeta(cfg, s.ledger, orig, a.chargeback, done, cents);
      FreshPosts(s.ledger, t);
      PostGrows(cfg, s, t);
      RevokeElsewhere(s.(ledger := Post(s.ledger, t).ledger), i, if a.chargeback then ForChargeback else ForRefund, 0);
    }
  }

  lemma PartMeta(cfg: Config, l: Ledger, orig: Txn, chargeback: bool, done: int, cents: int)
    requires PaidCents(orig.meta) > 0 && PartOf(cfg, l, orig, chargeback, done, cents).Ok?
    ensures !PartOf(cfg, l, orig, chargeback, done, cents).value.meta.BalanceMeta?
  {
    hide BitsPart, NanoPart, ValueCents;
  }

  lemma PaymentProvider(cfg: Config, t: Txn)
    requires Shape(cfg, t)
    ensures t.receipt.Some? && t.receipt.value.Payment? ==> t.provider == Some(Gateway(t.receipt.value.provider))
  {
  }

  // ------------------------------------------------------------------ the tables they leave alone

  ghost predicate SameFeed(s: State, s': State)
  {
    s'.events == s.events && s'.frozen == s.frozen && s'.clock == s.clock && s'.readings == s.readings && s'.budgets == s.budgets
  }

  lemma SettleFeed(cfg: Config, s: State, a: SettleArgs)
    requires ValidTiers(cfg) && Settle(cfg, s, a).Done?
    ensures SameFeed(s, Settle(cfg, s, a).state)
  {
    hide Post, ValidTiers, ChosenBits, PurchaseTxn, FindReceipt;
  }

  lemma TopupFeed(cfg: Config, s: State, a: TopupArgs)
    requires SettleTopup(cfg, s, a).Done?
    ensures SameFeed(s, SettleTopup(cfg, s, a).state)
  {
    hide SettleTopup, Post;
    TopupPosts(cfg, s, a);
  }

  lemma PayFeed(cfg: Config, s: State, a: PayArgs)
    requires Pay(cfg, s, a).Done?
    ensures SameFeed(s, Pay(cfg, s, a).state)
  {
    hide Post, PriceOf, FundsOf, FindKey, FindReceipt;
  }

  lemma TipFeed(cfg: Config, s: State, a: TipArgs)
    requires TipFromReceipt(cfg, s, a).Done?
    ensures SameFeed(s, TipFromReceipt(cfg, s, a).state)
  {
    hide Post, TipTxn, FindReceipt;
  }

  lemma ReverseFeed(cfg: Config, s: State, a: ReverseArgs)
    requires Reverse(cfg, s, a).Done?
    ensures SameFeed(s, Reverse(cfg, s, a).state)
  {
    hide Post, PartOf, RevokeFrom, CentsNow, ReversedCents, KnownReversal;
    var found := FindReceipt(s.ledger.journal, a.original);
    if found.Some? {
      forall l: Ledger { RevokeElsewhere(s.(ledger := l), found.value, if a.chargeback then ForChargeback else ForRefund, 0); }
    }
  }
}
