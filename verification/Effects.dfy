/**
 * What operations leave alone: the stored events, the holds, and the Balance accounts the holds
 * reserve. Local steps keep both the events' and the holds' invariants.
 */
module Effects {
  import opened Basics
  import opened Schema
  import opened Journal
  import opened Rates
  import opened Common
  import opened Invariants
  import opened Purchases
  import opened Topups
  import opened Transfers
  import opened Cashouts
  import opened Subscriptions
  import opened Reversals
  import opened Promo
  import opened Rating
  import opened Credits
  import opened Balance
  import opened Vibes
  import opened Growth

  /** A purchase of Vibes from a Balance. */
  predicate IsBuy(t: Txn) { t.meta.BalanceMeta? && t.meta.toProject.None? }

  /** Whatever was added to the journal came from no provider event, and bought no Vibes from a Balance. */
  ghost predicate Grows(s: State, s': State)
  {
    && s'.events == s.events && s'.frozen == s.frozen
    && s.ledger.journal <= s'.ledger.journal
    && forall i :: |s.ledger.journal| <= i < |s'.ledger.journal| ==> s'.ledger.journal[i].source.None? && !IsBuy(s'.ledger.journal[i])
  }

  /** No hold changed and no Balance went down. */
  ghost predicate Quiet(s: State, s': State)
  {
    s'.holds == s.holds && forall a: Account :: Spendable(a) ==> Bal(s'.ledger, a) >= Bal(s.ledger, a)
  }

  lemma GrowsKeepsEvents(s: State, s': State)
    requires EventsOk(s) && Grows(s, s')
    ensures EventsOk(s')
  {
    var j, j' := s.ledger.journal, s'.ledger.journal;
    assert forall i :: 0 <= i < |j| ==> j'[i] == j[i];
    forall e | 0 <= e < |s'.events| && s'.events[e].effect == Some(Settled) ensures exists i :: 0 <= i < |j'| && j'[i].source == Some(e) {
      var i :| 0 <= i < |j| && j[i].source == Some(e);
      assert j'[i].source == Some(e);
    }
  }

  lemma QuietKeepsCover(s: State, s': State)
    requires Covered(s) && Quiet(s, s')
    ensures Covered(s')
  {
  }

  lemma GrowsChain(a: State, b: State, c: State)
    requires Grows(a, b) && Grows(b, c)
    ensures Grows(a, c)
  {
    forall i | |a.ledger.journal| <= i < |c.ledger.journal| ensures c.ledger.journal[i].source.None? && !IsBuy(c.ledger.journal[i]) {
      if i < |b.ledger.journal| { assert c.ledger.journal[i] == b.ledger.journal[i]; }
    }
  }

  lemma QuietChain(a: State, b: State, c: State)
    requires Quiet(a, b) && Quiet(b, c)
    ensures Quiet(a, c)
  {
  }

  lemma SameIsLocal(s: State)
    ensures Grows(s, s) && Quiet(s, s)
  {
  }

  /** Grows and Quiet read the journal, the balances, the events and the holds. */
  lemma LocalReads(s: State, a: State, b: State)
    requires a.ledger == b.ledger && a.events == b.events && a.holds == b.holds && a.frozen == b.frozen
    ensures Grows(s, a) ==> Grows(s, b)
    ensures Quiet(s, a) ==> Quiet(s, b)
  {
  }

  lemma AddsOneGrows(s: State, s': State, provider: Option<Owner>, receipt: Option<ReceiptRef>)
    requires AddsOne(s, s', None, provider, receipt)
    ensures Grows(s, s')
  {
  }

  ghost predicate Avoids(t: Txn) { forall i :: 0 <= i < |t.entries| ==> !Spendable(t.entries[i].account) }

  /** One posting. */
  lemma PostGrowing(s: State, t: Txn)
    requires Books(s.ledger) && PostOn(s, t).Done? && t.source.None? && !IsBuy(t)
    ensures Grows(s, PostOn(s, t).state)
  {
    hide Books;
    if Post(s.ledger, t).Posted? {
      hide Post;
      var stored := Appended(s.ledger, t);
    }
  }

  lemma PostQuiet(s: State, t: Txn)
    requires Books(s.ledger) && PostOn(s, t).Done? && Avoids(t)
    ensures Quiet(s, PostOn(s, t).state)
  {
    hide Books;
    if Post(s.ledger, t).Posted? {
      hide Post;
      PostEffect(s.ledger, t);
      forall a: Account | Spendable(a) ensures Delta(t.entries, a) == 0 { NoAccountNoDelta(t.entries, a); }
    }
  }

  // ------------------------------------------------------------------ payments from a provider

  lemma SettleQuiet(cfg: Config, s: State, a: SettleArgs)
    requires ValidTiers(cfg) && Books(s.ledger) && Settle(cfg, s, a).Done?
    ensures Quiet(s, Settle(cfg, s, a).state)
  {
    hide Post, ValidTiers, ChosenBits, Books, ValueCents;
    var r := Settle(cfg, s, a);
    if FindReceipt(s.ledger.journal, Payment(a.provider, a.payment)).None? {
      var intent := if a.intent.Some? then Some(s.intents[a.intent.value]) else None;
      var subject := if intent.Some? then Some(intent.value.subject) else a.subject;
      if subject.Some? && ChosenBits(cfg, intent, a).Some? {
        var t := PurchaseTxn(cfg, a, subject.value, ChosenBits(cfg, intent, a).value);
        if PostOn(s, t).Done? { PostQuiet(s, t); }
      }
    }
  }

  lemma TipQuiet(cfg: Config, s: State, a: TipArgs)
    requires Books(s.ledger) && TipFromReceipt(cfg, s, a).Done?
    ensures Quiet(s, TipFromReceipt(cfg, s, a).state)
  {
    hide Post, Books, ValueCents, BitsForValueCents;
    if PostOn(s, TipTxn(cfg, a)).Done? { PostQuiet(s, TipTxn(cfg, a)); }
  }

  lemma PayQuiet(cfg: Config, s: State, a: PayArgs)
    requires Books(s.ledger) && Pay(cfg, s, a).Done?
    ensures Quiet(s, Pay(cfg, s, a).state)
  {
    hide Post, Books, PriceOf, FundsOf, Granted;
    var r := Pay(cfg, s, a);
    if !r.value.replay {
      var price := PriceOf(cfg, s, a, Prior(s, a)).value;
      var t := PeriodTxn(cfg, a, FundsOf(cfg, s, a, price).value);
      FundsAvoid(cfg, s, a, price);
      PostQuiet(s, t);
      var p := PostOn(s, t);
      GrantedFrame(cfg, p.state, a, price, p.value.txn);
    }
  }

  lemma FundsAvoid(cfg: Config, s: State, a: PayArgs, price: int)
    requires FundsOf(cfg, s, a, price).Ok?
    ensures Avoids(PeriodTxn(cfg, a, FundsOf(cfg, s, a, price).value))
  {
    hide ValueCents, BitsForValueCents, SubShareBits;
  }

  /** A top-up only ever raises its Balance. */
  lemma TopupQuiet(cfg: Config, s: State, a: TopupArgs)
    requires Books(s.ledger) && SettleTopup(cfg, s, a).Done? && KeyMatchesSource(a.key, a.source)
    requires IntentsOk(s)
    ensures Quiet(s, SettleTopup(cfg, s, a).state)
  {
    hide SettleTopup, Post, Books, TopupTxn, Shape, Touches;
    TopupPosts(cfg, s, a);
    var r := SettleTopup(cfg, s, a);
    if r.value.Credited? && !r.value.replay {
      var i := s.intents[a.intent.value];
      TopupShape(cfg, a, i);
      PostEffect(s.ledger, TopupTxn(a, i));
    }
  }

  /** The top-up a reversal would claw back from, if its payment is one. */
  ghost predicate SpareOf(s: State, original: ReceiptRef)
  {
    var found := FindReceipt(s.ledger.journal, original);
    found.Some? && s.ledger.journal[found.value].meta.TopupMeta? && s.ledger.journal[found.value].to.Some? ==>
      HeldOn(s.holds, BalanceOf(s.ledger.journal[found.value].to.value, s.ledger.journal[found.value].meta.project)) == 0
  }

  /**
   * A reversed top-up claws what the balance holds, held or not: the holds stay covered exactly
   * when what is left still covers the holds on that account.
   */
  lemma ClawCoversExactly(cfg: Config, s: State, orig: Txn, done: int, cents: int, t: Txn, p: Provider, owner: Subject)
    requires Books(s.ledger) && Covered(s)
    requires orig.meta.TopupMeta? && orig.meta.paidCents > 0 && 0 < orig.meta.amountNano <= orig.meta.paidCents * NANO_PER_CENT
    requires t.entries == TopupPart(s.ledger, orig, owner, p, done, cents).entries && done >= 0 && cents > 0 && t.bitsPerUsd == cfg.bitsPerUsd
    requires Post(s.ledger, t).Posted?
    ensures var account := BalanceOf(owner, orig.meta.project);
      var clawed := ClawedNano(Bal(s.ledger, account), NanoPart(orig.meta.amountNano, orig.meta.paidCents, done, cents));
      && 0 <= clawed <= Max(0, Bal(s.ledger, account))
      && (Covered(s.(ledger := Post(s.ledger, t).ledger)) <==> HeldOn(s.holds, account) <= Bal(s.ledger, account) - clawed)
  {
    hide Post, Books, FxMirror, PromoIsolated, Touches, NanoPart;
    var account := BalanceOf(owner, orig.meta.project);
    TopupPartShape(cfg, s.ledger, orig, t, owner, p, done, cents);
    PostEffect(s.ledger, t);
    ClawedDelta(s.ledger, orig, t, owner, p, done, cents);
    forall a: Account | Spendable(a) ensures HeldOn(s.holds, a) <= Bal(s.ledger, a) {
    }
    assert Spendable(account);
  }

  lemma ClawedDelta(l: Ledger, orig: Txn, t: Txn, owner: Subject, p: Provider, done: int, cents: int)
    requires orig.meta.TopupMeta? && orig.meta.paidCents > 0
    requires t.entries == TopupPart(l, orig, owner, p, done, cents).entries
    ensures var account := BalanceOf(owner, orig.meta.project);
      Delta(t.entries, account) == -ClawedNano(Bal(l, account), NanoPart(orig.meta.amountNano, orig.meta.paidCents, done, cents))
  {
    hide NanoPart;
    var e := t.entries;
    assert e == [e[0], e[1], e[2], e[3]];
    Sums4(e[0], e[1], e[2], e[3]);
  }

  const WALLET := Account(UsdCredit, Person(1), Nano)
  const ONE_CENT := Txn(
    Credit, Api(0), [Entry(ClearingOf(Stripe, Nano), -NANO_PER_CENT), Entry(WALLET, NANO_PER_CENT)], None,
    None, Some(1), Some(Gateway(Stripe)), Some(Payment(Stripe, 0)), None, TopupMeta(1, NANO_PER_CENT, None, None), 0)
  /** One cent topped up and all of it held. */
  const HELD_CENT := EMPTY.(
    ledger := Ledger([ONE_CENT], map[ClearingOf(Stripe, Nano) := -NANO_PER_CENT, WALLET := NANO_PER_CENT]),
    holds := [Hold(WALLET, NANO_PER_CENT, NANO_PER_CENT, 0, 0, 300000, HoldActive)])
  const CENT_BACK := ReverseArgs(false, Payment(Stripe, 0), None, Whole, Api(1), None)

  lemma CentBackPart(cfg: Config, t: Txn)
    requires t.entries == [Entry(ClearingOf(Stripe, Nano), NANO_PER_CENT), Entry(WALLET, -NANO_PER_CENT), Entry(RevenueIn(Nano), 0), Entry(DEBT, 0)]
    requires t.key == Api(1) && t.receipt.None?
    ensures Post(HELD_CENT.ledger, t).Posted?
  {
    var e, l := t.entries, HELD_CENT.ledger;
    Sums4(e[0], e[1], e[2], e[3]);
    assert e == [e[0], e[1], e[2], e[3]];
    MergeDistinct(e);
    assert forall x :: x in e ==> RowFits(l, x);
    assert forall i :: 0 <= i < |Merge(e)| ==> Merge(e)[i] in Merge(e);
    assert FindKey([ONE_CENT][..0], Api(1)).None?;
    hide Merge;
    PostAccepts(l, t);
  }

  lemma CentHeld()
    ensures Covered(HELD_CENT) && HeldOn(HELD_CENT.holds, WALLET) == NANO_PER_CENT
  {
    var hs := HELD_CENT.holds;
    assert hs[..0] == [];
    forall a: Account ensures HeldOn(hs, a) == if a == WALLET then NANO_PER_CENT else 0 {
      assert HeldOn([], a) == 0;
    }
  }

  /** What the refund of the cent posts. */
  lemma CentBackTxn(cfg: Config)
    ensures var t := ReversalTxn(cfg, ONE_CENT, 0, CENT_BACK, TopupPart(HELD_CENT.ledger, ONE_CENT, 1, Stripe, 0, 1));
      && PartOf(cfg, HELD_CENT.ledger, ONE_CENT, false, 0, 1) == Ok(TopupPart(HELD_CENT.ledger, ONE_CENT, 1, Stripe, 0, 1))
      && t.entries == [Entry(ClearingOf(Stripe, Nano), NANO_PER_CENT), Entry(WALLET, -NANO_PER_CENT), Entry(RevenueIn(Nano), 0), Entry(DEBT, 0)]
      && t.key == Api(1) && t.receipt.None?
  {
    assert NanoPart(NANO_PER_CENT, 1, 0, 1) == NANO_PER_CENT;
  }

  lemma CentBackDone(cfg: Config)
    ensures var t := ReversalTxn(cfg, ONE_CENT, 0, CENT_BACK, TopupPart(HELD_CENT.ledger, ONE_CENT, 1, Stripe, 0, 1));
      var r := Reverse(cfg, HELD_CENT, CENT_BACK);
      r.Done? && Post(HELD_CENT.ledger, t).Posted? && r.state.ledger == Post(HELD_CENT.ledger, t).ledger && r.state.holds == HELD_CENT.holds
  {
    hide Post, PartOf, TopupPart, ReversalTxn;
    var j := HELD_CENT.ledger.journal;
    assert j[..0] == [];
    CentBackTxn(cfg);
    assert FindReceipt([], Payment(Stripe, 0)).None? && FindKey([], Api(1)).None?;
    assert ReversedCents([], 0) == 0 && ReversedCents(j, 0) == 0;
    var t := ReversalTxn(cfg, ONE_CENT, 0, CENT_BACK, TopupPart(HELD_CENT.ledger, ONE_CENT, 1, Stripe, 0, 1));
    CentBackPart(cfg, t);
  }

  /** The edge itself: a cent topped up, held whole and then refunded leaves a hold on an empty Balance. */
  lemma RefundUncoversHold(cfg: Config)
    ensures Covered(HELD_CENT) && Reverse(cfg, HELD_CENT, CENT_BACK).Done? && !Covered(Reverse(cfg, HELD_CENT, CENT_BACK).state)
  {
    hide Post, Reverse, Books, TopupPart, ReversalTxn;
    CentHeld();
    CentBackTxn(cfg);
    CentBackDone(cfg);
    CentBooks();
    var t := ReversalTxn(cfg, ONE_CENT, 0, CENT_BACK, TopupPart(HELD_CENT.ledger, ONE_CENT, 1, Stripe, 0, 1));
    PostEffect(HELD_CENT.ledger, t);
    Sums4(t.entries[0], t.entries[1], t.entries[2], t.entries[3]);
    var after := Reverse(cfg, HELD_CENT, CENT_BACK).state;
    assert Bal(after.ledger, WALLET) == 0;
    assert Spendable(WALLET);
  }

  lemma CentBooks()
    ensures Books(HELD_CENT.ledger)
  {
    var j := HELD_CENT.ledger.journal;
    assert j[..0] == [];
    Sums2(ONE_CENT.entries[0], ONE_CENT.entries[1]);
    forall a: Account ensures Bal(HELD_CENT.ledger, a) == JournalSum(j, a) {
      assert JournalSum([], a) == 0;
    }
    forall i | 0 <= i < |j| ensures Sound(j[i]) {
    }
  }

  lemma OtherPartsAvoid(cfg: Config, l: Ledger, orig: Txn, chargeback: bool, done: int, cents: int, t: Txn)
    requires PaidCents(orig.meta) > 0 && !orig.meta.TopupMeta?
    requires PartOf(cfg, l, orig, chargeback, done, cents).Ok?
    requires t.entries == PartOf(cfg, l, orig, chargeback, done, cents).value.entries
    ensures Avoids(t)
  {
    hide BitsPart, ValueCents;
  }

  /** What a reversal that is booked now posts. */
  lemma ReversePosts(cfg: Config, s: State, a: ReverseArgs)
    requires Reverse(cfg, s, a).Done?
    ensures var r := Reverse(cfg, s, a); var found := FindReceipt(s.ledger.journal, a.original);
      if r.value.Answered? && !r.value.replay then
        && found.Some?
        && var orig := s.ledger.journal[found.value];
           var done := ReversedCents(s.ledger.journal, found.value);
           var cents := CentsNow(a.ask, PaidCents(orig.meta), done);
           && PaidCents(orig.meta) > 0 && cents > 0 && PartOf(cfg, s.ledger, orig, a.chargeback, done, cents).Ok?
           && var t := ReversalTxn(cfg, orig, found.value, a, PartOf(cfg, s.ledger, orig, a.chargeback, done, cents).value);
              && Post(s.ledger, t).Posted? && r.state.ledger == Post(s.ledger, t).ledger
              && r.state.holds == s.holds && r.state.events == s.events && r.state.frozen == s.frozen
      else r.state == s
  {
    hide Post, PartOf, RevokeFrom, CentsNow, ReversedCents;
    var r := Reverse(cfg, s, a);
    if r.value.Answered? && !r.value.replay {
      var i := FindReceipt(s.ledger.journal, a.original).value;
      var orig := s.ledger.journal[i];
      var done := ReversedCents(s.ledger.journal, i);
      var cents := CentsNow(a.ask, PaidCents(orig.meta), done);
      var t := ReversalTxn(cfg, orig, i, a, PartOf(cfg, s.ledger, orig, a.chargeback, done, cents).value);
      FreshPosts(s.ledger, t);
      RevokeElsewhere(s.(ledger := Post(s.ledger, t).ledger), i, if a.chargeback then ForChargeback else ForRefund, 0);
    }
  }

  lemma TopupFacts(cfg: Config, t: Txn)
    requires Shape(cfg, t)
    ensures t.meta.TopupMeta? ==> t.to.Some? && 0 < t.meta.amountNano <= t.meta.paidCents * NANO_PER_CENT && t.meta.paidCents > 0
  {
  }

  lemma DoneNotNegative(l: Ledger, i: nat)
    requires TotalsOk(l) && i < |l.journal| && PaidCents(l.journal[i].meta) > 0
    ensures ReversedCents(l.journal, i) >= 0
  {
    assert TotalsAt(l.journal, i);
  }

  /** A reversal on accounts with no open hold keeps the holds covered. */
  lemma ReverseCovered(cfg: Config, s: State, a: ReverseArgs)
    requires JournalOk(cfg, s.ledger) && TotalsOk(s.ledger) && Covered(s) && SpareOf(s, a.original)
    requires Reverse(cfg, s, a).Done?
    ensures Covered(Reverse(cfg, s, a).state)
  {
    hide Reverse, Post, JournalOk, TotalsOk, Covered, NanoPart, CentsNow, ReversedCents, Shape;
    BooksOf(cfg, s.ledger);
    ReversePosts(cfg, s, a);
    var r := Reverse(cfg, s, a);
    if r.value.Answered? && !r.value.replay {
      var i := FindReceipt(s.ledger.journal, a.original).value;
      var orig := s.ledger.journal[i];
      ShapeOf(cfg, s.ledger, i);
      TopupFacts(cfg, orig);
      DoneNotNegative(s.ledger, i);
      var done := ReversedCents(s.ledger.journal, i);
      var cents := CentsNow(a.ask, PaidCents(orig.meta), done);
      var t := ReversalTxn(cfg, orig, i, a, PartOf(cfg, s.ledger, orig, a.chargeback, done, cents).value);
      var s1 := s.(ledger := Post(s.ledger, t).ledger);
      if orig.meta.TopupMeta? {
        ClawCoversExactly(cfg, s, orig, done, cents, t, orig.provider.value.provider, orig.to.value);
        CoverAt(s, BalanceOf(orig.to.value, orig.meta.project));
      } else {
        OtherPartsAvoid(cfg, s.ledger, orig, a.chargeback, done, cents, t);
        PostQuiet(s, t);
        QuietKeepsCover(s, s1);
      }
      CoverReads(s1, r.state);
    }
  }

  lemma CoverAt(s: State, a: Account)
    requires Covered(s) && Spendable(a)
    ensures HeldOn(s.holds, a) <= Bal(s.ledger, a)
  {
  }

  lemma CoverReads(s: State, s': State)
    requires Covered(s) && s'.ledger == s.ledger && s'.holds == s.holds
    ensures Covered(s')
  {
  }

  lemma ReverseGrowing(cfg: Config, s: State, a: ReverseArgs)
    requires Books(s.ledger) && Reverse(cfg, s, a).Done? && a.source.None?
    ensures Grows(s, Reverse(cfg, s, a).state)
  {
    hide Reverse, Post, Books, PartOf;
    ReversePosts(cfg, s, a);
    var r := Reverse(cfg, s, a);
    SameIsLocal(s);
    if r.value.Answered? && !r.value.replay {
      var i := FindReceipt(s.ledger.journal, a.original).value;
      var orig := s.ledger.journal[i];
      var done := ReversedCents(s.ledger.journal, i);
      var t := ReversalTxn(cfg, orig, i, a, PartOf(cfg, s.ledger, orig, a.chargeback, done, CentsNow(a.ask, PaidCents(orig.meta), done)).value);
      PartMeta(cfg, s.ledger, orig, a.chargeback, done, CentsNow(a.ask, PaidCents(orig.meta), done));
      PostGrowing(s, t);
      LocalReads(s, s.(ledger := Post(s.ledger, t).ledger), r.state);
    }
  }

  // ------------------------------------------------------------------ gifts, cashouts, subscriptions

  lemma SimpleLocal(s: State, t: Txn)
    requires Books(s.ledger) && PostOn(s, t).Done? && t.source.None? && Avoids(t) && !IsBuy(t)
    ensures Grows(s, PostOn(s, t).state) && Quiet(s, PostOn(s, t).state)
  {
    hide PostOn, Books;
    PostGrowing(s, t);
    PostQuiet(s, t);
  }

  lemma GiveLocal(cfg: Config, s: State, a: GiftArgs)
    requires Books(s.ledger) && Give(cfg, s, a).Done?
    ensures Grows(s, Give(cfg, s, a).state) && Quiet(s, Give(cfg, s, a).state)
  {
    hide Books, PostOn, Grows, Quiet;
    SameIsLocal(s);
    if PostOn(s, GiftTxn(cfg, a)).Done? { SimpleLocal(s, GiftTxn(cfg, a)); }
  }

  lemma RefundGiftLocal(s: State, a: GiftRefundArgs)
    requires Books(s.ledger) && RefundGift(s, a).Done?
    ensures Grows(s, RefundGift(s, a).state) && Quiet(s, RefundGift(s, a).state)
  {
    hide Books, PostOn, Grows, Quiet;
    SameIsLocal(s);
    if FindKey(s.ledger.journal, a.key).None? {
      var orig := s.ledger.journal[a.txn];
      var amount := if a.amount.Some? then a.amount.value else orig.meta.amountBits - RefundedBits(s.ledger.journal, a.txn);
      SimpleLocal(s, GiftRefundTxn(orig, a, amount));
    }
  }

  lemma RequestLocal(cfg: Config, s: State, a: CashoutArgs)
    requires Books(s.ledger) && Request(cfg, s, a).Done?
    ensures Grows(s, Request(cfg, s, a).state) && Quiet(s, Request(cfg, s, a).state)
  {
    hide Books, PostOn, Grows, Quiet;
    SameIsLocal(s);
    if FindKey(s.ledger.journal, a.key).None? {
      SimpleLocal(s, RequestTxn(cfg, a));
      LocalReads(s, PostOn(s, RequestTxn(cfg, a)).state, Request(cfg, s, a).state);
    }
  }

  lemma ApproveLocal(cfg: Config, s: State, a: ApproveArgs)
    requires Books(s.ledger) && Approve(cfg, s, a).Done?
    ensures Grows(s, Approve(cfg, s, a).state) && Quiet(s, Approve(cfg, s, a).state)
  {
    hide Books, PostOn, Grows, Quiet;
    SameIsLocal(s);
    var t := PaidTxn(cfg, s.cashouts[a.cashout], a);
    if !Approve(cfg, s, a).value.replay {
      SimpleLocal(s, t);
      LocalReads(s, PostOn(s, t).state, Approve(cfg, s, a).state);
    }
  }

  lemma DenyLocal(s: State, a: DenyArgs)
    requires Books(s.ledger) && Deny(s, a).Done?
    ensures Grows(s, Deny(s, a).state) && Quiet(s, Deny(s, a).state)
  {
    hide Books, PostOn, Grows, Quiet;
    SameIsLocal(s);
    var t := DeniedTxn(s.cashouts[a.cashout], a);
    if !Deny(s, a).value.replay {
      SimpleLocal(s, t);
      LocalReads(s, PostOn(s, t).state, Deny(s, a).state);
    }
  }

  lemma RecycleLocal(cfg: Config, s: State, a: RecycleArgs)
    requires Books(s.ledger) && RecyclePayable(cfg, s, a).Done?
    ensures Grows(s, RecyclePayable(cfg, s, a).state) && Quiet(s, RecyclePayable(cfg, s, a).state)
  {
    hide Books, PostOn, Grows, Quiet;
    SameIsLocal(s);
    if PostOn(s, RecycleTxn(a)).Done? { SimpleLocal(s, RecycleTxn(a)); }
  }

  lemma RefundPeriodLocal(cfg: Config, s: State, a: PeriodRefundArgs)
    requires Books(s.ledger) && RefundPeriod(cfg, s, a).Done?
    ensures Grows(s, RefundPeriod(cfg, s, a).state) && Quiet(s, RefundPeriod(cfg, s, a).state)
  {
    hide Books, PostOn, Grows, Quiet, RevokeFrom, ValueCents, Granting, HasReversal;
    SameIsLocal(s);
    if FindKey(s.ledger.journal, a.key).None? && !HasReversal(s.ledger.journal, a.txn) {
      var orig := s.ledger.journal[a.txn];
      var t := PeriodRefundTxn(cfg, s.ledger, orig, a);
      SimpleLocal(s, t);
      var s1 := PostOn(s, t).state;
      RevokeElsewhere(s1, a.txn, ForRefund, 0);
      LocalReads(s, s1, RefundPeriod(cfg, s, a).state);
    }
  }

  lemma PayGrowing(cfg: Config, s: State, a: PayArgs)
    requires JournalOk(cfg, s.ledger) && Pay(cfg, s, a).Done? && a.source.None?
    ensures Grows(s, Pay(cfg, s, a).state) && Quiet(s, Pay(cfg, s, a).state)
  {
    hide Pay, JournalOk, Grows, Quiet;
    SameIsLocal(s);
    BooksOf(cfg, s.ledger);
    PayGrows(cfg, s, a);
    PayQuiet(cfg, s, a);
    var r := Pay(cfg, s, a);
    if !r.value.replay {
      AddsOneGrows(s, r.state, if a.funding.FromReceipt? then Some(Gateway(a.funding.provider)) else None, PaymentRef(a.funding));
    }
  }

  lemma SweepOneLocal(cfg: Config, s: State, i: nat, row: Sub)
    requires JournalOk(cfg, s.ledger) && SweepOne(cfg, s, i, row).Done?
    ensures Grows(s, SweepOne(cfg, s, i, row).state) && Quiet(s, SweepOne(cfg, s, i, row).state)
  {
    hide Pay, JournalOk, Grows, Quiet, Attempt;
    SameIsLocal(s);
    var r := SweepOne(cfg, s, i, row);
    if r.state.ledger == s.ledger && r.state.holds == s.holds && r.state.events == s.events && r.state.frozen == s.frozen {
      LocalReads(s, s, r.state);
    } else {
      var a := RenewArgs(cfg, row, Renewal(i, row.periodEnd, Attempt(s.ledger.journal, i, row.periodEnd, 0)));
      PayGrowing(cfg, s, a);
    }
  }

  // ------------------------------------------------------------------ promo and rating

  lemma LapsedLocal(s: State, s': State, p: Subject)
    requires LapsedTo(s, s', p)
    ensures Grows(s, s') && Quiet(s, s')
  {
  }

  lemma GrantLocal(cfg: Config, s: State, a: GrantArgs)
    requires Valid(cfg) && Inv(cfg, s) && Grant(cfg, s, a).Done?
    ensures Grows(s, Grant(cfg, s, a).state) && Quiet(s, Grant(cfg, s, a).state)
  {
    hide Inv, Valid, LapseAll, PostOn, Topped, LapsedTo, Grows, Quiet;
    SameIsLocal(s);
    ToppedElsewhere(cfg, s, a);
    if FindKey(s.ledger.journal, PromoGrantKey(a.key)).None? {
      LapseKeeps(cfg, s, a.subject);
      var s1 := LapseAll(s, a.subject).state;
      LapsedLocal(s, s1, a.subject);
      InvBooks(cfg, s1);
      var s2 := Topped(cfg, s1, a);
      ToppedElsewhere(cfg, s1, a);
      LocalReads(s, s1, s2);
      SimpleLocal(s2, GrantTxn(a));
      GrowsChain(s, s2, PostOn(s2, GrantTxn(a)).state);
      QuietChain(s, s2, PostOn(s2, GrantTxn(a)).state);
    }
  }

  lemma ConsumeLocal(cfg: Config, s: State, a: DrawArgs)
    requires Inv(cfg, s) && Consume(s, a).Done?
    ensures Grows(s, Consume(s, a).state) && Quiet(s, Consume(s, a).state)
    ensures FindKey(s.ledger.journal, PromoDrawKey(a.reading)).None? ==> Books(Consume(s, a).state.ledger)
  {
    hide Inv, LapseAll, PostOn, Take, Taken, DrawOrder, LapsedTo, Grows, Quiet, Books;
    SameIsLocal(s);
    if FindKey(s.ledger.journal, PromoDrawKey(a.reading)).None? {
      LapseKeeps(cfg, s, a.subject);
      var s1 := LapseAll(s, a.subject).state;
      LapsedLocal(s, s1, a.subject);
      InvBooks(cfg, s1);
      var ids := DrawOrder(s1.allowances, a.subject, a.service, s1.clock);
      var left := Min(a.bits, Max(0, Bal(s1.ledger, PromoOf(a.subject))));
      var used := Taken(s1.allowances, ids, left);
      if used != 0 {
        var s2 := s1.(allowances := Take(s1.allowances, ids, left));
        LocalReads(s, s1, s2);
        SimpleLocal(s2, DrawTxn(a, used));
        BooksKept(s2, DrawTxn(a, used));
        GrowsChain(s, s2, PostOn(s2, DrawTxn(a, used)).state);
        QuietChain(s, s2, PostOn(s2, DrawTxn(a, used)).state);
      }
    }
  }

  lemma BooksKept(s: State, t: Txn)
    requires Books(s.ledger) && PostOn(s, t).Done?
    ensures Books(PostOn(s, t).state.ledger)
  {
    if Post(s.ledger, t).Posted? { PostEffect(s.ledger, t); }
  }

  lemma ChargeRestLocal(cfg: Config, s: State, id: nat, p: Subject, service: nat, charge: int)
    requires Books(s.ledger) && ChargeRest(cfg, s, id, p, service, charge).Done?
    ensures Grows(s, ChargeRest(cfg, s, id, p, service, charge).state) && Quiet(s, ChargeRest(cfg, s, id, p, service, charge).state)
  {
    hide Books, PostOn, SpendBudgets, Grows, Quiet;
    SameIsLocal(s);
    if charge > 0 {
      var s1 := s.(budgets := SpendBudgets(cfg, s.budgets, s.clock, p, service, charge).value);
      SimpleLocal(s1, UsageTxn(cfg, id, p, charge));
      SameIsLocal(s1);
      LocalReads(s, s, s1);
      GrowsChain(s, s1, PostOn(s1, UsageTxn(cfg, id, p, charge)).state);
      QuietChain(s, s1, PostOn(s1, UsageTxn(cfg, id, p, charge)).state);
    }
  }

  lemma CollectLocal(cfg: Config, s: State, id: nat, p: Subject, gross: int)
    requires Inv(cfg, s) && id < |s.readings| && s.readings[id].rated.None? && Collect(cfg, s, id, p, gross).Done?
    ensures Grows(s, Collect(cfg, s, id, p, gross).state) && Quiet(s, Collect(cfg, s, id, p, gross).state)
  {
    hide Inv, Consume, ChargeRest, Grows, Quiet, Books;
    SameIsLocal(s);
    InvBooks(cfg, s);
    RatingOf(cfg, s);
    UnratedKeysAreFresh(s, id);
    var service := s.readings[id].service;
    var drawn := DrawFor(s, p, service, gross, id);
    if gross > 0 { ConsumeLocal(cfg, s, DrawArgs(p, service, gross, id)); }
    ChargeRestLocal(cfg, drawn.state, id, p, service, gross - drawn.value.bits);
    var s2 := ChargeRest(cfg, drawn.state, id, p, service, gross - drawn.value.bits).state;
    GrowsChain(s, drawn.state, s2);
    QuietChain(s, drawn.state, s2);
    LocalReads(s, s2, Collect(cfg, s, id, p, gross).state);
  }

  lemma RateLocal(cfg: Config, s: State, cards: seq<Card>, id: nat)
    requires Inv(cfg, s) && Rate(cfg, s, cards, id).Done?
    ensures Grows(s, Rate(cfg, s, cards, id).state) && Quiet(s, Rate(cfg, s, cards, id).state)
  {
    hide Inv, Collect, ChargeFor, Grows, Quiet;
    SameIsLocal(s);
    var r := Rate(cfg, s, cards, id);
    if r.value.RatedNow? {
      var row := s.readings[id];
      CollectLocal(cfg, s, id, row.subject.value, ChargeFor(cfg, PickCard(cards, row).value, row.quantity).value);
    } else {
      LocalReads(s, s, r.state);
    }
  }

  // ------------------------------------------------------------------ Balance and Vibes

  lemma SandboxGrantGrowing(cfg: Config, s: State, a: SandboxArgs)
    requires Books(s.ledger) && SandboxGrant(cfg, s, a).Done?
    ensures Grows(s, SandboxGrant(cfg, s, a).state)
  {
    hide Books, PostOn;
    PostGrowing(s, SandboxTxn(a));
  }

  lemma MoveGrowing(cfg: Config, s: State, a: MoveArgs)
    requires Books(s.ledger) && Move(cfg, s, a).Done?
    ensures Grows(s, Move(cfg, s, a).state)
  {
    hide Books, PostOn, Grows;
    SameIsLocal(s);
    if PostOn(s, MoveTxn(a)).Done? { PostGrowing(s, MoveTxn(a)); }
  }

  /** Buying Vibes adds a transaction of its own, and keeps the events. */
  lemma BuyKeepsEvents(cfg: Config, s: State, a: BuyArgs)
    requires Books(s.ledger) && EventsOk(s) && BuyVibes(cfg, s, a).Done?
    ensures EventsOk(BuyVibes(cfg, s, a).state)
  {
    hide Books, Post, PriceNano;
    var r := BuyVibes(cfg, s, a);
    if r.state != s {
      var stored := Appended(s.ledger, BuyTxn(cfg, a));
      var j, j' := s.ledger.journal, r.state.ledger.journal;
      forall e | 0 <= e < |s.events| && s.events[e].effect == Some(Settled) ensures exists i :: 0 <= i < |j'| && j'[i].source == Some(e) {
        var i :| 0 <= i < |j| && j[i].source == Some(e);
        assert j'[i].source == Some(e);
      }
    }
  }

  lemma SettleHoldGrowing(cfg: Config, s: State, a: SettleHoldArgs)
    requires Books(s.ledger) && HoldRowsOk(s) && SettleHold(cfg, s, a).Done?
    ensures Grows(s, SettleHold(cfg, s, a).state)
  {
    hide Books, Post, Grows, SettleHold, HoldRowsOk, CollectedOf;
    SameIsLocal(s);
    if FindSettlement(s.settlements, a.key).None? {
      SettlePosts(cfg, s, a);
      var h := s.holds[a.hold];
      var t := SettleTxn(h, a.key, CollectedOf(s, h, ChargeOf(a)));
      PostGrowing(s, t);
      GrowsReads(s, PostOn(s, t).state, SettleHold(cfg, s, a).state);
    } else {
      SettleReplays(cfg, s, a);
    }
  }

  lemma GrowsReads(s: State, a: State, b: State)
    requires a.ledger == b.ledger && a.events == b.events && a.frozen == b.frozen
    ensures Grows(s, a) ==> Grows(s, b)
  {
  }

  lemma PayChargeLocal(cfg: Config, s: State, i: nat, p: Subject)
    requires Books(s.ledger) && PayCharge(cfg, s, i, p).Done?
    ensures Grows(s, PayCharge(cfg, s, i, p).state) && Quiet(s, PayCharge(cfg, s, i, p).state)
  {
    hide Books, PostOn, Grows, Quiet, PayRefused;
    SameIsLocal(s);
    var r := PayCharge(cfg, s, i, p);
    if r.value.PaidNow? {
      var t := PayTxn(cfg, s.charges[i], i, p);
      SimpleLocal(s, t);
      LocalReads(s, PostOn(s, t).state, r.state);
    } else {
      LocalReads(s, s, r.state);
    }
  }

  lemma RefundChargeLocal(cfg: Config, s: State, i: nat, app: nat)
    requires Books(s.ledger) && RefundCharge(cfg, s, i, app).Done?
    ensures Grows(s, RefundCharge(cfg, s, i, app).state) && Quiet(s, RefundCharge(cfg, s, i, app).state)
  {
    hide Books, PostOn, Grows, Quiet;
    SameIsLocal(s);
    var r := RefundCharge(cfg, s, i, app);
    if r.value.RefundedNow? {
      var t := RefundTxn(s.charges[i], i, s.charges[i].payer.value);
      SimpleLocal(s, t);
      LocalReads(s, PostOn(s, t).state, r.state);
    }
  }

  lemma TestVibesLocal(cfg: Config, s: State, a: TestVibesArgs)
    requires Books(s.ledger) && TestVibes(cfg, s, a).Done?
    ensures Grows(s, TestVibes(cfg, s, a).state) && Quiet(s, TestVibes(cfg, s, a).state)
  {
    hide Books, PostOn, Grows, Quiet;
    SimpleLocal(s, TestVibesTxn(a));
  }
}
