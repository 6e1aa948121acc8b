/**
 * What a refund or a chargeback takes back, account by account, what it writes beside the journal,
 * and that reversing a payment just settled undoes it.
 */
module Recoveries {
  import opened Basics
  import opened Schema
  import opened Journal
  import opened Rates
  import opened Common
  import opened Invariants
  import opened Purchases
  import opened Topups
  import opened Subscriptions
  import opened Reversals
  import opened Growth
  import opened Effects
  import opened Movements
  import opened Memberships

  // ------------------------------------------------------------------ how much, and of what

  /** The cents a reversal asks for, never more than is left. */
  function Asked(ask: Ask, left: int, done: int): int
  {
    match ask
    case Whole => left
    case Exactly(c) => Min(c, left)
    case Cumulative(total) => Min(total - done, left)
  }

  /** A reversal that is not a replay returns some of what is left of receipt i. */
  ghost predicate Returning(s: State, a: ReverseArgs, i: nat, cents: int)
  {
    && FindReceipt(s.ledger.journal, a.original) == Some(i) && PaidCents(s.ledger.journal[i].meta) > 0
    && var left := PaidCents(s.ledger.journal[i].meta) - ReversedCents(s.ledger.journal, i);
       cents == Asked(a.ask, left, ReversedCents(s.ledger.journal, i)) && 0 < cents <= left
  }

  function ReversalRecord(cfg: Config, s: State, a: ReverseArgs, i: nat, meta: Meta): Txn
    requires i < |s.ledger.journal|
  {
    var orig := s.ledger.journal[i];
    Txn(if a.chargeback then Chargeback else Refund, a.key, [], Some(i), orig.to, orig.from, orig.provider, a.reversal, a.source, meta, cfg.bitsPerUsd)
  }

  /** The posting behind a reversal, and the rows it writes. */
  lemma ReverseSteps(cfg: Config, s: State, a: ReverseArgs) returns (i: nat, cents: int, part: Part)
    requires JournalOk(cfg, s.ledger) && Reverse(cfg, s, a).Done? && Reverse(cfg, s, a).value.Answered? && !Reverse(cfg, s, a).value.replay
    ensures Returning(s, a, i, cents)
    ensures var orig := s.ledger.journal[i];
      && PartOf(cfg, s.ledger, orig, a.chargeback, ReversedCents(s.ledger.journal, i), cents) == Ok(part)
      && orig.provider.Some? && orig.provider.value.Gateway? && Shape(cfg, orig)
      && var t := ReversalTxn(cfg, orig, i, a, part);
         && Post(s.ledger, t).Posted? && Reverse(cfg, s, a).state.ledger == Post(s.ledger, t).ledger
         && Reverse(cfg, s, a).value == Answered(|s.ledger.journal|, false, part.review)
  {
    hide Post, RevokeFrom, ReversedCents, JournalOk, Shape, PurchasePart, TopupPart, KeptPart;
    BooksOf(cfg, s.ledger);
    i := FindReceipt(s.ledger.journal, a.original).value;
    ShapeOf(cfg, s.ledger, i);
    var orig, done := s.ledger.journal[i], ReversedCents(s.ledger.journal, i);
    cents := CentsNow(a.ask, PaidCents(orig.meta), done);
    part := PartOf(cfg, s.ledger, orig, a.chargeback, done, cents).value;
    var t := ReversalTxn(cfg, orig, i, a, part);
    FreshPosts(s.ledger, t);
    PostEffect(s.ledger, t);
    RevokeElsewhere(s.(ledger := Post(s.ledger, t).ledger), i, if a.chargeback then ForChargeback else ForRefund, 0);
  }

  // ------------------------------------------------------------------ what moves

  /**
   * A reversed purchase takes the bits that part of the payment bought back as far as the buyer still has
   * them, across fx at their value, and returns the cents through clearing. On a refund what could not be
   * taken back is a loss, as far as the cents go, and the rest counts as refunds; a chargeback is all loss.
   */
  lemma ReversePurchaseMoves(cfg: Config, s: State, a: ReverseArgs)
    requires JournalOk(cfg, s.ledger) && Reverse(cfg, s, a).Done? && Reverse(cfg, s, a).value.Answered? && !Reverse(cfg, s, a).value.replay
    requires FindReceipt(s.ledger.journal, a.original).Some?
    requires s.ledger.journal[FindReceipt(s.ledger.journal, a.original).value].meta.PurchaseMeta?
    ensures exists i: nat, cents: int :: Returning(s, a, i, cents) && PurchaseTaken(cfg, s, Reverse(cfg, s, a).state.ledger, a, i, cents)
  {
    hide Reverse, Post, JournalOk, Shape, ValueCents, ReversedCents, Returning, PurchaseTaken;
    BooksOf(cfg, s.ledger);
    var i, cents, part := ReverseSteps(cfg, s, a);
    ReturningAt(s, a, i, cents);
    PurchaseLists(cfg, s, a, i, cents, part);
  }

  lemma ReturningAt(s: State, a: ReverseArgs, i: nat, cents: int)
    requires Returning(s, a, i, cents)
    ensures FindReceipt(s.ledger.journal, a.original) == Some(i) && i < |s.ledger.journal| && PaidCents(s.ledger.journal[i].meta) > 0
    ensures 0 < cents <= PaidCents(s.ledger.journal[i].meta) - ReversedCents(s.ledger.journal, i)
  {
  }

  ghost predicate PurchaseTaken(cfg: Config, s: State, after: Ledger, a: ReverseArgs, i: nat, cents: int)
  {
    && i < |s.ledger.journal| && s.ledger.journal[i].meta.PurchaseMeta? && s.ledger.journal[i].meta.paidCents > 0
    && s.ledger.journal[i].to.Some? && s.ledger.journal[i].provider.Some? && s.ledger.journal[i].provider.value.Gateway?
    && var orig, done := s.ledger.journal[i], ReversedCents(s.ledger.journal, i);
       var buyer, p, bits, paid := CreditOf(orig.to.value), orig.provider.value.provider, orig.meta.bits, orig.meta.paidCents;
       var bought := RoundDiv(bits * (done + cents), paid) - RoundDiv(bits * done, paid);
       var taken := Max(0, Min(Bal(s.ledger, buyer), bought));
       var rest := cents - ValueCents(cfg, taken);
       var lost := if a.chargeback then rest else Min(rest, ValueCents(cfg, bought - taken));
       Posts(s.ledger, after, ReversalRecord(cfg, s, a, i, ReversalMeta(cents, bought, taken)),
             [ Change(buyer, -taken), Change(FX_BITS, taken), Change(FX_CENTS, -ValueCents(cfg, taken)), Change(ClearingOf(p, Cents), cents),
               Change(LOSS, -lost), Change(REFUNDS, -(rest - lost)) ])
  }

  lemma PurchaseLists(cfg: Config, s: State, a: ReverseArgs, i: nat, cents: int, part: Part)
    requires Books(s.ledger) && i < |s.ledger.journal| && s.ledger.journal[i].meta.PurchaseMeta? && s.ledger.journal[i].meta.paidCents > 0
    requires PartOf(cfg, s.ledger, s.ledger.journal[i], a.chargeback, ReversedCents(s.ledger.journal, i), cents) == Ok(part)
    requires Post(s.ledger, ReversalTxn(cfg, s.ledger.journal[i], i, a, part)).Posted?
    ensures PurchaseTaken(cfg, s, Post(s.ledger, ReversalTxn(cfg, s.ledger.journal[i], i, a, part)).ledger, a, i, cents)
  {
    hide Post, Books, ValueCents, ReversedCents, Posts, RoundDiv;
    var orig, done := s.ledger.journal[i], ReversedCents(s.ledger.journal, i);
    var buyer, p, bits, paid := CreditOf(orig.to.value), orig.provider.value.provider, orig.meta.bits, orig.meta.paidCents;
    var bought := RoundDiv(bits * (done + cents), paid) - RoundDiv(bits * done, paid);
    var taken := Max(0, Min(Bal(s.ledger, buyer), bought));
    var rest := cents - ValueCents(cfg, taken);
    var lost := if a.chargeback then rest else Min(rest, ValueCents(cfg, bought - taken));
    LedgerPosts(s.ledger, ReversalTxn(cfg, orig, i, a, part),
      [ Change(buyer, -taken), Change(FX_BITS, taken), Change(FX_CENTS, -ValueCents(cfg, taken)), Change(ClearingOf(p, Cents), cents),
        Change(LOSS, -lost), Change(REFUNDS, -(rest - lost)) ]);
  }

  /**
   * A reversed top-up takes the Balance that part of the payment bought back as far as it is there; the
   * rest of it is the person's debt. The cents go back through clearing, and what they are worth beyond
   * the Balance they bought, the fee, leaves revenue. No other account moves.
   */
  lemma ReverseTopupMoves(cfg: Config, s: State, a: ReverseArgs)
    requires JournalOk(cfg, s.ledger) && TotalsOk(s.ledger)
    requires Reverse(cfg, s, a).Done? && Reverse(cfg, s, a).value.Answered? && !Reverse(cfg, s, a).value.replay
    requires FindReceipt(s.ledger.journal, a.original).Some?
    requires s.ledger.journal[FindReceipt(s.ledger.journal, a.original).value].meta.TopupMeta?
    ensures exists i: nat, cents: int :: Returning(s, a, i, cents) && TopupTaken(cfg, s, Reverse(cfg, s, a).state.ledger, a, i, cents)
  {
    hide Reverse, Post, JournalOk, TotalsOk, Shape, ReversedCents, Returning, TopupTaken;
    BooksOf(cfg, s.ledger);
    var i, cents, part := ReverseSteps(cfg, s, a);
    ReturningAt(s, a, i, cents);
    TopupFacts(cfg, s.ledger.journal[i]);
    DoneNotNegative(s.ledger, i);
    TopupLists(cfg, s, a, i, cents, part);
  }

  ghost predicate TopupTaken(cfg: Config, s: State, after: Ledger, a: ReverseArgs, i: nat, cents: int)
  {
    && i < |s.ledger.journal| && s.ledger.journal[i].meta.TopupMeta? && s.ledger.journal[i].meta.paidCents > 0
    && s.ledger.journal[i].to.Some? && s.ledger.journal[i].provider.Some? && s.ledger.journal[i].provider.value.Gateway?
    && var orig, done := s.ledger.journal[i], ReversedCents(s.ledger.journal, i);
       var p, nano, paid := orig.provider.value.provider, orig.meta.amountNano, orig.meta.paidCents;
       var account := Account(UsdCredit, if orig.meta.project.Some? then ProjectOf(orig.meta.project.value) else Person(orig.to.value), Nano);
       var bought := (nano * (done + cents)) / paid - (nano * done) / paid;
       var taken := Max(0, Min(Bal(s.ledger, account), bought));
       && 0 <= bought <= cents * NANO_PER_CENT
       && Posts(s.ledger, after, ReversalRecord(cfg, s, a, i, TopupReversalMeta(cents, taken, bought - taken)),
                [ Change(ClearingOf(p, Nano), cents * NANO_PER_CENT), Change(account, -taken),
                  Change(RevenueIn(Nano), -(cents * NANO_PER_CENT - bought)), Change(DEBT, -(bought - taken)) ])
  }

  lemma TopupLists(cfg: Config, s: State, a: ReverseArgs, i: nat, cents: int, part: Part)
    requires Books(s.ledger) && i < |s.ledger.journal| && s.ledger.journal[i].meta.TopupMeta? && cents > 0
    requires var m := s.ledger.journal[i].meta; m.paidCents > 0 && 0 < m.amountNano <= m.paidCents * NANO_PER_CENT
    requires ReversedCents(s.ledger.journal, i) >= 0
    requires PartOf(cfg, s.ledger, s.ledger.journal[i], a.chargeback, ReversedCents(s.ledger.journal, i), cents) == Ok(part)
    requires Post(s.ledger, ReversalTxn(cfg, s.ledger.journal[i], i, a, part)).Posted?
    ensures TopupTaken(cfg, s, Post(s.ledger, ReversalTxn(cfg, s.ledger.journal[i], i, a, part)).ledger, a, i, cents)
  {
    hide Post, Books, ReversedCents, Posts;
    var orig, done := s.ledger.journal[i], ReversedCents(s.ledger.journal, i);
    var p, nano, paid := orig.provider.value.provider, orig.meta.amountNano, orig.meta.paidCents;
    NanoPartCovered(nano, paid, done, cents);
    var account := BalanceOf(orig.to.value, orig.meta.project);
    var bought := (nano * (done + cents)) / paid - (nano * done) / paid;
    var taken := Max(0, Min(Bal(s.ledger, account), bought));
    LedgerPosts(s.ledger, ReversalTxn(cfg, orig, i, a, part),
      [ Change(ClearingOf(p, Nano), cents * NANO_PER_CENT), Change(account, -taken),
        Change(RevenueIn(Nano), -(cents * NANO_PER_CENT - bought)), Change(DEBT, -(bought - taken)) ]);
  }

  /**
   * A reversed subscription payment or tip leaves the creator's payable alone: the cents go back through
   * clearing as refunds, or as a loss when they are charged back; nothing moves for a payment made directly.
   */
  lemma ReverseKeptMoves(cfg: Config, s: State, a: ReverseArgs)
    requires JournalOk(cfg, s.ledger) && Reverse(cfg, s, a).Done? && Reverse(cfg, s, a).value.Answered? && !Reverse(cfg, s, a).value.replay
    requires FindReceipt(s.ledger.journal, a.original).Some?
    requires var m := s.ledger.journal[FindReceipt(s.ledger.journal, a.original).value].meta; m.TipMeta? || m.ReceiptPeriodMeta?
    ensures exists i: nat, cents: int ::
      && Returning(s, a, i, cents) && i < |s.ledger.journal|
      && s.ledger.journal[i].provider.Some? && s.ledger.journal[i].provider.value.Gateway?
      && Posts(s.ledger, Reverse(cfg, s, a).state.ledger, ReversalRecord(cfg, s, a, i, ReversalMeta(cents, 0, 0)),
               if s.ledger.journal[i].entries == [] then []
               else [Change(ClearingOf(s.ledger.journal[i].provider.value.provider, Cents), cents), Change(if a.chargeback then LOSS else REFUNDS, -cents)])
  {
    hide Reverse, Post, JournalOk, Shape, ReversedCents, Returning, Posts;
    BooksOf(cfg, s.ledger);
    var i, cents, part := ReverseSteps(cfg, s, a);
    ReturningAt(s, a, i, cents);
    var orig := s.ledger.journal[i];
    var cs := if orig.entries == [] then []
      else [Change(ClearingOf(orig.provider.value.provider, Cents), cents), Change(if a.chargeback then LOSS else REFUNDS, -cents)];
    LedgerPosts(s.ledger, ReversalTxn(cfg, orig, i, a, part), cs);
  }

  /** A reversal is set aside for review when something could not be taken back, or is not taken back at all. */
  lemma ReverseReviews(cfg: Config, s: State, a: ReverseArgs)
    requires JournalOk(cfg, s.ledger) && Reverse(cfg, s, a).Done? && Reverse(cfg, s, a).value.Answered? && !Reverse(cfg, s, a).value.replay
    ensures var r := Reverse(cfg, s, a); var j, j' := s.ledger.journal, r.state.ledger.journal;
      && |j'| == |j| + 1 && r.value.txn == |j|
      && var n := FindReceipt(j, a.original); var m := j'[|j|].meta;
      && n.Some?
      && if j[n.value].meta.PurchaseMeta? then m.ReversalMeta? && r.value.review == (m.clawedBits < m.bitsReversed)
         else if j[n.value].meta.TopupMeta? then m.TopupReversalMeta? && r.value.review == (m.debtNano > 0)
         else r.value.review == (j[n.value].entries != [])
  {
    hide Reverse, Post, JournalOk, Shape, ReversedCents;
    BooksOf(cfg, s.ledger);
    var i, cents, part := ReverseSteps(cfg, s, a);
    PostEffect(s.ledger, ReversalTxn(cfg, s.ledger.journal[i], i, a, part));
    FreshPosts(s.ledger, ReversalTxn(cfg, s.ledger.journal[i], i, a, part));
  }

  // ------------------------------------------------------------------ what is written

  /**
   * A reversal revokes the periods of the payment it reverses and no other; once all of the payment is
   * returned its intent is refunded. Whatever it is asked for, a payment wholly returned has nothing left.
   */
  lemma ReverseWrites(cfg: Config, s: State, a: ReverseArgs)
    requires JournalOk(cfg, s.ledger) && SubsOk(cfg, s)
    requires Reverse(cfg, s, a).Done? && Reverse(cfg, s, a).value.Answered? && !Reverse(cfg, s, a).value.replay
    ensures exists i: nat, cents: int ::
      && Returning(s, a, i, cents) && i < |s.ledger.journal|
      && Reverse(cfg, s, a).value.txn == |s.ledger.journal|
      && ReversalRows(s, Reverse(cfg, s, a).state, a, i, cents)
  {
    hide JournalOk, SubsOk, Post, PartOf, ReversedCents, Shape, RevokeFrom, Returning, IntentIn;
    var i, cents, part := ReverseSteps(cfg, s, a);
    ReturningAt(s, a, i, cents);
    var t := ReversalTxn(cfg, s.ledger.journal[i], i, a, part);
    var s1 := s.(ledger := Post(s.ledger, t).ledger);
    SubsLedger(cfg, s, s1);
    FreshPosts(s.ledger, t);
    AskedNow(s, a, i, cents);
    RevokeFromKeeps(cfg, s1, i, if a.chargeback then ForChargeback else ForRefund, 0);
    RevokeReasons(s1, i, if a.chargeback then ForChargeback else ForRefund, 0);
    RevokeAll(cfg, s1, i, if a.chargeback then ForChargeback else ForRefund);
  }

  lemma AskedNow(s: State, a: ReverseArgs, i: nat, cents: int)
    requires Returning(s, a, i, cents)
    ensures CentsNow(a.ask, PaidCents(s.ledger.journal[i].meta), ReversedCents(s.ledger.journal, i)) == cents
  {
  }

  ghost predicate ReversalRows(s: State, s': State, a: ReverseArgs, i: nat, cents: int)
    requires i < |s.ledger.journal|
  {
    var orig := s.ledger.journal[i];
    var intent := IntentIn(orig.meta);
    && (if orig.ty == Subscription then Revoked(s, s', i, if a.chargeback then ForChargeback else ForRefund) else s'.subs == s.subs && s'.periods == s.periods)
    && s'.intents == (if ReversedCents(s.ledger.journal, i) + cents == PaidCents(orig.meta) && intent.Some? && intent.value < |s.intents|
                      then s.intents[intent.value := s.intents[intent.value].(status := IntentRefunded)] else s.intents)
    && s' == s.(ledger := s'.ledger, subs := s'.subs, periods := s'.periods, intents := s'.intents)
  }

  /** A period of this payment stands for subscription `i`, among those from `k` on. */
  ghost predicate StandsFor(ps: seq<Period>, txn: nat, i: nat, k: nat)
  {
    exists m :: k <= m < |ps| && ps[m].sourceTxn == txn && ps[m].revoked.None? && ps[m].sub == i
  }

  /** What is left of a subscription: it runs on to the last end it has, or expires for good, now when it has none. */
  function LeftOf(row: Sub, now: Millis, last: Option<Millis>): Sub
  {
    if last.Some? && now < last.value then row.(periodEnd := last.value)
    else row.(periodEnd := if last.Some? then last.value else now, status := Expired, autoRenew := false)
  }

  /** The standing periods of the payment carry the reason, and their subscriptions run as far as their other periods do; nothing else changes. */
  ghost predicate Revoked(s: State, s': State, txn: nat, reason: RevokeReason)
  {
    && |s'.periods| == |s.periods|
    && (forall k :: 0 <= k < |s.periods| ==>
          s'.periods[k] == if s.periods[k].sourceTxn == txn && s.periods[k].revoked.None? then s.periods[k].(revoked := Some(reason)) else s.periods[k])
    && |s'.subs| == |s.subs|
    && (forall i :: 0 <= i < |s.subs| ==>
          s'.subs[i] == if StandsFor(s.periods, txn, i, 0) then LeftOf(s.subs[i], s.clock, LastEnd(s'.periods, i)) else s.subs[i])
  }

  /** Revoking one period. */
  lemma RevokedRowLeaves(s: State, k: nat, reason: RevokeReason, i: nat)
    requires k < |s.periods| && s.periods[k].sub < |s.subs| && s.periods[k].revoked.None? && i < |s.subs|
    ensures var s1 := RevokedRow(s, k, reason); var last := LastEnd(s1.periods, i);
      && s1.subs[i] == (if i == s.periods[k].sub then LeftOf(s.subs[i], s.clock, last) else s.subs[i])
      && (last.Some? ==> LastEnd(s.periods, i).Some? && last.value <= LastEnd(s.periods, i).value)
      && (i != s.periods[k].sub ==> last == LastEnd(s.periods, i))
  {
    var p := s.periods[k].(revoked := Some(reason));
    if i == p.sub { LastEndRevoked(s.periods, k, p); } else { LastEndOther(s.periods, k, p, i); }
  }

  lemma StandsNext(ps: seq<Period>, txn: nat, i: nat, k: nat, p: Period)
    requires k < |ps| && p.revoked.Some?
    ensures StandsFor(ps, txn, i, k) <==> StandsFor(ps, txn, i, k + 1) || (ps[k].sourceTxn == txn && ps[k].revoked.None? && ps[k].sub == i)
    ensures StandsFor(ps[k := p], txn, i, k + 1) <==> StandsFor(ps, txn, i, k + 1)
  {
    if m :| k + 1 <= m < |ps| && ps[m].sourceTxn == txn && ps[m].revoked.None? && ps[m].sub == i {
      assert ps[k := p][m] == ps[m];
    }
    var later := ps[k := p];
    if m :| k + 1 <= m < |ps| && later[m].sourceTxn == txn && later[m].revoked.None? && later[m].sub == i {
      assert ps[m] == later[m];
    }
  }

  lemma {:induction false} RevokeLeaves(s: State, txn: nat, reason: RevokeReason, k: nat, i: nat)
    requires (forall m :: 0 <= m < |s.periods| ==> s.periods[m].sub < |s.subs|) && i < |s.subs| && k <= |s.periods|
    ensures var s' := RevokeFrom(s, txn, reason, k); var last := LastEnd(s'.periods, i);
      && |s'.subs| == |s.subs|
      && (last.Some? ==> LastEnd(s.periods, i).Some? && last.value <= LastEnd(s.periods, i).value)
      && (if StandsFor(s.periods, txn, i, k) then s'.subs[i] == LeftOf(s.subs[i], s.clock, last)
          else s'.subs[i] == s.subs[i] && last == LastEnd(s.periods, i))
    decreases |s.periods| - k
  {
    hide LastEnd, StandsFor, RevokedRow;
    if k == |s.periods| {
      NoneStands(s.periods, txn, i);
    } else {
      var p := s.periods[k].(revoked := Some(reason));
      StandsNext(s.periods, txn, i, k, p);
      if s.periods[k].sourceTxn == txn && s.periods[k].revoked.None? {
        var s1 := RevokedRow(s, k, reason);
        RevokedIs(s, k, reason);
        RevokedRowLeaves(s, k, reason, i);
        RevokeLeaves(s1, txn, reason, k + 1, i);
      } else {
        RevokeLeaves(s, txn, reason, k + 1, i);
      }
    }
  }

  lemma NoneStands(ps: seq<Period>, txn: nat, i: nat)
    ensures !StandsFor(ps, txn, i, |ps|)
  {
  }

  lemma RevokedIs(s: State, k: nat, reason: RevokeReason)
    requires k < |s.periods| && s.periods[k].sub < |s.subs|
    ensures var s1 := RevokedRow(s, k, reason);
      s1.periods == s.periods[k := s.periods[k].(revoked := Some(reason))] && |s1.subs| == |s.subs| && s1.clock == s.clock
  {
  }

  lemma {:induction false} RevokeReasons(s: State, txn: nat, reason: RevokeReason, k: nat)
    requires forall m :: 0 <= m < |s.periods| ==> s.periods[m].sub < |s.subs|
    ensures var s' := RevokeFrom(s, txn, reason, k);
      && |s'.periods| == |s.periods|
      && forall m :: 0 <= m < |s.periods| ==>
           s'.periods[m] == if m >= k && s.periods[m].sourceTxn == txn && s.periods[m].revoked.None? then s.periods[m].(revoked := Some(reason)) else s.periods[m]
    decreases |s.periods| - k
  {
    hide LastEnd;
    if k < |s.periods| {
      if s.periods[k].sourceTxn == txn && s.periods[k].revoked.None? {
        RevokeReasons(RevokedRow(s, k, reason), txn, reason, k + 1);
      } else {
        RevokeReasons(s, txn, reason, k + 1);
      }
    }
  }

  lemma RevokeAll(cfg: Config, s: State, txn: nat, reason: RevokeReason)
    requires SubsOk(cfg, s)
    ensures Revoked(s, RevokeFrom(s, txn, reason, 0), txn, reason)
  {
    hide SubsOk, RevokeFrom, StandsFor, LastEnd;
    PeriodSubs(cfg, s);
    RevokeReasons(s, txn, reason, 0);
    var s' := RevokeFrom(s, txn, reason, 0);
    SubsStay(s, txn, reason, 0);
    forall i | 0 <= i < |s.subs|
      ensures s'.subs[i] == if StandsFor(s.periods, txn, i, 0) then LeftOf(s.subs[i], s.clock, LastEnd(s'.periods, i)) else s.subs[i]
    {
      RevokeLeaves(s, txn, reason, 0, i);
    }
  }

  /** Revoking reads and writes the subscriptions and their periods alone. */
  lemma RevokedApart(s: State, s': State, t: State, t': State, txn: nat, reason: RevokeReason)
    requires Revoked(s, s', txn, reason)
    requires t.periods == s.periods && t.subs == s.subs && t.clock == s.clock && t'.periods == s'.periods && t'.subs == s'.subs
    ensures Revoked(t, t', txn, reason)
  {
  }

  lemma {:induction false} SubsStay(s: State, txn: nat, reason: RevokeReason, k: nat)
    ensures |RevokeFrom(s, txn, reason, k).subs| == |s.subs|
    decreases |s.periods| - k
  {
    if k < |s.periods| {
      if s.periods[k].sourceTxn == txn && s.periods[k].revoked.None? && s.periods[k].sub < |s.subs| {
        SubsStay(RevokedRow(s, k, reason), txn, reason, k + 1);
      } else {
        SubsStay(s, txn, reason, k + 1);
      }
    }
  }

  // ------------------------------------------------------------------ a period paid from credit

  /**
   * A refunded credit period returns the whole cost to the member, takes the creator's share back as far
   * as it is there and the rest of the cost from revenue; the missing share is a loss across fx. Its
   * periods are revoked and its intent is refunded.
   */
  lemma RefundPeriodMoves(cfg: Config, s: State, a: PeriodRefundArgs)
    requires JournalOk(cfg, s.ledger) && SubsOk(cfg, s) && RefundPeriod(cfg, s, a).Done?
    ensures var r := RefundPeriod(cfg, s, a);
      if r.value.AlreadyDone? then r.state == s && a.txn < |s.ledger.journal| && HasReversal(s.ledger.journal, a.txn)
      else if r.value.replay then r.state == s && Carries(s, r.value.txn, a.key)
      else
        && a.txn < |s.ledger.journal| && !HasReversal(s.ledger.journal, a.txn) && Granting(s.periods, a.txn, a.sub)
        && var orig := s.ledger.journal[a.txn];
        && orig.meta.CreditPeriodMeta? && orig.from.Some? && orig.to.Some? && r.value.txn == |s.ledger.journal|
        && var cost, share, payable := orig.meta.costBits, orig.meta.shareBits, PayableOf(orig.to.value);
           var taken := Max(0, Min(Bal(s.ledger, payable), share));
           && r.value.review == (share > taken)
           && Posts(s.ledger, r.state.ledger,
                    Txn(Refund, a.key, [], Some(a.txn), orig.to, orig.from, None, None, None, PeriodRefundMeta(cost, taken), cfg.bitsPerUsd),
                    [ Change(CreditOf(orig.from.value), cost), Change(RevenueIn(Bits), -(cost - share)), Change(payable, -taken),
                      Change(FX_BITS, -(share - taken)), Change(FX_CENTS, ValueCents(cfg, share - taken)), Change(LOSS, -ValueCents(cfg, share - taken)) ])
           && Revoked(s, r.state, a.txn, ForRefund)
           && r.state.intents == (if orig.meta.intent.Some? && orig.meta.intent.value < |s.intents|
                then s.intents[orig.meta.intent.value := s.intents[orig.meta.intent.value].(status := IntentRefunded)] else s.intents)
  {
    hide JournalOk, SubsOk, Post, RevokeFrom, ValueCents, HasReversal, Granting, Posts, Shape, Revoked, Books, FindKey;
    var r := RefundPeriod(cfg, s, a);
    if r.value.Answered? && !r.value.replay {
      BooksOf(cfg, s.ledger);
      var orig := s.ledger.journal[a.txn];
      var t := PeriodRefundTxn(cfg, s.ledger, orig, a);
      var cost, share, payable := orig.meta.costBits, orig.meta.shareBits, PayableOf(orig.to.value);
      var taken := Max(0, Min(Bal(s.ledger, payable), share));
      FreshPosts(s.ledger, t);
      LedgerPosts(s.ledger, t,
        [ Change(CreditOf(orig.from.value), cost), Change(RevenueIn(Bits), -(cost - share)), Change(payable, -taken),
          Change(FX_BITS, -(share - taken)), Change(FX_CENTS, ValueCents(cfg, share - taken)), Change(LOSS, -ValueCents(cfg, share - taken)) ]);
      var s1 := s.(ledger := Post(s.ledger, t).ledger);
      PeriodSubs(cfg, s);
      RevokeElsewhere(s1, a.txn, ForRefund, 0);
      RevokeReasons(s1, a.txn, ForRefund, 0);
      SubsLedger(cfg, s, s1);
      RevokeAll(cfg, s1, a.txn, ForRefund);
      RevokedApart(s1, RevokeFrom(s1, a.txn, ForRefund, 0), s, r.state, a.txn, ForRefund);
    }
  }

  lemma PeriodSubs(cfg: Config, s: State)
    requires SubsOk(cfg, s)
    ensures forall m :: 0 <= m < |s.periods| ==> s.periods[m].sub < |s.subs|
  {
  }
}
