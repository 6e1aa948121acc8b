/**
 * Draining the stored events, refunds and chargebacks among them: which payments end up settled does
 * not depend on the order, when each plan is a matter of its own payload and no intent is shared.
 */
module Draining {
  import opened Basics
  import opened Schema
  import opened Journal
  import opened Rates
  import opened Common
  import opened Invariants
  import opened Purchases
  import opened Topups
  import opened Transfers
  import opened Subscriptions
  import opened Reversals
  import opened Growth
  import opened Providers

  /** A plan read from the payload alone, or none when the adapter throws on it. */
  type Reader = (Provider, nat) -> Option<Plan>

  ghost predicate Reads(adapter: Adapter, read: Reader)
  {
    forall e: Event, subs: seq<Sub>, intents: seq<Intent> :: adapter(e, subs, intents) == read(e.provider, e.payload)
  }

  /** A payment: a purchase, a top-up, a subscription period or a tip. */
  predicate Settling(plan: Plan) { plan.PurchasePlan? || plan.TopupPlan? || plan.PeriodPlan? || plan.TipPlan? }

  /** A payload the adapter throws on plans nothing. */
  function PlanOf(read: Reader, s: State, e: nat): Plan
    requires e < |s.events|
  {
    var plan := read(s.events[e].provider, s.events[e].payload);
    if plan.Some? then plan.value else NoPlan
  }

  function IntentOf(plan: Plan): Option<nat>
  {
    match plan
    case PurchasePlan(_, _, _, _, intent) => intent
    case TopupPlan(_, _, intent) => intent
    case PeriodPlan(_, _, _, _, _, _, _, _, _, _, _, intent) => intent
    case _ => None
  }

  function RefOf(read: Reader, s: State, e: nat): ReceiptRef
    requires e < |s.events| && Settling(PlanOf(read, s, e))
  {
    Payment(s.events[e].provider, PlanOf(read, s, e).payment)
  }

  ghost predicate Paid(s: State, ref: ReceiptRef) { FindReceipt(s.ledger.journal, ref).Some? }

  predicate Settles(r: Step<Effect>) { r.Done? && r.value == Settled }

  /** The plan settles on its own: against an empty journal. */
  ghost predicate Good(cfg: Config, read: Reader, s: State, e: nat)
    requires Valid(cfg) && e < |s.events|
  {
    && Settling(PlanOf(read, s, e))
    && Settles(ApplyPlan(cfg, s.(ledger := BLANK), s.events[e].provider, PlanOf(read, s, e), e))
  }

  ghost predicate GoodFor(cfg: Config, read: Reader, s: State, e: nat, ref: ReceiptRef)
    requires Valid(cfg)
  {
    e < |s.events| && Good(cfg, read, s, e) && RefOf(read, s, e) == ref
  }

  /** The intent a settled payment was made for. */
  function IntentPaid(s: State, ref: ReceiptRef): Option<nat>
  {
    var found := FindReceipt(s.ledger.journal, ref);
    if found.Some? then IntentIn(s.ledger.journal[found.value].meta) else None
  }

  function ReversedRef(read: Reader, s: State, e: nat): ReceiptRef
    requires e < |s.events| && PlanOf(read, s, e).ReversePlan?
  {
    Payment(s.events[e].provider, PlanOf(read, s, e).payment)
  }

  /**
   * Unprocessed events, each once. Two payments with one intent are the same payment, and so are the
   * payment a reversal returns and any other one with the intent it was made for.
   */
  ghost predicate Drainable(cfg: Config, read: Reader, s: State, ids: seq<nat>)
  {
    && NoRepeat(ids) && !s.frozen
    && (forall k :: 0 <= k < |ids| ==> ids[k] < |s.events| && s.events[ids[k]].effect.None?)
    && (forall k, m :: 0 <= k < |ids| && 0 <= m < |ids|
          && IntentOf(PlanOf(read, s, ids[k])).Some? && IntentOf(PlanOf(read, s, ids[k])) == IntentOf(PlanOf(read, s, ids[m]))
          ==> RefOf(read, s, ids[k]) == RefOf(read, s, ids[m]))
    && (forall k, m :: 0 <= k < |ids| && 0 <= m < |ids|
          && PlanOf(read, s, ids[k]).ReversePlan? && IntentOf(PlanOf(read, s, ids[m])).Some?
          && IntentPaid(s, ReversedRef(read, s, ids[k])) == IntentOf(PlanOf(read, s, ids[m]))
          ==> RefOf(read, s, ids[m]) == ReversedRef(read, s, ids[k]))
  }

  /** No payment is refused because a balance would leave the exact integers. */
  ghost predicate InRangeThroughout(cfg: Config, adapter: Adapter, read: Reader, s: State, ids: seq<nat>)
    requires Valid(cfg)
    decreases |ids|
  {
    ids == []
    || ((ids[0] < |s.events| && Settling(PlanOf(read, s, ids[0])) ==>
           ApplyPlan(cfg, s, s.events[ids[0]].provider, PlanOf(read, s, ids[0]), ids[0]) != Fail(AmountOverflow))
        && InRangeThroughout(cfg, adapter, read, Process(cfg, adapter, s, ids[0]), ids[1..]))
  }

  // ------------------------------------------------------------------ one posting, alone or after others

  lemma RowsAlone(l: Ledger, es: seq<Entry>)
    requires forall i :: 0 <= i < |es| ==> es[i].account.currency != Nano
    ensures forall i :: 0 <= i < |Merge(es)| && RowFits(l, Merge(es)[i]) ==> RowFits(BLANK, Merge(es)[i])
  {
    MergeSums(es);
    var m := Merge(es);
    forall i | 0 <= i < |m| && RowFits(l, m[i]) ensures RowFits(BLANK, m[i]) {
      assert m[i] in m;
      var y :| y in es && y.account == m[i].account;
    }
  }

  /** Distinct accounts merge to themselves: what fits as an entry fits an empty balance. */
  lemma DistinctAlone(es: seq<Entry>)
    requires Distinct(es) && forall i :: 0 <= i < |es| ==> EntryFits(es[i])
    ensures forall i :: 0 <= i < |Merge(es)| ==> RowFits(BLANK, Merge(es)[i])
  {
    MergeDistinct(es);
    forall i | 0 <= i < |Merge(es)| ensures RowFits(BLANK, Merge(es)[i]) {
      assert Merge(es)[i] in es;
    }
  }

  /** What other transactions are there only matters to the range of the balances. */
  lemma PostAlone(l: Ledger, t: Txn)
    requires FindKey(l.journal, t.key).None? && (t.receipt.Some? ==> FindReceipt(l.journal, t.receipt.value).None?)
    requires Distinct(t.entries) || forall i :: 0 <= i < |t.entries| ==> t.entries[i].account.currency != Nano
    ensures !Post(BLANK, t).Replayed? && !Post(l, t).Replayed?
    ensures Post(BLANK, t).Posted? ==> Post(l, t).Posted? || Post(l, t) == Failed(AmountOverflow)
    ensures Post(l, t).Posted? ==> Post(BLANK, t).Posted?
  {
    if forall i :: 0 <= i < |t.entries| ==> t.entries[i].account.currency != Nano {
      RowsAlone(l, t.entries);
    } else if forall i :: 0 <= i < |t.entries| ==> EntryFits(t.entries[i]) {
      DistinctAlone(t.entries);
    }
  }

  /** A payment that is fresh settles on its own books just when it does on an empty one, range refusals aside. */
  ghost predicate SameAlone(r: Step<Effect>, g: Step<Effect>)
  {
    (Settles(g) ==> Settles(r) || r == Fail(AmountOverflow)) && (Settles(r) ==> Settles(g))
  }

  /** Whether a fresh payment's plan settles does not depend on the journal, range refusals aside. */
  lemma ApplyAlone(cfg: Config, s: State, p: Provider, plan: Plan, e: nat)
    requires Valid(cfg) && Settling(plan)
    requires FindKey(s.ledger.journal, Delivered(e)).None? && FindReceipt(s.ledger.journal, Payment(p, plan.payment)).None?
    ensures SameAlone(ApplyPlan(cfg, s, p, plan, e), ApplyPlan(cfg, s.(ledger := BLANK), p, plan, e))
  {
    hide Settle, SettleTopup, Pay, TipFromReceipt, FindKey, FindReceipt, Partition, ValidTiers;
    match plan {
      case PurchasePlan(_, _, _, _, _) => PurchaseAlone(cfg, s, SettleArgsOf(p, plan, e));
      case TopupPlan(_, _, _) => TopupAlone(cfg, s, TopupArgsOf(p, plan, e));
      case PeriodPlan(_, _, _, _, _, _, _, _, _, _, _, _) => PeriodAlone(cfg, s, PayArgsOf(p, plan, e));
      case TipPlan(_, _, _, _) => TipAlone(cfg, s, TipArgsOf(p, plan, e));
      case _ =>
    }
  }

  lemma PurchaseAlone(cfg: Config, s: State, a: SettleArgs)
    requires ValidTiers(cfg)
    requires FindKey(s.ledger.journal, a.key).None? && FindReceipt(s.ledger.journal, Payment(a.provider, a.payment)).None?
    ensures var r := Settle(cfg, s, a); var g := Settle(cfg, s.(ledger := BLANK), a);
      && (g.Done? && !g.value.replay ==> (r.Done? && !r.value.replay) || r == Fail(AmountOverflow))
      && (r.Done? && !r.value.replay ==> g.Done? && !g.value.replay)
  {
    hide Post, ValidTiers, ChosenBits, ValueCents;
    if a.intent.None? || a.intent.value < |s.intents| {
      var intent := if a.intent.Some? then Some(s.intents[a.intent.value]) else None;
      var subject := if intent.Some? then Some(intent.value.subject) else a.subject;
      var bits := ChosenBits(cfg, intent, a);
      if subject.Some? && bits.Some? { PostAlone(s.ledger, PurchaseTxn(cfg, a, subject.value, bits.value)); }
    }
  }

  lemma TopupAlone(cfg: Config, s: State, a: TopupArgs)
    requires FindKey(s.ledger.journal, a.key).None? && FindReceipt(s.ledger.journal, Payment(a.provider, a.payment)).None?
    ensures var r := SettleTopup(cfg, s, a); var g := SettleTopup(cfg, s.(ledger := BLANK), a);
      && (g.Done? && g.value.Credited? && !g.value.replay ==> (r.Done? && r.value.Credited? && !r.value.replay) || r == Fail(AmountOverflow))
      && (r.Done? && r.value.Credited? && !r.value.replay ==> g.Done? && g.value.Credited? && !g.value.replay)
  {
    hide Post;
    if a.intent.Some? && a.intent.value < |s.intents| {
      PostAlone(s.ledger, TopupTxn(a, s.intents[a.intent.value]));
    }
  }

  lemma PeriodAlone(cfg: Config, s: State, a: PayArgs)
    requires a.funding.FromReceipt?
    requires FindKey(s.ledger.journal, a.key).None? && FindReceipt(s.ledger.journal, Payment(a.funding.provider, a.funding.payment)).None?
    ensures var r := Pay(cfg, s, a); var g := Pay(cfg, s.(ledger := BLANK), a);
      && (g.Done? && !g.value.replay ==> (r.Done? && !r.value.replay) || r == Fail(AmountOverflow))
      && (r.Done? && !r.value.replay ==> g.Done? && !g.value.replay)
  {
    ReceiptFunds(cfg, s, a);
    hide Post, PriceOf, FundsOf, Granted, FundsByReceipt;
    var f := FundsByReceipt(cfg, a);
    if f.Ok? {
      ReceiptFundsBits(cfg, a);
      PostAlone(s.ledger, PeriodTxn(cfg, a, f.value));
    }
  }

  /** What a receipt pays for does not depend on the store. */
  function FundsByReceipt(cfg: Config, a: PayArgs): Result<Funds, Error>
    requires a.funding.FromReceipt?
  {
    FundsOf(cfg, EMPTY, a, 0)
  }

  lemma ReceiptFunds(cfg: Config, s: State, a: PayArgs)
    requires a.funding.FromReceipt?
    ensures forall l: Ledger, price: int :: FundsOf(cfg, s.(ledger := l), a, price) == FundsByReceipt(cfg, a)
    ensures forall price: int :: FundsOf(cfg, s, a, price) == FundsByReceipt(cfg, a)
    ensures forall l: Ledger :: PriceOf(cfg, s.(ledger := l), a, Prior(s.(ledger := l), a)) == PriceOf(cfg, s, a, Prior(s, a))
  {
    hide ReceiptEntries, ValueCents, SubShareBits;
  }

  lemma ReceiptFundsBits(cfg: Config, a: PayArgs)
    requires a.funding.FromReceipt? && FundsByReceipt(cfg, a).Ok?
    ensures var es := FundsByReceipt(cfg, a).value.entries;
      forall i :: 0 <= i < |es| ==> es[i].account.currency != Nano
  {
    hide ValueCents, SubShareBits;
  }

  lemma TipAlone(cfg: Config, s: State, a: TipArgs)
    requires FindKey(s.ledger.journal, a.key).None? && FindReceipt(s.ledger.journal, Payment(a.provider, a.payment)).None?
    ensures var r := TipFromReceipt(cfg, s, a); var g := TipFromReceipt(cfg, s.(ledger := BLANK), a);
      && (g.Done? && !g.value.replay ==> (r.Done? && !r.value.replay) || r == Fail(AmountOverflow))
      && (r.Done? && !r.value.replay ==> g.Done? && !g.value.replay)
  {
    hide Post, ValueCents, BitsForValueCents;
    PostAlone(s.ledger, TipTxn(cfg, a));
  }

  // ------------------------------------------------------------------ one event

  /** The intent a plan may change: a payment's own, or the one the reversed payment was made for. */
  function IntentMoved(s: State, p: Provider, plan: Plan): Option<nat>
  {
    if plan.ReversePlan? then IntentPaid(s, Payment(p, plan.payment)) else IntentOf(plan)
  }

  lemma ApplyIntents(cfg: Config, s: State, p: Provider, plan: Plan, e: nat)
    requires Valid(cfg) && ApplyPlan(cfg, s, p, plan, e).Done?
    ensures var r := ApplyPlan(cfg, s, p, plan, e);
      && OnlyIntent(s, r.state, IntentMoved(s, p, plan))
      && (r.value != Settled ==> r.state.intents == s.intents)
  {
    hide Settle, SettleTopup, Pay, TipFromReceipt, Reverse, SetStatus, IntentPaid, Partition, ValidTiers;
    match plan {
      case PurchasePlan(_, _, _, _, _) => PurchaseIntents(cfg, s, SettleArgsOf(p, plan, e));
      case TopupPlan(_, _, _) => TopupIntents(cfg, s, TopupArgsOf(p, plan, e));
      case PeriodPlan(_, _, _, _, _, _, _, _, _, _, _, _) => PeriodIntents(cfg, s, PayArgsOf(p, plan, e));
      case TipPlan(_, _, _, _) => TipIntents(cfg, s, TipArgsOf(p, plan, e));
      case EndPlan(sub) => EndIntents(s, sub);
      case ReversePlan(_, _, _, _) => ReverseIntents(cfg, s, ReverseArgsOf(p, plan, e));
      case _ =>
    }
  }

  /** At most one intent may differ. */
  ghost predicate OnlyIntent(s: State, s': State, intent: Option<nat>)
  {
    && |s'.intents| == |s.intents|
    && forall i: nat :: i < |s.intents| && intent != Some(i) ==> s'.intents[i] == s.intents[i]
  }

  lemma PurchaseIntents(cfg: Config, s: State, a: SettleArgs)
    requires ValidTiers(cfg) && Settle(cfg, s, a).Done?
    ensures OnlyIntent(s, Settle(cfg, s, a).state, a.intent)
    ensures Settle(cfg, s, a).value.replay ==> Settle(cfg, s, a).state.intents == s.intents
  {
    hide Post, ValidTiers, ChosenBits, PurchaseTxn, ValueCents, FindReceipt;
  }

  lemma TopupIntents(cfg: Config, s: State, a: TopupArgs)
    requires SettleTopup(cfg, s, a).Done?
    ensures OnlyIntent(s, SettleTopup(cfg, s, a).state, a.intent)
    ensures SettleTopup(cfg, s, a).value.Skipped? || SettleTopup(cfg, s, a).value.replay ==> SettleTopup(cfg, s, a).state.intents == s.intents
  {
    hide SettleTopup, Post;
    TopupPosts(cfg, s, a);
  }

  lemma PeriodIntents(cfg: Config, s: State, a: PayArgs)
    requires Pay(cfg, s, a).Done?
    ensures OnlyIntent(s, Pay(cfg, s, a).state, a.intent)
    ensures Pay(cfg, s, a).value.replay ==> Pay(cfg, s, a).state.intents == s.intents
  {
    hide Post, PriceOf, FundsOf, FindKey, FindReceipt;
  }

  lemma TipIntents(cfg: Config, s: State, a: TipArgs)
    requires TipFromReceipt(cfg, s, a).Done?
    ensures TipFromReceipt(cfg, s, a).state.intents == s.intents
  {
    hide Post, TipTxn, FindReceipt;
  }

  lemma ReverseIntents(cfg: Config, s: State, a: ReverseArgs)
    requires Reverse(cfg, s, a).Done?
    ensures OnlyIntent(s, Reverse(cfg, s, a).state, IntentPaid(s, a.original))
    ensures Reverse(cfg, s, a).value.AlreadyDone? || Reverse(cfg, s, a).value.replay ==> Reverse(cfg, s, a).state.intents == s.intents
  {
    hide Post, PartOf, RevokeFrom, CentsNow, ReversedCents, KnownReversal;
    var found := FindReceipt(s.ledger.journal, a.original);
    if found.Some? {
      forall l: Ledger { RevokeElsewhere(s.(ledger := l), found.value, if a.chargeback then ForChargeback else ForRefund, 0); }
    }
  }

  lemma EndIntents(s: State, sub: nat)
    ensures SetStatus(s, sub, Canceled, None).intents == s.intents && SetStatus(s, sub, Canceled, None).ledger == s.ledger
  {
  }

  /** Whether a plan is good is read from its own intent. */
  lemma GoodReads(cfg: Config, read: Reader, s: State, s': State, e: nat)
    requires Valid(cfg) && e < |s.events| && e < |s'.events|
    requires s'.events[e].provider == s.events[e].provider && s'.events[e].payload == s.events[e].payload
    requires |s'.intents| == |s.intents|
    requires var i := IntentOf(PlanOf(read, s, e)); i.Some? && i.value < |s.intents| ==> s'.intents[i.value] == s.intents[i.value]
    ensures Good(cfg, read, s', e) <==> Good(cfg, read, s, e)
  {
    hide Settle, SettleTopup, Pay, TipFromReceipt, Partition, ValidTiers;
    var p, plan := s.events[e].provider, PlanOf(read, s, e);
    var b, b' := s.(ledger := BLANK), s'.(ledger := BLANK);
    match plan {
      case PurchasePlan(_, _, _, _, _) => PurchaseReads(cfg, b, b', SettleArgsOf(p, plan, e));
      case TopupPlan(_, _, _) => TopupReads(cfg, b, b', TopupArgsOf(p, plan, e));
      case PeriodPlan(_, _, _, _, _, _, _, _, _, _, _, _) => PeriodReads(cfg, b, b', PayArgsOf(p, plan, e));
      case TipPlan(_, _, _, _) => TipReads(cfg, b, b', TipArgsOf(p, plan, e));
      case _ =>
    }
  }

  ghost predicate SameIntent(s: State, s': State, intent: Option<nat>)
  {
    && |s'.intents| == |s.intents| && s'.ledger == s.ledger
    && (intent.Some? && intent.value < |s.intents| ==> s'.intents[intent.value] == s.intents[intent.value])
  }

  lemma PurchaseReads(cfg: Config, s: State, s': State, a: SettleArgs)
    requires ValidTiers(cfg) && SameIntent(s, s', a.intent)
    ensures Settle(cfg, s, a).Done? <==> Settle(cfg, s', a).Done?
    ensures Settle(cfg, s, a).Done? ==> Settle(cfg, s, a).value == Settle(cfg, s', a).value
  {
    hide Post, ValidTiers, ChosenBits, PurchaseTxn, ValueCents, FindReceipt;
  }

  lemma TopupReads(cfg: Config, s: State, s': State, a: TopupArgs)
    requires SameIntent(s, s', a.intent)
    ensures SettleTopup(cfg, s, a).Done? <==> SettleTopup(cfg, s', a).Done?
    ensures SettleTopup(cfg, s, a).Done? ==> SettleTopup(cfg, s, a).value == SettleTopup(cfg, s', a).value
  {
    hide Post, TopupTxn, FindReceipt, FindKey;
  }

  /** The price of a period paid by receipt is never refused for what the store holds. */
  lemma PriceReads(cfg: Config, s: State, s': State, a: PayArgs)
    requires a.funding.FromReceipt?
    ensures PriceOf(cfg, s, a, Prior(s, a)).Ok? <==> PriceOf(cfg, s', a, Prior(s', a)).Ok?
    ensures PriceOf(cfg, s, a, Prior(s, a)).Err? ==> PriceOf(cfg, s, a, Prior(s, a)) == PriceOf(cfg, s', a, Prior(s', a))
  {
  }

  lemma PeriodReads(cfg: Config, s: State, s': State, a: PayArgs)
    requires a.funding.FromReceipt? && SameIntent(s, s', a.intent)
    ensures Pay(cfg, s, a).Done? <==> Pay(cfg, s', a).Done?
    ensures Pay(cfg, s, a).Done? ==> Pay(cfg, s, a).value == Pay(cfg, s', a).value
  {
    PriceReads(cfg, s, s', a);
    ReceiptFunds(cfg, s, a);
    ReceiptFunds(cfg, s', a);
    hide Post, PriceOf, FundsOf, Granted, FindKey, FindReceipt, FundsByReceipt;
  }

  lemma TipReads(cfg: Config, s: State, s': State, a: TipArgs)
    requires s'.ledger == s.ledger
    ensures TipFromReceipt(cfg, s, a).Done? <==> TipFromReceipt(cfg, s', a).Done?
    ensures TipFromReceipt(cfg, s, a).Done? ==> TipFromReceipt(cfg, s, a).value == TipFromReceipt(cfg, s', a).value
  {
    hide Post, TipTxn, FindReceipt;
  }

  /** One transaction more: the receipts found before are found at the same place. */
  lemma ReceiptGrows(s: State, s': State)
    requires |s'.ledger.journal| == |s.ledger.journal| + 1 && s'.ledger.journal[..|s.ledger.journal|] == s.ledger.journal
    ensures var j, j' := s.ledger.journal, s'.ledger.journal;
      forall x :: FindReceipt(j', x) ==
        if FindReceipt(j, x).Some? then FindReceipt(j, x) else if j'[|j|].receipt == Some(x) then Some(|j|) else None
  {
  }

  /** What a payment's plan may leave on the journal: its own receipt, with its own intent. */
  ghost predicate PaysOwn(s: State, s': State, ref: ReceiptRef, intent: Option<nat>)
  {
    forall x: ReceiptRef :: x.Payment? ==>
      && (Paid(s', x) <==> Paid(s, x) || x == ref)
      && IntentPaid(s', x) == if Paid(s, x) then IntentPaid(s, x) else if x == ref then intent else None
  }

  ghost predicate PaysNone(s: State, s': State)
  {
    forall x: ReceiptRef :: x.Payment? ==> (Paid(s', x) <==> Paid(s, x)) && IntentPaid(s', x) == IntentPaid(s, x)
  }

  lemma OwnReceipt(s: State, s': State, ref: ReceiptRef, intent: Option<nat>)
    requires |s'.ledger.journal| == |s.ledger.journal| + 1 && s'.ledger.journal[..|s.ledger.journal|] == s.ledger.journal
    requires s'.ledger.journal[|s.ledger.journal|].receipt == Some(ref) && IntentIn(s'.ledger.journal[|s.ledger.journal|].meta) == intent
    requires !Paid(s, ref)
    ensures PaysOwn(s, s', ref, intent)
  {
    hide FindReceipt, IntentIn;
    ReceiptGrows(s, s');
    assert forall k :: 0 <= k < |s.ledger.journal| ==> s'.ledger.journal[k] == s.ledger.journal[k];
  }

  lemma NoReceipt(s: State, s': State)
    requires |s'.ledger.journal| == |s.ledger.journal| + 1 && s'.ledger.journal[..|s.ledger.journal|] == s.ledger.journal
    requires s'.ledger.journal[|s.ledger.journal|].receipt.Some? ==> !s'.ledger.journal[|s.ledger.journal|].receipt.value.Payment?
    ensures PaysNone(s, s')
  {
    hide FindReceipt, IntentIn;
    ReceiptGrows(s, s');
    assert forall k :: 0 <= k < |s.ledger.journal| ==> s'.ledger.journal[k] == s.ledger.journal[k];
  }

  lemma SameJournal(s: State, s': State)
    requires s'.ledger == s.ledger
    ensures PaysNone(s, s')
  {
  }

  // What the transaction of a payment records of its intent.

  lemma PurchaseNotes(cfg: Config, s: State, a: SettleArgs)
    requires ValidTiers(cfg) && JournalOk(cfg, s.ledger) && FindKey(s.ledger.journal, a.key).None?
    requires Settle(cfg, s, a).Done? && !Settle(cfg, s, a).value.replay
    ensures IntentIn(LastMeta(Settle(cfg, s, a).state)) == a.intent
  {
    hide Post, ValidTiers, ChosenBits, ReceiptEntries, JournalOk, ValueCents;
    var intent := if a.intent.Some? then Some(s.intents[a.intent.value]) else None;
    var subject := if intent.Some? then Some(intent.value.subject) else a.subject;
    var t := PurchaseTxn(cfg, a, subject.value, ChosenBits(cfg, intent, a).value);
    FreshPosts(s.ledger, t);
    LastPosted(cfg, s, t);
  }

  lemma TopupNotes(cfg: Config, s: State, a: TopupArgs)
    requires JournalOk(cfg, s.ledger) && SettleTopup(cfg, s, a).Done?
    requires SettleTopup(cfg, s, a).value.Credited? && !SettleTopup(cfg, s, a).value.replay
    ensures IntentIn(LastMeta(SettleTopup(cfg, s, a).state)) == a.intent
  {
    hide SettleTopup, Post, JournalOk;
    TopupPosts(cfg, s, a);
    LastPosted(cfg, s, TopupTxn(a, s.intents[a.intent.value]));
  }

  lemma PeriodNotes(cfg: Config, s: State, a: PayArgs)
    requires JournalOk(cfg, s.ledger) && Pay(cfg, s, a).Done? && !Pay(cfg, s, a).value.replay && a.funding.FromReceipt?
    ensures IntentIn(LastMeta(Pay(cfg, s, a).state)) == a.intent
  {
    ReceiptIntent(cfg, s, a);
    hide Post, JournalOk, PriceOf, FundsOf, Granted;
    var price := PriceOf(cfg, s, a, Prior(s, a)).value;
    var t := PeriodTxn(cfg, a, FundsOf(cfg, s, a, price).value);
    FreshPosts(s.ledger, t);
    LastPosted(cfg, s, t);
    GrantedFrame(cfg, s.(ledger := Post(s.ledger, t).ledger), a, price, Post(s.ledger, t).txn);
  }

  lemma ReceiptIntent(cfg: Config, s: State, a: PayArgs)
    requires a.funding.FromReceipt?
    ensures forall price: int :: FundsOf(cfg, s, a, price).Ok? ==> IntentIn(FundsOf(cfg, s, a, price).value.meta) == a.intent
  {
    hide ReceiptEntries, ValueCents, SubShareBits;
  }

  lemma TipNotes(cfg: Config, s: State, a: TipArgs)
    requires JournalOk(cfg, s.ledger) && FindKey(s.ledger.journal, a.key).None?
    requires TipFromReceipt(cfg, s, a).Done? && !TipFromReceipt(cfg, s, a).value.replay
    ensures IntentIn(LastMeta(TipFromReceipt(cfg, s, a).state)) == None
  {
    hide Post, ReceiptEntries, JournalOk, ValueCents, BitsForValueCents;
    FreshPosts(s.ledger, TipTxn(cfg, a));
    LastPosted(cfg, s, TipTxn(cfg, a));
  }

  ghost function LastMeta(s: State): Meta
  {
    if s.ledger.journal == [] then NoMeta else s.ledger.journal[|s.ledger.journal| - 1].meta
  }

  lemma LastPosted(cfg: Config, s: State, t: Txn)
    requires JournalOk(cfg, s.ledger) && Post(s.ledger, t).Posted?
    ensures LastMeta(s.(ledger := Post(s.ledger, t).ledger)) == t.meta
  {
    hide Post, JournalOk;
    BooksOf(cfg, s.ledger);
    var stored := Appended(s.ledger, t);
  }

  /** The receipt a settling plan writes. */
  lemma ApplyPays(cfg: Config, s: State, p: Provider, plan: Plan, e: nat)
    requires Valid(cfg) && JournalOk(cfg, s.ledger) && FindKey(s.ledger.journal, Delivered(e)).None?
    requires Settling(plan) && Settles(ApplyPlan(cfg, s, p, plan, e)) && !Paid(s, Payment(p, plan.payment))
    ensures PaysOwn(s, ApplyPlan(cfg, s, p, plan, e).state, Payment(p, plan.payment), IntentOf(plan))
  {
    hide Settle, SettleTopup, Pay, TipFromReceipt, JournalOk, Partition, ValidTiers, FindKey, Paid, IntentIn, PaysOwn;
    match plan {
      case PurchasePlan(_, _, _, _, _) =>
        SettleGrows(cfg, s, SettleArgsOf(p, plan, e));
        PurchaseNotes(cfg, s, SettleArgsOf(p, plan, e));
      case TopupPlan(_, _, _) =>
        TopupGrows(cfg, s, TopupArgsOf(p, plan, e));
        TopupNotes(cfg, s, TopupArgsOf(p, plan, e));
      case PeriodPlan(_, _, _, _, _, _, _, _, _, _, _, _) =>
        PayGrows(cfg, s, PayArgsOf(p, plan, e));
        PeriodNotes(cfg, s, PayArgsOf(p, plan, e));
      case TipPlan(_, _, _, _) =>
        TipGrows(cfg, s, TipArgsOf(p, plan, e));
        TipNotes(cfg, s, TipArgsOf(p, plan, e));
      case _ =>
    }
    OwnReceipt(s, ApplyPlan(cfg, s, p, plan, e).state, Payment(p, plan.payment), IntentOf(plan));
  }

  /** A payment's plan that does not settle, an event that posts nothing and a reversal pay nothing. */
  lemma ApplyPaysNone(cfg: Config, s: State, p: Provider, plan: Plan, e: nat)
    requires Valid(cfg) && JournalOk(cfg, s.ledger) && FindKey(s.ledger.journal, Delivered(e)).None?
    requires ApplyPlan(cfg, s, p, plan, e).Done? && (Settling(plan) ==> ApplyPlan(cfg, s, p, plan, e).value != Settled)
    ensures PaysNone(s, ApplyPlan(cfg, s, p, plan, e).state)
  {
    hide Settle, SettleTopup, Pay, TipFromReceipt, Reverse, SetStatus, JournalOk, Partition, ValidTiers, FindKey, PaysNone;
    var s' := ApplyPlan(cfg, s, p, plan, e).state;
    match plan {
      case PurchasePlan(_, _, _, _, _) => SettleGrows(cfg, s, SettleArgsOf(p, plan, e));
      case TopupPlan(_, _, _) => TopupGrows(cfg, s, TopupArgsOf(p, plan, e));
      case PeriodPlan(_, _, _, _, _, _, _, _, _, _, _, _) => PayGrows(cfg, s, PayArgsOf(p, plan, e));
      case TipPlan(_, _, _, _) => TipGrows(cfg, s, TipArgsOf(p, plan, e));
      case EndPlan(sub) => EndIntents(s, sub);
      case ReversePlan(_, _, _, _) => ReverseGrows(cfg, s, ReverseArgsOf(p, plan, e), p);
      case _ =>
    }
    if s'.ledger == s.ledger { SameJournal(s, s'); } else { NoReceipt(s, s'); }
  }

  /** A payment that is already settled is not settled again, under a key that was never used. */
  lemma PaidBefore(cfg: Config, s: State, p: Provider, plan: Plan, e: nat)
    requires Valid(cfg) && Settling(plan) && FindReceipt(s.ledger.journal, Payment(p, plan.payment)).Some?
    ensures !Settles(ApplyPlan(cfg, s, p, plan, e))
  {
    hide Post, PriceOf, FundsOf, Granted, ValidTiers, Partition, ChosenBits, PurchaseTxn, TopupTxn, TipTxn;
  }

  /** A fresh payment's plan settles exactly when it is good and its payment is not settled yet. */
  lemma PlanSettles(cfg: Config, read: Reader, s: State, e: nat)
    requires Valid(cfg) && e < |s.events| && FindKey(s.ledger.journal, Delivered(e)).None? && Settling(PlanOf(read, s, e))
    requires ApplyPlan(cfg, s, s.events[e].provider, PlanOf(read, s, e), e) != Fail(AmountOverflow)
    ensures Settles(ApplyPlan(cfg, s, s.events[e].provider, PlanOf(read, s, e), e))
      <==> Good(cfg, read, s, e) && !Paid(s, RefOf(read, s, e))
  {
    hide ApplyPlan, FindKey, FindReceipt, Partition, ValidTiers;
    var p, plan := s.events[e].provider, PlanOf(read, s, e);
    if FindReceipt(s.ledger.journal, Payment(p, plan.payment)).Some? {
      PaidBefore(cfg, s, p, plan, e);
    } else {
      ApplyAlone(cfg, s, p, plan, e);
    }
  }

  /** What one event pays: its own payment when its plan is good, and otherwise nothing. */
  ghost predicate PaysGood(cfg: Config, read: Reader, s: State, e: nat, s': State)
    requires Valid(cfg) && e < |s.events|
  {
    forall x: ReceiptRef :: x.Payment? ==>
      && (Paid(s', x) <==> Paid(s, x) || GoodFor(cfg, read, s, e, x))
      && IntentPaid(s', x) == if Paid(s, x) || !GoodFor(cfg, read, s, e, x) then IntentPaid(s, x) else IntentOf(PlanOf(read, s, e))
  }

  lemma PlanPays(cfg: Config, read: Reader, s: State, e: nat)
    requires Valid(cfg) && JournalOk(cfg, s.ledger) && e < |s.events| && FindKey(s.ledger.journal, Delivered(e)).None?
    requires Settling(PlanOf(read, s, e)) ==> ApplyPlan(cfg, s, s.events[e].provider, PlanOf(read, s, e), e) != Fail(AmountOverflow)
    ensures var r := ApplyPlan(cfg, s, s.events[e].provider, PlanOf(read, s, e), e);
      PaysGood(cfg, read, s, e, if r.Done? then r.state else s)
  {
    hide ApplyPlan, JournalOk, Partition, ValidTiers, FindKey, IntentPaid;
    var p, plan := s.events[e].provider, PlanOf(read, s, e);
    var r := ApplyPlan(cfg, s, p, plan, e);
    if Settling(plan) { PlanSettles(cfg, read, s, e); } else { NotGood(cfg, read, s, e); }
    hide Good;
    if r.Done? && Settling(plan) && r.value == Settled {
      ApplyPays(cfg, s, p, plan, e);
      Unpaid(s);
    } else if r.Done? {
      ApplyPaysNone(cfg, s, p, plan, e);
    }
  }

  lemma Unpaid(s: State)
    ensures forall x :: !Paid(s, x) ==> IntentPaid(s, x) == None
  {
  }

  lemma NotGood(cfg: Config, read: Reader, s: State, e: nat)
    requires Valid(cfg) && e < |s.events| && !Settling(PlanOf(read, s, e))
    ensures !Good(cfg, read, s, e)
  {
  }

  /** The payments whose intent an event changed are settled, or they are not among the drained ones. */
  ghost predicate StepsTo(cfg: Config, read: Reader, s: State, e: nat, s': State)
    requires Valid(cfg) && e < |s.events|
  {
    && |s'.events| == |s.events| && !s'.frozen
    && (forall k :: 0 <= k < |s.events| && k != e ==> s'.events[k] == s.events[k])
    && OnlyIntent(s, s', IntentMoved(s, s.events[e].provider, PlanOf(read, s, e)))
    && (s'.intents != s.intents && Settling(PlanOf(read, s, e)) ==> Paid(s', RefOf(read, s, e)))
    && PaysGood(cfg, read, s, e, s')
  }

  /** One event of the drain: it pays its own reference when its plan is good, and nothing else. */
  lemma StepPays(cfg: Config, adapter: Adapter, read: Reader, s: State, e: nat)
    requires Valid(cfg) && Inv(cfg, s) && EventsOk(s) && Reads(adapter, read) && !s.frozen
    requires e < |s.events| && s.events[e].effect.None?
    requires Settling(PlanOf(read, s, e)) ==> ApplyPlan(cfg, s, s.events[e].provider, PlanOf(read, s, e), e) != Fail(AmountOverflow)
    ensures StepsTo(cfg, read, s, e, Process(cfg, adapter, s, e))
  {
    hide ApplyPlan, Inv, Partition, ValidTiers, EventsOk, FindKey, Good, GoodFor, Paid, IntentPaid;
    var p, plan := s.events[e].provider, PlanOf(read, s, e);
    assert adapter(s.events[e], s.subs, s.intents) == read(p, s.events[e].payload);
    hide Reads;
    InvJournal(cfg, s);
    EventIsFresh(cfg, s, e);
    PlanPays(cfg, read, s, e);
    var r := ApplyPlan(cfg, s, p, plan, e);
    var s' := Process(cfg, adapter, s, e);
    if read(p, s.events[e].payload).None? {
      ThrownPays(cfg, read, s, e);
      PaidReads(cfg, read, s, e, s, s');
    } else if r.Done? {
      EventsUnapplied(cfg, s, p, plan, e);
      ApplyIntents(cfg, s, p, plan, e);
      PaidReads(cfg, read, s, e, r.state, s');
      if Settling(plan) && r.value == Settled { SettledPays(cfg, read, s, e); }
    } else {
      PaidReads(cfg, read, s, e, s, s');
    }
  }

  lemma PaidReads(cfg: Config, read: Reader, s: State, e: nat, s1: State, s2: State)
    requires Valid(cfg) && e < |s.events| && s2.ledger == s1.ledger && PaysGood(cfg, read, s, e, s1)
    ensures PaysGood(cfg, read, s, e, s2)
    ensures forall x :: Paid(s2, x) == Paid(s1, x)
  {
    hide GoodFor;
  }

  lemma ThrownPays(cfg: Config, read: Reader, s: State, e: nat)
    requires Valid(cfg) && e < |s.events| && !Settling(PlanOf(read, s, e))
    ensures PaysGood(cfg, read, s, e, s)
  {
    NotGood(cfg, read, s, e);
    hide Good, Paid, IntentPaid;
  }

  lemma SettledPays(cfg: Config, read: Reader, s: State, e: nat)
    requires Valid(cfg) && JournalOk(cfg, s.ledger) && e < |s.events| && FindKey(s.ledger.journal, Delivered(e)).None?
    requires Settling(PlanOf(read, s, e)) && Settles(ApplyPlan(cfg, s, s.events[e].provider, PlanOf(read, s, e), e))
    ensures Paid(ApplyPlan(cfg, s, s.events[e].provider, PlanOf(read, s, e), e).state, RefOf(read, s, e))
  {
    hide ApplyPlan, JournalOk, Partition, ValidTiers, FindKey, IntentPaid, Good;
    PlanSettles(cfg, read, s, e);
    ApplyPays(cfg, s, s.events[e].provider, PlanOf(read, s, e), e);
  }

  // ------------------------------------------------------------------ the whole drain

  ghost predicate SomeGood(cfg: Config, read: Reader, s: State, ids: seq<nat>, ref: ReceiptRef)
    requires Valid(cfg)
  {
    exists e :: e in ids && GoodFor(cfg, read, s, e, ref)
  }

  /** The payments settled by a drain: those settled before, and those of the good plans. */
  lemma {:induction false} DrainPays(cfg: Config, adapter: Adapter, read: Reader, s: State, ids: seq<nat>, ref: ReceiptRef)
    requires Valid(cfg) && Inv(cfg, s) && EventsOk(s) && Reads(adapter, read) && Drainable(cfg, read, s, ids)
    requires InRangeThroughout(cfg, adapter, read, s, ids) && ref.Payment?
    ensures Paid(Drain(cfg, adapter, s, ids), ref) <==> Paid(s, ref) || SomeGood(cfg, read, s, ids, ref)
    decreases |ids|
  {
    hide Inv, EventsOk, Process, Partition, ValidTiers, ApplyPlan, Paid, Reads, GoodFor, StepsTo;
    if ids != [] {
      var e := ids[0];
      StepPays(cfg, adapter, read, s, e);
      ProcessKeeps(cfg, adapter, s, e);
      var s' := Process(cfg, adapter, s, e);
      StillDrainable(cfg, read, s, s', ids);
      DrainPays(cfg, adapter, read, s', ids[1..], ref);
      GoodAfter(cfg, read, s, s', ids, ref);
    }
  }

  /** The rest can still be drained: a payment settled by the first event has the intent of its plan. */
  lemma StillDrainable(cfg: Config, read: Reader, s: State, s': State, ids: seq<nat>)
    requires Valid(cfg) && ids != [] && Drainable(cfg, read, s, ids) && StepsTo(cfg, read, s, ids[0], s')
    ensures Drainable(cfg, read, s', ids[1..])
  {
    hide Paid, IntentPaid, OnlyIntent, Good;
    var rest := ids[1..];
    assert forall k :: 0 <= k < |rest| ==> rest[k] == ids[k + 1] && rest[k] != ids[0];
    assert forall k :: 0 <= k < |rest| ==> PlanOf(read, s', rest[k]) == PlanOf(read, s, ids[k + 1]);
    forall k, m | 0 <= k < |rest| && 0 <= m < |rest|
        && PlanOf(read, s', rest[k]).ReversePlan? && IntentOf(PlanOf(read, s', rest[m])).Some?
        && IntentPaid(s', ReversedRef(read, s', rest[k])) == IntentOf(PlanOf(read, s', rest[m]))
      ensures RefOf(read, s', rest[m]) == ReversedRef(read, s', rest[k])
    {
      var x := ReversedRef(read, s', rest[k]);
      assert x == ReversedRef(read, s, ids[k + 1]) && RefOf(read, s', rest[m]) == RefOf(read, s, ids[m + 1]);
      if !Paid(s, x) && GoodFor(cfg, read, s, ids[0], x) {
        assert IntentOf(PlanOf(read, s, ids[0])) == IntentOf(PlanOf(read, s, ids[m + 1]));
      }
    }
  }

  /** What the first event changes for the others is covered by what it paid. */
  lemma GoodAfter(cfg: Config, read: Reader, s: State, s': State, ids: seq<nat>, ref: ReceiptRef)
    requires Valid(cfg) && ids != [] && Drainable(cfg, read, s, ids) && StepsTo(cfg, read, s, ids[0], s') && ref.Payment?
    ensures Paid(s', ref) || SomeGood(cfg, read, s', ids[1..], ref) <==> Paid(s, ref) || SomeGood(cfg, read, s, ids, ref)
  {
    hide GoodFor, Paid, IntentPaid, OnlyIntent;
    var rest := ids[1..];
    assert ids == [ids[0]] + rest;
    if !Paid(s', ref) {
      forall e | e in rest ensures GoodFor(cfg, read, s', e, ref) <==> GoodFor(cfg, read, s, e, ref) {
        var k :| 0 <= k < |rest| && rest[k] == e;
        assert ids[k + 1] == e;
        GoodElsewhere(cfg, read, s, s', ids, k + 1, ref);
      }
    }
  }

  lemma GoodElsewhere(cfg: Config, read: Reader, s: State, s': State, ids: seq<nat>, k: nat, ref: ReceiptRef)
    requires Valid(cfg) && 0 < k < |ids| && Drainable(cfg, read, s, ids) && StepsTo(cfg, read, s, ids[0], s')
    requires !Paid(s', ref) && ref.Payment?
    ensures GoodFor(cfg, read, s', ids[k], ref) <==> GoodFor(cfg, read, s, ids[k], ref)
  {
    hide Good, Paid;
    var e := ids[k];
    assert PlanOf(read, s', e) == PlanOf(read, s, e);
    if !Settling(PlanOf(read, s, e)) {
      NotGood(cfg, read, s, e);
      NotGood(cfg, read, s', e);
    } else if RefOf(read, s, e) == ref {
      OwnIntentKept(cfg, read, s, s', ids, k, ref);
      GoodReads(cfg, read, s, s', e);
    }
  }

  /** A payment's intent is changed only when that payment is settled afterwards. */
  lemma OwnIntentKept(cfg: Config, read: Reader, s: State, s': State, ids: seq<nat>, k: nat, ref: ReceiptRef)
    requires Valid(cfg) && 0 < k < |ids| && Drainable(cfg, read, s, ids) && StepsTo(cfg, read, s, ids[0], s')
    requires Settling(PlanOf(read, s, ids[k])) && RefOf(read, s, ids[k]) == ref && ref.Payment?
    ensures var i := IntentOf(PlanOf(read, s, ids[k]));
      i.Some? && i.value < |s.intents| ==> s'.intents[i.value] == s.intents[i.value] || Paid(s', ref)
  {
    hide Good, GoodFor;
    var i := IntentOf(PlanOf(read, s, ids[k]));
    var first := PlanOf(read, s, ids[0]);
    if i.Some? && i == IntentMoved(s, s.events[ids[0]].provider, first) {
      if first.ReversePlan? {
        assert ReversedRef(read, s, ids[0]) == ref;
        assert Paid(s, ref);
      } else if s'.intents != s.intents {
        assert RefOf(read, s, ids[0]) == ref;
      }
    }
  }

  /**
   * Draining the same events in any two orders settles the same payments, with reversals among them
   * and events the adapter throws on.
   */
  lemma AnyOrderPays(cfg: Config, adapter: Adapter, read: Reader, s: State, one: seq<nat>, other: seq<nat>, ref: ReceiptRef)
    requires Valid(cfg) && Inv(cfg, s) && EventsOk(s) && Reads(adapter, read) && ref.Payment?
    requires Drainable(cfg, read, s, one) && Drainable(cfg, read, s, other)
    requires InRangeThroughout(cfg, adapter, read, s, one) && InRangeThroughout(cfg, adapter, read, s, other)
    requires forall e :: e in one <==> e in other
    ensures Paid(Drain(cfg, adapter, s, one), ref) <==> Paid(Drain(cfg, adapter, s, other), ref)
  {
    hide Inv, EventsOk, Process, Partition, ValidTiers, ApplyPlan, Paid, Reads, GoodFor, InRangeThroughout, Drain, Drainable;
    DrainPays(cfg, adapter, read, s, one, ref);
    DrainPays(cfg, adapter, read, s, other, ref);
  }
}
