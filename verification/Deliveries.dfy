/**
 * What a delivered event does, said of the plan the adapter made of it: whose money moves where, and
 * what the stored event records.
 */
module Deliveries {
  import opened Basics
  import opened Schema
  import opened Journal
  import opened Rates
  import opened Common
  import opened Invariants
  import opened Purchases
  import opened Topups
  import opened Transfers
  import opened Subscriptions
  import opened Reversals
  import opened Providers
  import opened Movements
  import opened Memberships
  import opened Recoveries

  // ------------------------------------------------------------------ one plan

  /** A purchase plan that settles credits its own subject, or its intent's, with its own payment. */
  lemma PurchaseDelivered(cfg: Config, s: State, p: Provider, plan: Plan, e: nat)
    requires Valid(cfg) && Books(s.ledger) && plan.PurchasePlan? && FindKey(s.ledger.journal, Delivered(e)).None?
    requires ApplyPlan(cfg, s, p, plan, e).Done? && ApplyPlan(cfg, s, p, plan, e).value == Settled
    ensures exists bits: int, subject: Subject ::
      && (plan.intent.None? ==> plan.subject == Some(subject))
      && (plan.intent.Some? ==> plan.intent.value < |s.intents| && subject == s.intents[plan.intent.value].subject)
      && Posts(s.ledger, ApplyPlan(cfg, s, p, plan, e).state.ledger,
               Txn(Purchase, Delivered(e), [], None, None, Some(subject), Some(Gateway(p)), Some(Payment(p, plan.payment)), Some(e),
                   PurchaseMeta(plan.paidCents, bits, plan.intent), cfg.bitsPerUsd),
               ReceiptChanges(cfg, p, plan.paidCents, bits, CreditOf(subject)))
  {
    hide Settle, Posts, ReceiptChanges, Books, Partition, ValidTiers, BitsForPriceCents, ValueCents;
    PurchaseMoves(cfg, s, SettleArgsOf(p, plan, e));
  }

  /** A top-up plan that settles credits the Balance of its intent. */
  lemma TopupDelivered(cfg: Config, s: State, p: Provider, plan: Plan, e: nat)
    requires Valid(cfg) && Books(s.ledger) && plan.TopupPlan?
    requires ApplyPlan(cfg, s, p, plan, e).Done? && ApplyPlan(cfg, s, p, plan, e).value == Settled
    ensures plan.intent.Some? && plan.intent.value < |s.intents|
    ensures var i := s.intents[plan.intent.value];
      Posts(s.ledger, ApplyPlan(cfg, s, p, plan, e).state.ledger,
            Txn(Credit, Delivered(e), [], None, None, Some(i.subject), Some(Gateway(p)), Some(Payment(p, plan.payment)), Some(e),
                TopupMeta(plan.paidCents, i.topupCents * NANO_PER_CENT, i.project, plan.intent), 0),
            [ Change(ClearingOf(p, Nano), -plan.paidCents * NANO_PER_CENT), Change(BalanceOf(i.subject, i.project), i.topupCents * NANO_PER_CENT),
              Change(RevenueIn(Nano), (plan.paidCents - i.topupCents) * NANO_PER_CENT) ])
  {
    hide SettleTopup, Posts, Books, Partition, ValidTiers;
    TopupMoves(cfg, s, TopupArgsOf(p, plan, e));
  }

  /** A tip plan that settles pays its receiver from its payer's payment. */
  lemma TipDelivered(cfg: Config, s: State, p: Provider, plan: Plan, e: nat)
    requires Valid(cfg) && Books(s.ledger) && plan.TipPlan? && FindKey(s.ledger.journal, Delivered(e)).None?
    requires ApplyPlan(cfg, s, p, plan, e).Done? && ApplyPlan(cfg, s, p, plan, e).value == Settled
    ensures exists bits: int ::
      && WorthNearest(cfg, bits, plan.paidCents)
      && Posts(s.ledger, ApplyPlan(cfg, s, p, plan, e).state.ledger,
               Txn(Donation, Delivered(e), [], None, plan.from, Some(plan.to), Some(Gateway(p)), Some(Payment(p, plan.payment)), Some(e),
                   TipMeta(plan.paidCents, bits), cfg.bitsPerUsd),
               ReceiptChanges(cfg, p, plan.paidCents, bits, PayableOf(plan.to)))
  {
    hide TipFromReceipt, Posts, ReceiptChanges, Books, Partition, ValidTiers, ValueCents, WorthNearest;
    TipMoves(cfg, s, TipArgsOf(p, plan, e));
  }

  /** A period plan that settles makes its subscriber a member of its streamer and pays the streamer a share of its payment. */
  lemma PeriodDelivered(cfg: Config, s: State, p: Provider, plan: Plan, e: nat)
    requires Valid(cfg) && Books(s.ledger) && plan.PeriodPlan?
    requires ApplyPlan(cfg, s, p, plan, e).Done? && ApplyPlan(cfg, s, p, plan, e).value == Settled
    ensures var s' := ApplyPlan(cfg, s, p, plan, e).state; var n := |s.periods|;
      && |s'.periods| == n + 1 && s'.periods[..n] == s.periods
      && s'.periods[n].subject == plan.subscriber && s'.periods[n].scope == plan.streamer && s'.periods[n].revoked.None?
      && (plan.until.Some? ==> s'.periods[n].end == Max(plan.until.value, s'.periods[n].start + 1))
      && s'.periods[n].sub < |s'.subs|
      && var row := s'.subs[s'.periods[n].sub];
         && row.byProvider == Some(p) && row.status == Active
         && (plan.tier.Some? ==> row.tier == plan.tier.value)
         && (plan.price.Some? ==> row.priceCents == plan.price.value)
         && (plan.price.None? && plan.quoted > 0 ==> row.priceCents == plan.quoted)
         && (plan.autoRenew.Some? ==> row.autoRenew == plan.autoRenew.value)
    ensures var s' := ApplyPlan(cfg, s, p, plan, e).state;
      if plan.direct then Moves(s.ledger, s'.ledger, [])
      else exists share: int ::
        && CreatorShare(cfg, if plan.feeCents > 0 then Max(0, plan.paidCents - plan.feeCents) else plan.paidCents, share)
        && Posts(s.ledger, s'.ledger,
                 Txn(Subscription, Delivered(e), [], None, Some(plan.subscriber), Some(plan.streamer), Some(Gateway(p)), Some(Payment(p, plan.payment)),
                     Some(e), ReceiptPeriodMeta(plan.paidCents, share, plan.intent), cfg.bitsPerUsd),
                 ReceiptChanges(cfg, p, plan.paidCents, share, PayableOf(plan.streamer)))
  {
    hide Subscriptions.Pay, Moves, ReceiptChanges, Books, Partition, ValidTiers, ValueCents, CreatorShare;
    PayGrants(cfg, s, PayArgsOf(p, plan, e));
    PayReceiptMoves(cfg, s, PayArgsOf(p, plan, e));
  }

  /** The transaction a reversal adds: of its kind, on the payment it names, with the cents it returns. */
  lemma ReversalRecorded(cfg: Config, s: State, a: ReverseArgs)
    requires JournalOk(cfg, s.ledger) && Reverse(cfg, s, a).Done? && Reverse(cfg, s, a).value.Answered? && !Reverse(cfg, s, a).value.replay
    ensures var j, j' := s.ledger.journal, Reverse(cfg, s, a).state.ledger.journal;
      && |j'| == |j| + 1 && j'[..|j|] == j
      && var t := j'[|j|];
         && t.ty == (if a.chargeback then Chargeback else Refund) && t.key == a.key && t.source == a.source && t.receipt == a.reversal
         && t.reverses == FindReceipt(j, a.original) && t.reverses.Some?
         && var i := t.reverses.value; var done := ReversedCents(j, i);
            ReversalCents(t.meta) == Asked(a.ask, PaidCents(j[i].meta) - done, done)
  {
    hide Reverse, JournalOk, ReversedCents, PartOf, Post, Shape, Books, Asked, Returning;
    var i, cents, part := ReverseSteps(cfg, s, a);
    ReturningAt(s, a, i, cents);
    AskedIs(s, a, i, cents);
    BooksOf(cfg, s.ledger);
    PostEffect(s.ledger, ReversalTxn(cfg, s.ledger.journal[i], i, a, part));
    PartNumbers(cfg, s.ledger, s.ledger.journal[i], a.chargeback, ReversedCents(s.ledger.journal, i), cents);
  }

  lemma AskedIs(s: State, a: ReverseArgs, i: nat, cents: int)
    requires Returning(s, a, i, cents)
    ensures var done := ReversedCents(s.ledger.journal, i); cents == Asked(a.ask, PaidCents(s.ledger.journal[i].meta) - done, done)
  {
  }

  /** A reversal plan that settles returns cents of the provider's own payment it names, as a refund or a chargeback. */
  lemma ReversalDelivered(cfg: Config, s: State, p: Provider, plan: Plan, e: nat)
    requires Valid(cfg) && JournalOk(cfg, s.ledger) && plan.ReversePlan?
    requires ApplyPlan(cfg, s, p, plan, e).Done? && ApplyPlan(cfg, s, p, plan, e).value == Settled
    ensures var j, j' := s.ledger.journal, ApplyPlan(cfg, s, p, plan, e).state.ledger.journal;
      && |j'| == |j| + 1 && j'[..|j|] == j
      && var t := j'[|j|];
         && t.ty == (if plan.chargeback then Chargeback else Refund) && t.key == Delivered(e) && t.source == Some(e)
         && t.receipt == (if plan.reversal.Some? then Some(Reversal(p, plan.reversal.value)) else None)
         && t.reverses == FindReceipt(j, Payment(p, plan.payment)) && t.reverses.Some?
         && var i := t.reverses.value; var done := ReversedCents(j, i);
            ReversalCents(t.meta) == Asked(plan.ask, PaidCents(j[i].meta) - done, done)
  {
    hide Reverse, JournalOk, Partition, ValidTiers, ReversedCents, Asked;
    ReversalRecorded(cfg, s, ReverseArgsOf(p, plan, e));
  }

  /** Plans without money: an ended subscription is cancelled, the rest leave the store as it was. */
  lemma OthersDelivered(cfg: Config, s: State, p: Provider, plan: Plan, e: nat)
    requires Valid(cfg) && (plan.NoPlan? || plan.LinkPlan? || plan.EndPlan? || plan.ExternalPlan?)
    ensures var r := ApplyPlan(cfg, s, p, plan, e);
      && (plan.EndPlan? ==>
            r == Done(if plan.sub < |s.subs| && s.subs[plan.sub].status != Canceled
                      then s.(subs := s.subs[plan.sub := EndedRow(s.subs[plan.sub], Canceled)]) else s, Updated))
      && (plan.NoPlan? ==> r == Done(s, NoEffect))
      && (plan.LinkPlan? ==> r == Done(s, Updated))
      && (plan.ExternalPlan? ==> r == Done(s, if plan.duplicate then DuplicateReceipt else ExternalReceipt(plan.announced)))
  {
  }

  // ------------------------------------------------------------------ one event

  /** An event is stored once, as it came, and answered by its place. */
  lemma StoreWrites(s: State, p: Provider, eventId: nat, payload: nat)
    ensures var r := StoreEvent(s, p, eventId, payload);
      && r.Done? && r.value.event < |r.state.events|
      && r.state.events[r.value.event].provider == p && r.state.events[r.value.event].eventId == eventId
      && (r.value.duplicate ==> r.state == s)
      && (!r.value.duplicate ==>
            && r.value.event == |s.events| && r.state == s.(events := s.events + [Event(p, eventId, payload, None, 0)])
            && forall k :: 0 <= k < |s.events| ==> s.events[k].provider != p || s.events[k].eventId != eventId)
  {
  }

  /** What processing makes of the plan's outcome: done with its effect, rejected when refused, and left to try again otherwise. */
  lemma ProcessWrites(cfg: Config, adapter: Adapter, s: State, e: nat)
    requires Valid(cfg) && e < |s.events| && s.events[e].effect.None? && !s.frozen
    ensures var s' := Process(cfg, adapter, s, e); var plan := adapter(s.events[e], s.subs, s.intents);
      && |s'.events| == |s.events| && (forall k :: 0 <= k < |s.events| && k != e ==> s'.events[k] == s.events[k])
      && s'.events[e] == s.events[e].(attempts := s.events[e].attempts + 1, effect := s'.events[e].effect)
      && (plan.None? ==> s'.events[e].effect.None? && s' == s.(events := s'.events))
      && (plan.Some? ==>
            match ApplyPlan(cfg, s, s.events[e].provider, plan.value, e)
            case Done(s1, effect) => s'.events[e].effect == Some(effect) && s' == s1.(events := s'.events)
            case Fail(err) =>
              && s' == s.(events := s'.events)
              && s'.events[e].effect == if err in {Unbalanced, UniqueViolation, CheckViolation} then None else Some(Rejected))
  {
    hide ApplyPlan, Partition, ValidTiers;
    var plan := adapter(s.events[e], s.subs, s.intents);
    if plan.Some? { EventsUnapplied(cfg, s, s.events[e].provider, plan.value, e); }
  }

  /** A frozen economy, or an event already processed, is left alone. */
  lemma ProcessLeaves(cfg: Config, adapter: Adapter, s: State, e: nat)
    requires Valid(cfg) && (s.frozen || e >= |s.events| || s.events[e].effect.Some?)
    ensures Process(cfg, adapter, s, e) == s
  {
  }

  ghost function PendingBefore(es: seq<Event>, k: nat): set<int>
    requires k <= |es|
  {
    set i | 0 <= i < k && es[i].effect.None?
  }

  lemma PendingStep(es: seq<Event>, k: nat)
    requires k <= |es|
    ensures |PendingBefore(es, k)| == if k == 0 then 0 else |PendingBefore(es, k - 1)| + (if es[k - 1].effect.None? then 1 else 0)
  {
    if k > 0 {
      assert PendingBefore(es, k) == PendingBefore(es, k - 1) + if es[k - 1].effect.None? then {k - 1} else {};
    }
  }

  /** A pass tries the first `limit` pending events in the order they came, each once, and no other event. */
  lemma PassTries(cfg: Config, adapter: Adapter, s: State, limit: nat, k: nat)
    requires Valid(cfg) && !s.frozen && k < |s.events|
    ensures var s' := ProcessPending(cfg, adapter, s, limit);
      && |s'.events| == |s.events|
      && var earlier := |PendingBefore(s.events, k)|;
         if s.events[k].effect.None? && earlier < limit then s'.events[k].attempts == s.events[k].attempts + 1
         else s'.events[k] == s.events[k]
  {
    hide Process, Valid;
    var ids := PendingIds(s.events);
    var n := Min(limit, |ids|);
    PendingPlace(s.events, k);
    assert forall m :: 0 <= m < n ==> ids[..n][m] == ids[m] && ids[m] in ids;
    DrainTries(cfg, adapter, s, ids[..n], k);
  }

  /** What a pass counts: the events it tried that are processed when it is over. */
  lemma {:induction false} PassCounts(cfg: Config, adapter: Adapter, s: State, ids: seq<nat>)
    requires Valid(cfg) && !s.frozen
    requires NoRepeat(ids) && forall m :: 0 <= m < |ids| ==> ids[m] < |s.events| && s.events[ids[m]].effect.None?
    ensures DrainCount(cfg, adapter, s, ids) == |Processed(Drain(cfg, adapter, s, ids), ids)|
    decreases |ids|
  {
    hide Process, Valid;
    if ids != [] {
      var s1 := Process(cfg, adapter, s, ids[0]);
      var s' := Drain(cfg, adapter, s, ids);
      assert ids == [ids[0]] + ids[1..];
      ProcessTries(cfg, adapter, s, ids[0]);
      DrainTries(cfg, adapter, s1, ids[1..], ids[0]);
      PassCounts(cfg, adapter, s1, ids[1..]);
      assert Processed(s', ids) == Processed(s', ids[1..]) + if s1.events[ids[0]].effect.Some? then {ids[0]} else {};
    }
  }

  ghost function Processed(s: State, ids: seq<nat>): set<nat>
  {
    set e | e in ids && e < |s.events| && s.events[e].effect.Some?
  }

  /** A pending event stands behind the pending ones before it. */
  lemma {:induction false} PendingPlace(es: seq<Event>, k: nat)
    requires k < |es|
    ensures var ids := PendingIds(es); var earlier := |PendingBefore(es, k)|;
      && (es[k].effect.None? ==> earlier < |ids| && ids[earlier] == k)
      && (es[k].effect.Some? ==> k !in ids)
  {
    PendingCount(es, k);
  }

  lemma {:induction false} PendingCount(es: seq<Event>, k: nat)
    requires k <= |es|
    ensures var ids := PendingIds(es); var earlier := |PendingBefore(es, k)|;
      && earlier <= |ids| && (forall m :: 0 <= m < earlier ==> ids[m] < k) && (forall m :: earlier <= m < |ids| ==> ids[m] >= k)
    decreases k
  {
    hide PendingIds;
    PendingStep(es, k);
    hide PendingBefore;
    if k > 0 {
      PendingCount(es, k - 1);
      NextPending(PendingIds(es), k - 1, |PendingBefore(es, k - 1)|);
      assert es[k - 1].effect.None? <==> k - 1 in PendingIds(es);
    }
  }

  lemma NextPending(ids: seq<nat>, k: nat, n: nat)
    requires n <= |ids| && forall a, b :: 0 <= a < b < |ids| ==> ids[a] < ids[b]
    requires (forall m :: 0 <= m < n ==> ids[m] < k) && (forall m :: n <= m < |ids| ==> ids[m] >= k)
    ensures if k in ids then n < |ids| && ids[n] == k && (forall m :: n < m < |ids| ==> ids[m] > k)
            else forall m :: n <= m < |ids| ==> ids[m] > k
  {
    if k in ids {
      var at :| 0 <= at < |ids| && ids[at] == k;
      assert n <= at && ids[n] >= k;
      assert at == n;
    }
  }

  lemma {:induction false} DrainTries(cfg: Config, adapter: Adapter, s: State, ids: seq<nat>, k: nat)
    requires Valid(cfg) && !s.frozen && k < |s.events|
    requires NoRepeat(ids) && forall m :: 0 <= m < |ids| ==> ids[m] < |s.events| && s.events[ids[m]].effect.None?
    ensures var s' := Drain(cfg, adapter, s, ids);
      && |s'.events| == |s.events|
      && (if k in ids then s'.events[k].attempts == s.events[k].attempts + 1 else s'.events[k] == s.events[k])
    decreases |ids|
  {
    hide Process, Valid;
    if ids != [] {
      assert ids == [ids[0]] + ids[1..];
      ProcessTries(cfg, adapter, s, ids[0]);
      DrainTries(cfg, adapter, Process(cfg, adapter, s, ids[0]), ids[1..], k);
    }
  }

  lemma ProcessTries(cfg: Config, adapter: Adapter, s: State, e: nat)
    requires Valid(cfg) && !s.frozen && e < |s.events| && s.events[e].effect.None?
    ensures var s' := Process(cfg, adapter, s, e);
      && !s'.frozen && |s'.events| == |s.events| && s'.events[e].attempts == s.events[e].attempts + 1
      && (forall k :: 0 <= k < |s.events| && k != e ==> s'.events[k] == s.events[k])
  {
    hide ApplyPlan, Valid;
    var plan := adapter(s.events[e], s.subs, s.intents);
    if plan.Some? { EventsUnapplied(cfg, s, s.events[e].provider, plan.value, e); }
  }

  /** An operator may retry what was refused, empty or not announced, and nothing else. */
  lemma ReprocessExactly(cfg: Config, adapter: Adapter, s: State, e: nat)
    requires Valid(cfg) && e < |s.events|
    ensures Reprocess(cfg, adapter, s, e).Done? <==>
      var was := s.events[e].effect; was.None? || was.value.Rejected? || was.value.NoEffect? || (was.value.ExternalReceipt? && !was.value.announced)
    ensures Reprocess(cfg, adapter, s, e).Done? ==>
      Reprocess(cfg, adapter, s, e).state == Process(cfg, adapter, s.(events := s.events[e := s.events[e].(effect := None)]), e)
  {
    hide Process, Partition, ValidTiers;
  }
}
