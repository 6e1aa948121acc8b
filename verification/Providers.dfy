/** server/providers/index.js: deliveries are stored first, then settled exactly once. */
module Providers {
  import opened Basics
  import opened Schema
  import opened Journal
  import opened Rates
  import opened Common
  import opened Invariants
  import opened Store
  import opened Purchases
  import opened Topups
  import opened Transfers
  import opened Subscriptions
  import opened Reversals
  import opened Growth

  /** What an adapter makes of a stored payload. The event gives the provider, the key and the source. */
  datatype Plan =
    | NoPlan
    | LinkPlan
    | EndPlan(sub: nat)
    | PurchasePlan(payment: nat, paidCents: int, bits: Option<int>, subject: Option<Subject>, intent: Option<nat>)
    | TopupPlan(payment: nat, paidCents: int, intent: Option<nat>)
    | PeriodPlan(
        payment: nat, paidCents: int, subscriber: Subject, streamer: Subject, tier: Option<nat>, price: Option<int>,
        autoRenew: Option<bool>, feeCents: int, direct: bool, quoted: int, until: Option<Millis>, intent: Option<nat>)
    | TipPlan(payment: nat, paidCents: int, from: Option<Subject>, to: Subject)
    | ExternalPlan(duplicate: bool, announced: bool)
    | ReversePlan(payment: nat, chargeback: bool, reversal: Option<nat>, ask: Ask)

  /** An adapter reads the event and the tables it looks references up in; None is a payload it throws on. */
  type Adapter = (Event, seq<Sub>, seq<Intent>) -> Option<Plan>

  // ------------------------------------------------------------------ storing

  function FindEvent(es: seq<Event>, p: Provider, eventId: nat): (r: Option<nat>)
    ensures r.Some? ==> r.value < |es| && es[r.value].provider == p && es[r.value].eventId == eventId
    ensures r.None? ==> forall i :: 0 <= i < |es| ==> es[i].provider != p || es[i].eventId != eventId
  {
    if es == [] then None
    else
      var r := FindEvent(es[..|es| - 1], p, eventId);
      var e := es[|es| - 1];
      if r.Some? then r else if e.provider == p && e.eventId == eventId then Some(|es| - 1) else None
  }

  datatype Stored = Stored(event: nat, duplicate: bool)

  function StoreEvent(s: State, p: Provider, eventId: nat, payload: nat): Step<Stored>
  {
    var found := FindEvent(s.events, p, eventId);
    if found.Some? then Done(s, Stored(found.value, true))
    else Done(s.(events := s.events + [Event(p, eventId, payload, None, 0)]), Stored(|s.events|, false))
  }

  method StoreDelivery(db: Db, p: Provider, eventId: nat, payload: nat) returns (r: Result<Stored, Error>)
    modifies db
    ensures db.Answers(old(db.View()), StoreEvent(old(db.View()), p, eventId, payload), r)
  {
    var found := FindEvent(db.events, p, eventId);
    if found.Some? { return Ok(Stored(found.value, true)); }
    r := Ok(Stored(|db.events|, false));
    db.events := db.events + [Event(p, eventId, payload, None, 0)];
  }

  // ------------------------------------------------------------------ applying a plan

  function SettleArgsOf(p: Provider, plan: Plan, e: nat): SettleArgs
    requires plan.PurchasePlan?
  {
    SettleArgs(p, plan.payment, plan.paidCents, plan.bits, plan.subject, plan.intent, Delivered(e), Some(e))
  }

  function TopupArgsOf(p: Provider, plan: Plan, e: nat): TopupArgs
    requires plan.TopupPlan?
  {
    TopupArgs(p, plan.payment, plan.paidCents, plan.intent, Delivered(e), Some(e))
  }

  function PayArgsOf(p: Provider, plan: Plan, e: nat): PayArgs
    requires plan.PeriodPlan?
  {
    PayArgs(plan.subscriber, plan.streamer, plan.tier, plan.price, plan.autoRenew,
            FromReceipt(p, plan.payment, plan.paidCents, plan.feeCents, plan.direct, plan.quoted, plan.until),
            plan.intent, Delivered(e), Some(e))
  }

  function TipArgsOf(p: Provider, plan: Plan, e: nat): TipArgs
    requires plan.TipPlan?
  {
    TipArgs(p, plan.payment, plan.paidCents, plan.from, plan.to, Delivered(e), Some(e))
  }

  function ReverseArgsOf(p: Provider, plan: Plan, e: nat): ReverseArgs
    requires plan.ReversePlan?
  {
    ReverseArgs(plan.chargeback, Payment(p, plan.payment), if plan.reversal.Some? then Some(Reversal(p, plan.reversal.value)) else None,
                plan.ask, Delivered(e), Some(e))
  }

  function EffectOf(replay: bool): Effect { if replay then DuplicateReceipt else Settled }

  function ApplyPlan(cfg: Config, s: State, p: Provider, plan: Plan, e: nat): Step<Effect>
    requires Valid(cfg)
  {
    match plan
    case NoPlan => Done(s, NoEffect)
    case LinkPlan => Done(s, Updated)
    case EndPlan(sub) => Done(SetStatus(s, sub, Canceled, None), Updated)
    case PurchasePlan(_, _, _, _, _) =>
      (match Settle(cfg, s, SettleArgsOf(p, plan, e))
       case Done(s', o) => Done(s', EffectOf(o.replay))
       case Fail(err) => Fail(err))
    case TopupPlan(_, _, _) =>
      (match SettleTopup(cfg, s, TopupArgsOf(p, plan, e))
       case Done(s', Skipped) => Done(s', NoEffect)
       case Done(s', Credited(_, replay)) => Done(s', EffectOf(replay))
       case Fail(err) => Fail(err))
    case PeriodPlan(_, _, _, _, _, _, _, _, _, _, _, _) =>
      (match Pay(cfg, s, PayArgsOf(p, plan, e))
       case Done(s', o) => Done(s', EffectOf(o.replay))
       case Fail(err) => Fail(err))
    case TipPlan(_, _, _, _) =>
      (match TipFromReceipt(cfg, s, TipArgsOf(p, plan, e))
       case Done(s', o) => Done(s', EffectOf(o.replay))
       case Fail(err) => Fail(err))
    case ExternalPlan(duplicate, announced) => Done(s, if duplicate then DuplicateReceipt else ExternalReceipt(announced))
    case ReversePlan(_, _, _, _) =>
      (match Reverse(cfg, s, ReverseArgsOf(p, plan, e))
       case Done(s', AlreadyDone) => Done(s', NoEffect)
       case Done(s', Answered(_, replay, _)) => Done(s', EffectOf(replay))
       case Fail(err) => Fail(err))
  }

  method Apply(cfg: Config, db: Db, p: Provider, plan: Plan, e: nat) returns (r: Result<Effect, Error>)
    requires Valid(cfg)
    modifies db
    ensures db.Answers(old(db.View()), ApplyPlan(cfg, old(db.View()), p, plan, e), r)
  {
    hide Settle, SettleTopup, Pay, TipFromReceipt, Reverse, Partition;
    match plan {
      case NoPlan => r := Ok(NoEffect);
      case LinkPlan => r := Ok(Updated);
      case EndPlan(sub) =>
        EndSubscription(db, sub, Canceled, None);
        r := Ok(Updated);
      case PurchasePlan(_, _, _, _, _) =>
        var settled := SettleReceipt(cfg, db, SettleArgsOf(p, plan, e));
        r := if settled.Ok? then Ok(EffectOf(settled.value.replay)) else Err(settled.error);
      case TopupPlan(_, _, _) =>
        var settled := SettlePaidTopup(cfg, db, TopupArgsOf(p, plan, e));
        r := if settled.Err? then Err(settled.error)
             else if settled.value.Skipped? then Ok(NoEffect) else Ok(EffectOf(settled.value.replay));
      case PeriodPlan(_, _, _, _, _, _, _, _, _, _, _, _) =>
        var settled := PayPeriod(cfg, db, PayArgsOf(p, plan, e));
        r := if settled.Ok? then Ok(EffectOf(settled.value.replay)) else Err(settled.error);
      case TipPlan(_, _, _, _) =>
        var settled := Transfers.FromReceipt(cfg, db, TipArgsOf(p, plan, e));
        r := if settled.Ok? then Ok(EffectOf(settled.value.replay)) else Err(settled.error);
      case ExternalPlan(duplicate, announced) =>
        r := Ok(if duplicate then DuplicateReceipt else ExternalReceipt(announced));
      case ReversePlan(_, _, _, _) =>
        var settled := ReverseReceipt(cfg, db, ReverseArgsOf(p, plan, e));
        r := if settled.Err? then Err(settled.error)
             else if settled.value.AlreadyDone? then Ok(NoEffect) else Ok(EffectOf(settled.value.replay));
    }
  }

  // ------------------------------------------------------------------ processing

  /** An attempt that did not process the event. */
  function Tried(s: State, e: nat): State
    requires e < |s.events|
  {
    s.(events := s.events[e := s.events[e].(attempts := s.events[e].attempts + 1)])
  }

  function Finished(s: State, e: nat, effect: Effect): State
    requires e < |s.events|
  {
    s.(events := s.events[e := s.events[e].(effect := Some(effect), attempts := s.events[e].attempts + 1)])
  }

  function Process(cfg: Config, adapter: Adapter, s: State, e: nat): (s': State)
    requires Valid(cfg)
    ensures |s'.events| == |s.events|
  {
    if e >= |s.events| || s.events[e].effect.Some? || s.frozen then s
    else
      match adapter(s.events[e], s.subs, s.intents)
      case None => Tried(s, e)
      case Some(plan) =>
        match ApplyPlan(cfg, s, s.events[e].provider, plan, e)
        case Done(s1, effect) =>
          EventsUnapplied(cfg, s, s.events[e].provider, plan, e);
          Finished(s1, e, effect)
        case Fail(err) => if IsRefusal(err) then Finished(s, e, Rejected) else Tried(s, e)
  }

  /** Applying a plan leaves the stored events to process(). */
  lemma EventsUnapplied(cfg: Config, s: State, p: Provider, plan: Plan, e: nat)
    requires Valid(cfg)
    ensures var r := ApplyPlan(cfg, s, p, plan, e);
      r.Done? ==> SameFeed(s, r.state)
  {
    hide Settle, SettleTopup, Pay, TipFromReceipt, Reverse, Partition, ValidTiers;
    if ApplyPlan(cfg, s, p, plan, e).Done? {
      match plan {
        case PurchasePlan(_, _, _, _, _) => SettleFeed(cfg, s, SettleArgsOf(p, plan, e));
        case TopupPlan(_, _, _) => TopupFeed(cfg, s, TopupArgsOf(p, plan, e));
        case PeriodPlan(_, _, _, _, _, _, _, _, _, _, _, _) => PayFeed(cfg, s, PayArgsOf(p, plan, e));
        case TipPlan(_, _, _, _) => TipFeed(cfg, s, TipArgsOf(p, plan, e));
        case ReversePlan(_, _, _, _) => ReverseFeed(cfg, s, ReverseArgsOf(p, plan, e));
        case _ =>
      }
    }
  }

  method ProcessEvent(cfg: Config, adapter: Adapter, db: Db, e: nat)
    requires Valid(cfg)
    modifies db
    ensures db.View() == Process(cfg, adapter, old(db.View()), e)
  {
    hide ApplyPlan, Partition, ValidTiers;
    if e >= |db.events| || db.events[e].effect.Some? { return; }
    if db.frozen { return; }
    var plan := adapter(db.events[e], db.subs, db.intents);
    if plan.None? {
      db.events := db.events[e := db.events[e].(attempts := db.events[e].attempts + 1)];
      return;
    }
    EventsUnapplied(cfg, db.View(), db.events[e].provider, plan.value, e);
    var applied := Apply(cfg, db, db.events[e].provider, plan.value, e);
    var row := db.events[e].(attempts := db.events[e].attempts + 1);
    if applied.Ok? {
      row := row.(effect := Some(applied.value));
    } else if IsRefusal(applied.error) {
      row := row.(effect := Some(Rejected));
    }
    db.events := db.events[e := row];
  }

  function PendingIds(es: seq<Event>): (r: seq<nat>)
    ensures forall i :: i in r <==> 0 <= i < |es| && es[i].effect.None?
    ensures NoRepeat(r) && forall i, k :: 0 <= i < k < |r| ==> r[i] < r[k]
  {
    if es == [] then []
    else
      var r := PendingIds(es[..|es| - 1]);
      assert forall k :: 0 <= k < |r| ==> r[k] in r;
      assert forall i :: i in r <==> 0 <= i < |es| - 1 && es[i].effect.None?;
      if es[|es| - 1].effect.None? then r + [|es| - 1] else r
  }

  function Drain(cfg: Config, adapter: Adapter, s: State, ids: seq<nat>): State
    requires Valid(cfg)
    decreases |ids|
  {
    if ids == [] then s else Drain(cfg, adapter, Process(cfg, adapter, s, ids[0]), ids[1..])
  }

  function ProcessPending(cfg: Config, adapter: Adapter, s: State, limit: nat): State
    requires Valid(cfg)
  {
    if s.frozen then s
    else
      var ids := PendingIds(s.events);
      Drain(cfg, adapter, s, ids[..Min(limit, |ids|)])
  }

  /** How many of the ids end processed, each tried in turn. */
  function DrainCount(cfg: Config, adapter: Adapter, s: State, ids: seq<nat>): nat
    requires Valid(cfg)
    decreases |ids|
  {
    if ids == [] then 0
    else
      var s' := Process(cfg, adapter, s, ids[0]);
      (if ids[0] < |s'.events| && s'.events[ids[0]].effect.Some? then 1 else 0) + DrainCount(cfg, adapter, s', ids[1..])
  }

  /** Every stored event not yet processed, in arrival order. */
  method ProcessAll(cfg: Config, adapter: Adapter, db: Db, limit: nat) returns (processed: nat)
    requires Valid(cfg)
    modifies db
    ensures db.View() == ProcessPending(cfg, adapter, old(db.View()), limit)
    ensures processed == if old(db.frozen) then 0
      else DrainCount(cfg, adapter, old(db.View()), PendingIds(old(db.events))[..Min(limit, |PendingIds(old(db.events))|)])
    ensures old(Inv(cfg, db.View()) && EventsOk(db.View())) ==> Inv(cfg, db.View()) && EventsOk(db.View())
  {
    hide Process, Partition, ValidTiers, Inv, EventsOk;
    processed := 0;
    if db.frozen { return; }
    var pending := PendingIds(db.events);
    var ids := pending[..Min(limit, |pending|)];
    var k := 0;
    assert ids[0..] == ids;
    if Inv(cfg, db.View()) && EventsOk(db.View()) { DrainKeeps(cfg, adapter, db.View(), ids); }
    while k < |ids|
      invariant k <= |ids|
      invariant Drain(cfg, adapter, db.View(), ids[k..]) == Drain(cfg, adapter, old(db.View()), ids)
      invariant processed + DrainCount(cfg, adapter, db.View(), ids[k..]) == DrainCount(cfg, adapter, old(db.View()), ids)
    {
      assert ids[k..][0] == ids[k] && ids[k..][1..] == ids[k + 1..];
      ProcessEvent(cfg, adapter, db, ids[k]);
      if ids[k] < |db.events| && db.events[ids[k]].effect.Some? { processed := processed + 1; }
      k := k + 1;
    }
  }

  predicate Retryable(effect: Effect) { effect == Rejected || effect == NoEffect || effect == ExternalReceipt(false) }

  /** An operator may try a refused or empty event again; a settled one never. */
  function Reprocess(cfg: Config, adapter: Adapter, s: State, e: nat): Step<()>
    requires Valid(cfg)
  {
    if e >= |s.events| then Fail(NotFound)
    else if s.events[e].effect.Some? && !Retryable(s.events[e].effect.value) then Fail(EventAlreadySettled)
    else Done(Process(cfg, adapter, s.(events := s.events[e := s.events[e].(effect := None)]), e), ())
  }

  method RetryEvent(cfg: Config, adapter: Adapter, db: Db, e: nat) returns (r: Result<(), Error>)
    requires Valid(cfg)
    modifies db
    ensures db.Answers(old(db.View()), Reprocess(cfg, adapter, old(db.View()), e), r)
  {
    hide Process, Partition, ValidTiers;
    if e >= |db.events| { return Err(NotFound); }
    var row := db.events[e];
    if row.effect.Some? && !Retryable(row.effect.value) { return Err(EventAlreadySettled); }
    db.events := db.events[e := row.(effect := None)];
    ProcessEvent(cfg, adapter, db, e);
    r := Ok(());
  }

  // ------------------------------------------------------------------ a settled event owns one transaction

  lemma KeySource(cfg: Config, t: Txn)
    requires Shape(cfg, t)
    ensures KeyMatchesSource(t.key, t.source)
  {
  }

  /** The key of an event that did not settle has never been posted. */
  lemma EventIsFresh(cfg: Config, s: State, e: nat)
    requires JournalOk(cfg, s.ledger) && EventsOk(s)
    requires e >= |s.events| || s.events[e].effect != Some(Settled)
    ensures FindKey(s.ledger.journal, Delivered(e)).None?
  {
    hide Shape;
    var j := s.ledger.journal;
    forall i | 0 <= i < |j| ensures j[i].key != Delivered(e) {
      ShapeOf(cfg, s.ledger, i);
      KeySource(cfg, j[i]);
    }
  }

  /** Exactly one transaction points at a settled event, none at any other. */
  lemma SettledOwnsOne(cfg: Config, s: State, e: nat)
    requires Inv(cfg, s) && EventsOk(s) && e < |s.events|
    ensures forall i, k :: 0 <= i < k < |s.ledger.journal| ==> s.ledger.journal[i].source != Some(e) || s.ledger.journal[k].source != Some(e)
    ensures s.events[e].effect == Some(Settled) <==> exists i :: 0 <= i < |s.ledger.journal| && s.ledger.journal[i].source == Some(e)
  {
    hide Inv, Shape;
    InvJournal(cfg, s);
    var j := s.ledger.journal;
    forall i, k | 0 <= i < k < |j| && j[i].source == Some(e) ensures j[k].source != Some(e) {
      ShapeOf(cfg, s.ledger, i);
      ShapeOf(cfg, s.ledger, k);
      KeySource(cfg, j[i]);
      KeySource(cfg, j[k]);
    }
  }

  /** What applying a plan does to the journal, by its effect. */
  lemma ApplyGrows(cfg: Config, s: State, p: Provider, plan: Plan, e: nat)
    requires Valid(cfg) && JournalOk(cfg, s.ledger) && FindKey(s.ledger.journal, Delivered(e)).None?
    requires ApplyPlan(cfg, s, p, plan, e).Done?
    ensures var r := ApplyPlan(cfg, s, p, plan, e);
      if r.value == Settled then
        && r.state.events == s.events && |r.state.ledger.journal| == |s.ledger.journal| + 1
        && r.state.ledger.journal[..|s.ledger.journal|] == s.ledger.journal
        && r.state.ledger.journal[|s.ledger.journal|].source == Some(e)
        && r.state.ledger.journal[|s.ledger.journal|].provider == Some(Gateway(p))
        && !r.state.ledger.journal[|s.ledger.journal|].meta.BalanceMeta?
      else r.state.events == s.events && r.state.ledger == s.ledger
  {
    hide Settle, SettleTopup, Pay, TipFromReceipt, Reverse, JournalOk, Partition, ValidTiers, FindKey;
    match plan {
      case PurchasePlan(_, _, _, _, _) => SettleGrows(cfg, s, SettleArgsOf(p, plan, e));
      case TopupPlan(_, _, _) => TopupGrows(cfg, s, TopupArgsOf(p, plan, e));
      case PeriodPlan(_, _, _, _, _, _, _, _, _, _, _, _) => PayGrows(cfg, s, PayArgsOf(p, plan, e));
      case TipPlan(_, _, _, _) => TipGrows(cfg, s, TipArgsOf(p, plan, e));
      case ReversePlan(_, _, _, _) => ReverseGrows(cfg, s, ReverseArgsOf(p, plan, e), p);
      case _ =>
    }
  }

  /** Every plan keeps every check of the books. */
  lemma ApplyKeeps(cfg: Config, s: State, p: Provider, plan: Plan, e: nat)
    requires Valid(cfg) && Inv(cfg, s) && FindKey(s.ledger.journal, Delivered(e)).None?
    requires ApplyPlan(cfg, s, p, plan, e).Done?
    ensures Inv(cfg, ApplyPlan(cfg, s, p, plan, e).state)
  {
    hide Settle, SettleTopup, Pay, TipFromReceipt, Reverse, Inv, Partition, ValidTiers, FindKey, SetStatus;
    match plan {
      case EndPlan(sub) => SetStatusKeeps(cfg, s, sub, Canceled, None);
      case PurchasePlan(_, _, _, _, _) => SettleKeeps(cfg, s, SettleArgsOf(p, plan, e));
      case TopupPlan(_, _, _) => SettleTopupKeeps(cfg, s, TopupArgsOf(p, plan, e));
      case PeriodPlan(_, _, _, _, _, _, _, _, _, _, _, _) => PayKeeps(cfg, s, PayArgsOf(p, plan, e));
      case TipPlan(_, _, _, _) => TipKeeps(cfg, s, TipArgsOf(p, plan, e));
      case ReversePlan(_, _, _, _) => ReverseKeeps(cfg, s, ReverseArgsOf(p, plan, e));
      case _ =>
    }
  }

  /** The books do not read the events. */
  lemma EventsFrame(cfg: Config, s: State, es: seq<Event>)
    requires Inv(cfg, s)
    ensures Inv(cfg, s.(events := es))
  {
    hide JournalOk, NonNegative, PayoutsOk, PeriodsCharged, SubsOk, RenewalsOk, PromoOk, RatingOk, TotalsOk, VibesOk, HoldRowsOk, IntentsOk;
    Frame(cfg, s, s.(events := es));
  }

  lemma EventNoted(s: State, s1: State, e: nat, effect: Option<Effect>)
    requires EventsOk(s) && e < |s.events| && s.events[e].effect != Some(Settled) && effect != Some(Settled)
    requires s1.ledger == s.ledger && |s1.events| == |s.events|
    requires forall k :: 0 <= k < |s.events| && k != e ==> s1.events[k] == s.events[k]
    requires s1.events[e].effect == effect
    ensures EventsOk(s1)
  {
  }

  lemma EventSettled(s: State, s1: State, e: nat)
    requires EventsOk(s) && e < |s.events| && s1.events == s.events
    requires |s1.ledger.journal| == |s.ledger.journal| + 1 && s1.ledger.journal[..|s.ledger.journal|] == s.ledger.journal
    requires s1.ledger.journal[|s.ledger.journal|].source == Some(e)
    requires s1.ledger.journal[|s.ledger.journal|].provider == Some(Gateway(s.events[e].provider))
    ensures EventsOk(Finished(s1, e, Settled))
  {
    var j, j' := s.ledger.journal, s1.ledger.journal;
    assert forall i :: 0 <= i < |j| ==> j'[i] == j[i];
    var s' := Finished(s1, e, Settled);
    forall k | 0 <= k < |s'.events| && s'.events[k].effect == Some(Settled) ensures exists i :: 0 <= i < |j'| && j'[i].source == Some(k) {
      if k == e {
        assert j'[|j|].source == Some(e);
      } else {
        var i :| 0 <= i < |j| && j[i].source == Some(k);
        assert j'[i].source == Some(k);
      }
    }
  }

  lemma ProcessKeeps(cfg: Config, adapter: Adapter, s: State, e: nat)
    requires Valid(cfg) && Inv(cfg, s) && EventsOk(s)
    ensures var s' := Process(cfg, adapter, s, e); Inv(cfg, s') && EventsOk(s') && s'.frozen == s.frozen && s'.clock == s.clock
  {
    hide Inv, EventsOk, ApplyPlan, Partition, ValidTiers, FindKey;
    if e < |s.events| && s.events[e].effect.None? && !s.frozen {
      InvJournal(cfg, s);
      EventIsFresh(cfg, s, e);
      var plan := adapter(s.events[e], s.subs, s.intents);
      var p := s.events[e].provider;
      if plan.Some? {
        EventsUnapplied(cfg, s, p, plan.value, e);
        var r := ApplyPlan(cfg, s, p, plan.value, e);
        if r.Done? {
          ApplyGrows(cfg, s, p, plan.value, e);
          ApplyKeeps(cfg, s, p, plan.value, e);
          EventsFrame(cfg, r.state, Finished(r.state, e, r.value).events);
          if r.value == Settled {
            EventSettled(s, r.state, e);
          } else {
            EventNoted(s, Finished(r.state, e, r.value), e, Some(r.value));
          }
        } else {
          EventsFrame(cfg, s, Process(cfg, adapter, s, e).events);
          EventNoted(s, Process(cfg, adapter, s, e), e, Process(cfg, adapter, s, e).events[e].effect);
        }
      } else {
        EventsFrame(cfg, s, Tried(s, e).events);
        EventNoted(s, Tried(s, e), e, None);
      }
    }
  }

  /** Storing, processing, draining and retrying in any order keep one transaction for each settled event. */
  lemma StoreKeeps(cfg: Config, s: State, p: Provider, eventId: nat, payload: nat)
    requires Inv(cfg, s) && EventsOk(s)
    ensures var s' := StoreEvent(s, p, eventId, payload).state; Inv(cfg, s') && EventsOk(s')
  {
    hide Inv;
    EventsFrame(cfg, s, StoreEvent(s, p, eventId, payload).state.events);
  }

  lemma {:induction false} DrainKeeps(cfg: Config, adapter: Adapter, s: State, ids: seq<nat>)
    requires Valid(cfg) && Inv(cfg, s) && EventsOk(s)
    ensures Inv(cfg, Drain(cfg, adapter, s, ids)) && EventsOk(Drain(cfg, adapter, s, ids))
    decreases |ids|
  {
    hide Inv, EventsOk, Process, Partition, ValidTiers;
    if ids != [] {
      ProcessKeeps(cfg, adapter, s, ids[0]);
      DrainKeeps(cfg, adapter, Process(cfg, adapter, s, ids[0]), ids[1..]);
    }
  }

  lemma ReprocessKeeps(cfg: Config, adapter: Adapter, s: State, e: nat)
    requires Valid(cfg) && Inv(cfg, s) && EventsOk(s) && Reprocess(cfg, adapter, s, e).Done?
    ensures var s' := Reprocess(cfg, adapter, s, e).state; Inv(cfg, s') && EventsOk(s')
  {
    hide Inv, EventsOk, Process, Partition, ValidTiers;
    var reset := s.(events := s.events[e := s.events[e].(effect := None)]);
    EventsFrame(cfg, s, reset.events);
    EventNoted(s, reset, e, None);
    ProcessKeeps(cfg, adapter, reset, e);
  }

  /** A settled event stays settled, by its transaction, whatever is processed or retried after it. */
  lemma SettledStays(cfg: Config, adapter: Adapter, s: State, e: nat, k: nat)
    requires Valid(cfg) && e < |s.events| && s.events[e].effect == Some(Settled)
    ensures Process(cfg, adapter, s, k).events[e] == s.events[e]
    ensures Reprocess(cfg, adapter, s, k).Done? ==> Reprocess(cfg, adapter, s, k).state.events[e] == s.events[e]
    ensures Reprocess(cfg, adapter, s, e) == Fail(EventAlreadySettled)
  {
    hide ApplyPlan, Partition, ValidTiers;
    ProcessElsewhere(cfg, adapter, s, k, e);
    if k < |s.events| && k != e { ProcessElsewhere(cfg, adapter, s.(events := s.events[k := s.events[k].(effect := None)]), k, e); }
  }

  lemma ProcessElsewhere(cfg: Config, adapter: Adapter, s: State, k: nat, e: nat)
    requires Valid(cfg) && e < |s.events| && (k != e || s.events[e].effect.Some?)
    ensures Process(cfg, adapter, s, k).events[e] == s.events[e]
  {
    hide ApplyPlan, Partition, ValidTiers;
    if k < |s.events| {
      var plan := adapter(s.events[k], s.subs, s.intents);
      if plan.Some? { EventsUnapplied(cfg, s, s.events[k].provider, plan.value, k); }
    }
  }
}
