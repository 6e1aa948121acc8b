/** server/ops/subscriptions.js: paying, ending and renewing channel subscriptions. */
module Subscriptions {
  import opened Basics
  import opened Schema
  import opened Journal
  import opened Rates
  import opened Common
  import opened Invariants
  import opened Store
  import opened Transfers
  import opened Purchases

  const MAX_PRICE_CENTS := 10000000

  datatype Funding =
    | FromCredit(listPrice: Option<int>)
    | FromReceipt(provider: Provider, payment: nat, paidCents: int, feeCents: int, direct: bool, quoted: int, until: Option<Millis>)

  datatype PayArgs = PayArgs(
    subscriber: Subject, streamer: Subject, tier: Option<nat>, price: Option<int>, autoRenew: Option<bool>,
    funding: Funding, intent: Option<nat>, key: Key, source: Option<nat>)

  function FindPair(subs: seq<Sub>, subscriber: Subject, streamer: Subject): (r: Option<nat>)
    ensures r.Some? ==> r.value < |subs| && subs[r.value].subscriber == subscriber && subs[r.value].streamer == streamer
    ensures r.None? ==> forall i :: 0 <= i < |subs| ==> subs[i].subscriber != subscriber || subs[i].streamer != streamer
  {
    if subs == [] then None
    else
      var r := FindPair(subs[..|subs| - 1], subscriber, streamer);
      if r.Some? then r
      else if subs[|subs| - 1].subscriber == subscriber && subs[|subs| - 1].streamer == streamer then Some(|subs| - 1)
      else None
  }

  function Prior(s: State, a: PayArgs): Option<Sub>
  {
    var i := FindPair(s.subs, a.subscriber, a.streamer);
    if i.Some? then Some(s.subs[i.value]) else None
  }

  function TierOf(prior: Option<Sub>, a: PayArgs): nat
  {
    if a.tier.Some? then a.tier.value else if prior.Some? then prior.value.tier else 1
  }

  function PriceOf(cfg: Config, s: State, a: PayArgs, prior: Option<Sub>): Result<int, Error>
  {
    var sameTier := prior.None? || prior.value.tier == TierOf(prior, a);
    if a.price.Some? then if PositiveInt(a.price.value, MAX_PRICE_CENTS) then Ok(a.price.value) else Err(InvalidAmount)
    else
      match a.funding
      case FromCredit(listPrice) =>
        if prior.Some? && !sameTier && (prior.value.status == Active || prior.value.status == PastDue) && prior.value.periodEnd > s.clock
        then Err(TierChange)
        else if listPrice.None? then Err(TierUnknown) else Ok(listPrice.value)
      case FromReceipt(_, _, _, _, _, quoted, _) =>
        if quoted > 0 then Ok(quoted)
        else if prior.Some? && sameTier && prior.value.priceCents != 0 then Ok(prior.value.priceCents)
        else Ok(cfg.subPriceCents)
  }

  datatype Funds = Funds(entries: seq<Entry>, meta: Meta)

  function Cost(cfg: Config, price: int): int { BitsForValueCents(cfg, price) }

  function Share(cfg: Config, price: int): int { Min(Cost(cfg, price), SubShareBits(cfg, price)) }

  function FundsOf(cfg: Config, s: State, a: PayArgs, price: int): Result<Funds, Error>
  {
    match a.funding
    case FromCredit(_) =>
      var cost, share := Cost(cfg, price), Share(cfg, price);
      if Bal(s.ledger, CreditOf(a.subscriber)) < cost then Err(InsufficientFunds)
      else
        Ok(Funds([ Entry(CreditOf(a.subscriber), -cost), Entry(PayableOf(a.streamer), share), Entry(RevenueIn(Bits), cost - share) ],
                 CreditPeriodMeta(cost, share, a.intent)))
    case FromReceipt(p, _, paid, fee, direct, _, _) =>
      if !PositiveInt(paid, MAX_RECEIPT_CENTS) then Err(InvalidAmount)
      else if direct then Ok(Funds([], ReceiptPeriodMeta(paid, 0, a.intent)))
      else
        var share := SubShareBits(cfg, Max(0, paid - Max(0, fee)));
        if ValueCents(cfg, share) > paid then Err(Overcredit)
        else Ok(Funds(ReceiptEntries(cfg, p, paid, share, PayableOf(a.streamer)), ReceiptPeriodMeta(paid, share, a.intent)))
  }

  function PaymentRef(f: Funding): Option<ReceiptRef>
  {
    if f.FromReceipt? then Some(Payment(f.provider, f.payment)) else None
  }

  function PeriodTxn(cfg: Config, a: PayArgs, f: Funds): Txn
  {
    Txn(Subscription, a.key, f.entries, None, Some(a.subscriber), Some(a.streamer),
        if a.funding.FromReceipt? then Some(Gateway(a.funding.provider)) else None,
        PaymentRef(a.funding), a.source, f.meta, cfg.bitsPerUsd)
  }

  function PeriodStart(s: State, prior: Option<Sub>): Millis
  {
    if prior.Some? && prior.value.periodEnd > s.clock then prior.value.periodEnd else s.clock
  }

  function PeriodEndOf(cfg: Config, a: PayArgs, start: Millis): Millis
  {
    if a.funding.FromReceipt? && a.funding.until.Some? then Max(a.funding.until.value, start + 1) else start + cfg.subPeriod
  }

  function Renewed(cfg: Config, s: State, a: PayArgs, prior: Option<Sub>, price: int): Sub
  {
    var renew := if a.autoRenew.Some? then a.autoRenew.value else if prior.Some? then prior.value.autoRenew else a.funding.FromCredit?;
    Sub(a.subscriber, a.streamer, TierOf(prior, a), if a.funding.FromReceipt? then Some(a.funding.provider) else None,
        Active, renew, false, price, PeriodEndOf(cfg, a, PeriodStart(s, prior)), None)
  }

  /** The subscription row and the period that a posted payment writes. */
  function Granted(cfg: Config, s: State, a: PayArgs, price: int, txn: nat): State
  {
    var found := FindPair(s.subs, a.subscriber, a.streamer);
    var prior := Prior(s, a);
    var row := Renewed(cfg, s, a, prior, price);
    var sub := if found.Some? then found.value else |s.subs|;
    var period := Period(a.subscriber, a.streamer, sub, PeriodStart(s, prior), row.periodEnd, txn, None);
    s.(subs := if found.Some? then s.subs[sub := row] else s.subs + [row], periods := s.periods + [period])
  }

  method WriteGrant(cfg: Config, db: Db, a: PayArgs, price: int, txn: nat)
    modifies db`subs, db`periods
    ensures db.View() == Granted(cfg, old(db.View()), a, price, txn)
  {
    var found := FindPair(db.subs, a.subscriber, a.streamer);
    var prior := if found.Some? then Some(db.subs[found.value]) else None;
    var start := if prior.Some? && prior.value.periodEnd > db.clock then prior.value.periodEnd else db.clock;
    var end := PeriodEndOf(cfg, a, start);
    var renew := if a.autoRenew.Some? then a.autoRenew.value else if prior.Some? then prior.value.autoRenew else a.funding.FromCredit?;
    var row := Sub(a.subscriber, a.streamer, TierOf(prior, a), if a.funding.FromReceipt? then Some(a.funding.provider) else None,
                   Active, renew, false, price, end, None);
    var sub := |db.subs|;
    if found.Some? {
      sub := found.value;
      db.subs := db.subs[sub := row];
    } else {
      db.subs := db.subs + [row];
    }
    db.periods := db.periods + [Period(a.subscriber, a.streamer, sub, start, end, txn, None)];
  }

  function Pay(cfg: Config, s: State, a: PayArgs): Step<Outcome>
  {
    if a.subscriber == a.streamer then Fail(SelfDealing)
    else
      var existing := FindKey(s.ledger.journal, a.key);
      if existing.Some? then Done(s, Outcome(existing.value, true))
      else
        var dup := if a.funding.FromReceipt? then FindReceipt(s.ledger.journal, PaymentRef(a.funding).value) else None;
        if dup.Some? then Done(s, Outcome(dup.value, true))
        else
          match PriceOf(cfg, s, a, Prior(s, a))
          case Err(e) => Fail(e)
          case Ok(price) =>
            match FundsOf(cfg, s, a, price)
            case Err(e) => Fail(e)
            case Ok(f) =>
              match PostOn(s, PeriodTxn(cfg, a, f))
              case Fail(e) => Fail(e)
              case Done(s', o) => Done(MarkSettled(Granted(cfg, s', a, price, o.txn), a.intent, o.txn), Outcome(o.txn, false))
  }

  method PayPeriod(cfg: Config, db: Db, a: PayArgs) returns (r: Result<Outcome, Error>)
    modifies db
    ensures db.Answers(old(db.View()), Pay(cfg, old(db.View()), a), r)
  {
    hide FundsOf, PriceOf, Granted, Post;
    if a.subscriber == a.streamer { return Err(SelfDealing); }
    var existing := FindKey(db.journal, a.key);
    if existing.Some? { return Ok(Outcome(existing.value, true)); }
    if a.funding.FromReceipt? {
      var dup := FindReceipt(db.journal, PaymentRef(a.funding).value);
      if dup.Some? { return Ok(Outcome(dup.value, true)); }
    }
    var found := FindPair(db.subs, a.subscriber, a.streamer);
    var price, funds := PriceAndFunds(cfg, db, a, if found.Some? then Some(db.subs[found.value]) else None);
    if funds.Err? { return Err(funds.error); }
    var posted := db.Post(PeriodTxn(cfg, a, funds.value));
    if posted.Err? { return posted; }
    WriteGrant(cfg, db, a, price, posted.value.txn);
    if a.intent.Some? && a.intent.value < |db.intents| {
      db.intents := db.intents[a.intent.value := SettledIntent(db.intents[a.intent.value], posted.value.txn)];
    }
    r := Ok(Outcome(posted.value.txn, false));
  }

  method PriceAndFunds(cfg: Config, db: Db, a: PayArgs, prior: Option<Sub>) returns (price: int, funds: Result<Funds, Error>)
    ensures match PriceOf(cfg, db.View(), a, prior)
      case Err(e) => funds == Err(e)
      case Ok(p) => price == p && funds == FundsOf(cfg, db.View(), a, p)
  {
    price := 0;
    var sameTier := prior.None? || prior.value.tier == TierOf(prior, a);
    if a.price.Some? {
      if !PositiveInt(a.price.value, MAX_PRICE_CENTS) { return 0, Err(InvalidAmount); }
      price := a.price.value;
    } else if a.funding.FromCredit? {
      if prior.Some? && !sameTier && (prior.value.status == Active || prior.value.status == PastDue) && prior.value.periodEnd > db.clock {
        return 0, Err(TierChange);
      }
      if a.funding.listPrice.None? { return 0, Err(TierUnknown); }
      price := a.funding.listPrice.value;
    } else if a.funding.quoted > 0 {
      price := a.funding.quoted;
    } else {
      price := if prior.Some? && sameTier && prior.value.priceCents != 0 then prior.value.priceCents else cfg.subPriceCents;
    }
    if a.funding.FromCredit? {
      var cost, share := Cost(cfg, price), Share(cfg, price);
      var enough := db.Holds(CreditOf(a.subscriber), cost);
      if !enough { return price, Err(InsufficientFunds); }
      funds := Ok(Funds([ Entry(CreditOf(a.subscriber), -cost), Entry(PayableOf(a.streamer), share), Entry(RevenueIn(Bits), cost - share) ],
                        CreditPeriodMeta(cost, share, a.intent)));
    } else {
      var paid := a.funding.paidCents;
      if !PositiveInt(paid, MAX_RECEIPT_CENTS) { return price, Err(InvalidAmount); }
      if a.funding.direct { return price, Ok(Funds([], ReceiptPeriodMeta(paid, 0, a.intent))); }
      var share := SubShareBits(cfg, Max(0, paid - Max(0, a.funding.feeCents)));
      if ValueCents(cfg, share) > paid { return price, Err(Overcredit); }
      funds := Ok(Funds(ReceiptEntries(cfg, a.funding.provider, paid, share, PayableOf(a.streamer)), ReceiptPeriodMeta(paid, share, a.intent)));
    }
  }

  // ------------------------------------------------------------------ ending, and a failed renewal

  /** setStatus: end a subscription, unless its period end moved on since it was read. */
  function SetStatus(s: State, i: nat, status: SubStatus, guard: Option<Millis>): State
    requires status == Expired || status == Canceled
  {
    if i >= |s.subs| || s.subs[i].status == status || (guard.Some? && s.subs[i].periodEnd != guard.value) then s
    else s.(subs := s.subs[i := s.subs[i].(status := status, autoRenew := false, graceUntil := None)])
  }

  method EndSubscription(db: Db, i: nat, status: SubStatus, guard: Option<Millis>)
    requires status == Expired || status == Canceled
    modifies db`subs
    ensures db.View() == SetStatus(old(db.View()), i, status, guard)
  {
    if i >= |db.subs| || db.subs[i].status == status { return; }
    if guard.Some? && db.subs[i].periodEnd != guard.value { return; }
    db.subs := db.subs[i := db.subs[i].(status := status, autoRenew := false, graceUntil := None)];
  }

  /** cancel: stop renewing at the period end. */
  function Cancel(s: State, i: nat): Step<bool>
  {
    if i >= |s.subs| then Fail(NotFound)
    else if s.subs[i].status != Active && s.subs[i].status != PastDue then Done(s, true)
    else Done(s.(subs := s.subs[i := s.subs[i].(cancelAtEnd := true, autoRenew := false)]), false)
  }

  method CancelAtPeriodEnd(db: Db, i: nat) returns (r: Result<bool, Error>)
    modifies db`subs
    ensures db.Answers(old(db.View()), Cancel(old(db.View()), i), r)
  {
    if i >= |db.subs| { return Err(NotFound); }
    if db.subs[i].status != Active && db.subs[i].status != PastDue { return Ok(true); }
    db.subs := db.subs[i := db.subs[i].(cancelAtEnd := true, autoRenew := false)];
    r := Ok(false);
  }

  function GraceEnd(cfg: Config, row: Sub): Millis
  {
    if row.graceUntil.Some? then row.graceUntil.value else row.periodEnd + cfg.renewalGrace
  }

  /** markPastDue: only while the row still is what the sweep read. */
  function MarkPastDue(cfg: Config, s: State, i: nat, row: Sub): State
  {
    if i >= |s.subs| || s.subs[i].status != row.status || s.subs[i].periodEnd != row.periodEnd then s
    else s.(subs := s.subs[i := s.subs[i].(status := PastDue, graceUntil := Some(GraceEnd(cfg, row)))])
  }

  method TurnPastDue(cfg: Config, db: Db, i: nat, row: Sub)
    modifies db`subs
    ensures db.View() == MarkPastDue(cfg, old(db.View()), i, row)
  {
    if i < |db.subs| && db.subs[i].status == row.status && db.subs[i].periodEnd == row.periodEnd {
      db.subs := db.subs[i := db.subs[i].(status := PastDue, graceUntil := Some(GraceEnd(cfg, row)))];
    }
  }

  // ------------------------------------------------------------------ revoking

  function RevokedRow(s: State, k: nat, reason: RevokeReason): State
    requires k < |s.periods| && s.periods[k].sub < |s.subs|
  {
    var ps := s.periods[k := s.periods[k].(revoked := Some(reason))];
    var i := s.periods[k].sub;
    var left := LastEnd(ps, i);
    var runs := left.Some? && left.value > s.clock;
    var row := s.subs[i];
    s.(periods := ps, subs := s.subs[i := row.(
      periodEnd := if left.Some? then left.value else s.clock,
      status := if runs then row.status else Expired,
      autoRenew := runs && row.autoRenew)])
  }

  /** revokeForTxn over the rows from `k` on. */
  function RevokeFrom(s: State, txn: nat, reason: RevokeReason, k: nat): State
    decreases |s.periods| - k
  {
    if k >= |s.periods| then s
    else if s.periods[k].sourceTxn == txn && s.periods[k].revoked.None? && s.periods[k].sub < |s.subs| then
      RevokeFrom(RevokedRow(s, k, reason), txn, reason, k + 1)
    else RevokeFrom(s, txn, reason, k + 1)
  }

  /** The standing periods of a payment, from row `k` on. */
  ghost function StandingOf(ps: seq<Period>, txn: nat, subs: nat, k: nat): set<int>
  {
    set m | k <= m < |ps| && ps[m].sourceTxn == txn && ps[m].revoked.None? && ps[m].sub < subs
  }

  lemma StandingNext(ps: seq<Period>, txn: nat, subs: nat, k: nat, p: Period)
    requires k < |ps| && p.revoked.Some?
    ensures var stands := ps[k].sourceTxn == txn && ps[k].revoked.None? && ps[k].sub < subs;
      |StandingOf(ps, txn, subs, k)| == |StandingOf(ps, txn, subs, k + 1)| + if stands then 1 else 0
    ensures StandingOf(ps[k := p], txn, subs, k + 1) == StandingOf(ps, txn, subs, k + 1)
  {
    if ps[k].sourceTxn == txn && ps[k].revoked.None? && ps[k].sub < subs {
      assert StandingOf(ps, txn, subs, k) == StandingOf(ps, txn, subs, k + 1) + {k};
    } else {
      assert StandingOf(ps, txn, subs, k) == StandingOf(ps, txn, subs, k + 1);
    }
  }

  lemma NoneStanding(ps: seq<Period>, txn: nat, subs: nat)
    ensures |StandingOf(ps, txn, subs, |ps|)| == 0
  {
    assert StandingOf(ps, txn, subs, |ps|) == {};
  }

  method RevokeForTxn(db: Db, txn: nat, reason: RevokeReason) returns (revoked: nat)
    modifies db`periods, db`subs
    ensures db.View() == RevokeFrom(old(db.View()), txn, reason, 0)
    ensures revoked == |StandingOf(old(db.periods), txn, |old(db.subs)|, 0)|
  {
    hide StandingOf, LastEnd;
    revoked := 0;
    var k := 0;
    while k < |db.periods|
      invariant k <= |db.periods| && |db.subs| == |old(db.subs)|
      invariant RevokeFrom(db.View(), txn, reason, k) == RevokeFrom(old(db.View()), txn, reason, 0)
      invariant revoked + |StandingOf(db.periods, txn, |db.subs|, k)| == |StandingOf(old(db.periods), txn, |old(db.subs)|, 0)|
      decreases |db.periods| - k
    {
      var p := db.periods[k];
      StandingNext(db.periods, txn, |db.subs|, k, p.(revoked := Some(reason)));
      if p.sourceTxn == txn && p.revoked.None? && p.sub < |db.subs| {
        db.periods := db.periods[k := p.(revoked := Some(reason))];
        var left := LastEnd(db.periods, p.sub);
        var runs := left.Some? && left.value > db.clock;
        var row := db.subs[p.sub];
        db.subs := db.subs[p.sub := row.(
          periodEnd := if left.Some? then left.value else db.clock,
          status := if runs then row.status else Expired,
          autoRenew := runs && row.autoRenew)];
        revoked := revoked + 1;
      }
      k := k + 1;
    }
    NoneStanding(db.periods, txn, |db.subs|);
  }

  // ------------------------------------------------------------------ the renewal key

  /** The keys 0..n-1 of a family that are all in the journal are at most as many as its transactions. */
  lemma FamilyBound(j: seq<Txn>, sub: nat, end: Millis, n: nat)
    requires forall m: nat :: m < n ==> KeyReversed(j, Renewal(sub, end, m))
    ensures n <= |j|
  {
    var family := set m: nat | m < n :: Renewal(sub, end, m);
    var keys := set i | 0 <= i < |j| :: j[i].key;
    FamilySize(sub, end, n);
    KeyCount(j);
    forall k | k in family ensures k in keys {
      var i :| 0 <= i < |j| && j[i].key == k && HasReversal(j, i);
    }
    Subset(family, keys);
  }

  lemma {:induction false} FamilySize(sub: nat, end: Millis, n: nat)
    ensures |set m: nat | m < n :: Renewal(sub, end, m)| == n
  {
    var f := set m: nat | m < n :: Renewal(sub, end, m);
    if n == 0 {
      assert f == {};
    } else {
      FamilySize(sub, end, n - 1);
      var g := set m: nat | m < n - 1 :: Renewal(sub, end, m);
      assert f == g + {Renewal(sub, end, n - 1)};
    }
  }

  lemma {:induction false} KeyCount(j: seq<Txn>)
    ensures |set i | 0 <= i < |j| :: j[i].key| <= |j|
  {
    var keys := set i | 0 <= i < |j| :: j[i].key;
    if j == [] {
      assert keys == {};
    } else {
      var init := j[..|j| - 1];
      KeyCount(init);
      assert keys == (set i | 0 <= i < |init| :: init[i].key) + {j[|j| - 1].key};
    }
  }

  lemma {:induction false} Subset<T>(a: set<T>, b: set<T>)
    requires a <= b
    ensures |a| <= |b|
    decreases a
  {
    if a != {} {
      var x :| x in a;
      Subset(a - {x}, b - {x});
    }
  }

  /** The first attempt whose charge is missing or stands: what renewalKey's search stops at. */
  function Attempt(j: seq<Txn>, sub: nat, end: Millis, k: nat): (r: nat)
    requires forall m: nat :: m < k ==> KeyReversed(j, Renewal(sub, end, m))
    ensures !KeyReversed(j, Renewal(sub, end, r))
    ensures forall m: nat :: m < r ==> KeyReversed(j, Renewal(sub, end, m))
    decreases |j| + 1 - k
  {
    FamilyBound(j, sub, end, k);
    if KeyReversed(j, Renewal(sub, end, k)) then Attempt(j, sub, end, k + 1) else k
  }

  lemma KeyReversedFound(j: seq<Txn>, key: Key)
    requires Unique(j)
    ensures KeyReversed(j, key) <==> FindKey(j, key).Some? && HasReversal(j, FindKey(j, key).value)
  {
    hide HasReversal;
  }

  method RenewalKey(db: Db, sub: nat, end: Millis) returns (key: Key)
    requires Unique(db.journal)
    ensures key == Renewal(sub, end, Attempt(db.journal, sub, end, 0))
  {
    hide KeyReversed, HasReversal, Unique;
    var j := db.journal;
    var k := 0;
    while true
      invariant forall m: nat :: m < k ==> KeyReversed(j, Renewal(sub, end, m))
      invariant Attempt(j, sub, end, k) == Attempt(j, sub, end, 0)
      decreases |j| + 1 - k
    {
      FamilyBound(j, sub, end, k);
      key := Renewal(sub, end, k);
      KeyReversedFound(j, key);
      var txn := FindKey(j, key);
      if txn.None? || !HasReversal(j, txn.value) {
        return;
      }
      k := k + 1;
    }
  }

  // ------------------------------------------------------------------ the sweep

  function RenewArgs(cfg: Config, row: Sub, key: Key): PayArgs
  {
    PayArgs(row.subscriber, row.streamer, None, Some(if row.priceCents != 0 then row.priceCents else cfg.subPriceCents),
            Some(true), FromCredit(None), None, key, None)
  }

  /** One subscription of the sweep, from the row it read when the sweep began. */
  function SweepOne(cfg: Config, s: State, i: nat, row: Sub): Step<()>
  {
    if row.byProvider == Some(Stripe) then
      Done(if s.clock - row.periodEnd < cfg.stripeGrace then s else SetStatus(s, i, Expired, None), ())
    else if row.cancelAtEnd || !row.autoRenew then
      Done(SetStatus(s, i, if row.cancelAtEnd then Canceled else Expired, None), ())
    else if row.status == PastDue && (row.graceUntil.None? || s.clock >= row.graceUntil.value) then
      Done(SetStatus(s, i, Expired, Some(row.periodEnd)), ())
    else
      match Pay(cfg, s, RenewArgs(cfg, row, Renewal(i, row.periodEnd, Attempt(s.ledger.journal, i, row.periodEnd, 0))))
      case Done(s', _) => Done(s', ())
      case Fail(e) =>
        if e != InsufficientFunds then Fail(e)
        else if cfg.renewalGrace > 0 && s.clock < GraceEnd(cfg, row) then Done(MarkPastDue(cfg, s, i, row), ())
        else Done(SetStatus(s, i, Expired, Some(row.periodEnd)), ())
  }

  predicate IsDue(row: Sub, now: Millis) { (row.status == Active || row.status == PastDue) && row.periodEnd <= now }

  function DueIds(subs: seq<Sub>, now: Millis): (r: seq<nat>)
    ensures forall i :: i in r <==> 0 <= i < |subs| && IsDue(subs[i], now)
    ensures NoRepeat(r)
  {
    if subs == [] then []
    else
      var r := DueIds(subs[..|subs| - 1], now);
      assert forall k :: 0 <= k < |r| ==> r[k] in r;
      assert forall i :: i in r <==> 0 <= i < |subs| - 1 && IsDue(subs[i], now);
      if IsDue(subs[|subs| - 1], now) then r + [|subs| - 1] else r
  }

  function Ends(subs: seq<Sub>): seq<int> { seq(|subs|, k requires 0 <= k < |subs| => subs[k].periodEnd) }

  /** The rows the sweep reads: due ones, the earliest end first, at most `limit`; all of them when they are fewer. */
  function Due(subs: seq<Sub>, now: Millis, limit: nat): (r: seq<nat>)
    ensures forall k :: 0 <= k < |r| ==>
      r[k] < |subs| && (subs[r[k]].status == Active || subs[r[k]].status == PastDue) && subs[r[k]].periodEnd <= now
    ensures |r| <= limit && NoRepeat(r) && Within(r, |subs|) && Ascending(r, Ends(subs))
    ensures |r| < limit ==> forall i :: 0 <= i < |subs| && (subs[i].status == Active || subs[i].status == PastDue) && subs[i].periodEnd <= now ==> i in r
  {
    var due := DueIds(subs, now);
    assert Within(due, |subs|) by { assert forall k :: 0 <= k < |due| ==> due[k] in due; }
    SortByKeeps(due, Ends(subs));
    var ids := SortBy(due, Ends(subs));
    assert forall k :: 0 <= k < |ids| ==> ids[k] in ids && ids[k] in due;
    if |ids| <= limit then ids else ids[..limit]
  }

  /** The sweep over the ids from `k` on, with the rows as they were read; a failure stops it. */
  function SweepFrom(cfg: Config, s: State, rows: seq<Sub>, ids: seq<nat>, k: nat): State
    requires forall m :: 0 <= m < |ids| ==> ids[m] < |rows|
    decreases |ids| - k
  {
    if k >= |ids| then s
    else
      match SweepOne(cfg, s, ids[k], rows[ids[k]])
      case Fail(_) => s
      case Done(s', _) => SweepFrom(cfg, s', rows, ids, k + 1)
  }

  /** The failure that stops the sweep, if one does. */
  function SweepStop(cfg: Config, s: State, rows: seq<Sub>, ids: seq<nat>, k: nat): Option<Error>
    requires forall m :: 0 <= m < |ids| ==> ids[m] < |rows|
    decreases |ids| - k
  {
    if k >= |ids| then None
    else
      match SweepOne(cfg, s, ids[k], rows[ids[k]])
      case Fail(e) => Some(e)
      case Done(s', _) => SweepStop(cfg, s', rows, ids, k + 1)
  }

  method Sweep(cfg: Config, db: Db, limit: nat) returns (failed: Option<Error>)
    requires Valid(cfg) && Inv(cfg, db.View())
    modifies db
    ensures db.View() == SweepFrom(cfg, old(db.View()), old(db.subs), Due(old(db.subs), old(db.clock), limit), 0)
    ensures failed == SweepStop(cfg, old(db.View()), old(db.subs), Due(old(db.subs), old(db.clock), limit), 0)
    ensures Inv(cfg, db.View())
  {
    hide Inv, Valid, SweepOne, Due, RowOk;
    var ids := Due(db.subs, db.clock, limit);
    var rows := db.subs;
    ghost var start := db.View();
    failed := None;
    for k := 0 to |ids|
      invariant Inv(cfg, db.View()) && db.clock == start.clock && PairsKept(rows, db.subs)
      invariant SweepFrom(cfg, db.View(), rows, ids, k) == SweepFrom(cfg, start, rows, ids, 0)
      invariant SweepStop(cfg, db.View(), rows, ids, k) == SweepStop(cfg, start, rows, ids, 0)
    {
      RowsOk(cfg, start, ids[k]);
      SweepOneKeeps(cfg, db.View(), ids[k], rows[ids[k]]);
      UniqueOf(cfg, db.View());
      var r := SweepRow(cfg, db, ids[k], rows[ids[k]]);
      if r.Err? {
        return Some(r.error);
      }
    }
  }

  lemma RowsOk(cfg: Config, s: State, i: nat)
    requires Inv(cfg, s) && i < |s.subs|
    ensures RowOk(cfg, s.subs[i])
  {
  }

  lemma ReadPair(cfg: Config, s: State, r: SweepRead)
    requires Inv(cfg, s) && r in s.sweeps
    ensures r.sub < |s.subs| && SamePair(r.row, s.subs[r.sub]) && r.row.periodEnd <= s.clock
  {
  }

  lemma UniqueOf(cfg: Config, s: State)
    requires Inv(cfg, s)
    ensures Unique(s.ledger.journal)
  {
  }

  method SweepRow(cfg: Config, db: Db, i: nat, row: Sub) returns (r: Result<(), Error>)
    requires Unique(db.journal)
    modifies db
    ensures db.Answers(old(db.View()), SweepOne(cfg, old(db.View()), i, row), r)
  {
    hide Pay, Attempt, Unique, SetStatus, MarkPastDue, GraceEnd;
    r := Ok(());
    if row.byProvider == Some(Stripe) {
      if db.clock - row.periodEnd >= cfg.stripeGrace { EndSubscription(db, i, Expired, None); }
      return;
    }
    if row.cancelAtEnd || !row.autoRenew {
      EndSubscription(db, i, if row.cancelAtEnd then Canceled else Expired, None);
      return;
    }
    if row.status == PastDue && (row.graceUntil.None? || db.clock >= row.graceUntil.value) {
      EndSubscription(db, i, Expired, Some(row.periodEnd));
      return;
    }
    var key := RenewalKey(db, i, row.periodEnd);
    var paid := PayPeriod(cfg, db, RenewArgs(cfg, row, key));
    if paid.Err? {
      if paid.error != InsufficientFunds { return Err(paid.error); }
      if cfg.renewalGrace > 0 && db.clock < GraceEnd(cfg, row) {
        TurnPastDue(cfg, db, i, row);
      } else {
        EndSubscription(db, i, Expired, Some(row.periodEnd));
      }
    }
  }

  // ------------------------------------------------------------------ what they keep

  /** Parts of the invariant that do not read subscriptions, periods or sweeps. */
  lemma SubsApart(cfg: Config, s: State, s': State)
    requires s' == s.(subs := s'.subs, periods := s'.periods, sweeps := s'.sweeps)
    ensures PayoutsOk(cfg, s) ==> PayoutsOk(cfg, s')
    ensures PromoOk(cfg, s) ==> PromoOk(cfg, s')
    ensures RatingOk(s) ==> RatingOk(s')
    ensures VibesOk(cfg, s) ==> VibesOk(cfg, s')
    ensures HoldRowsOk(s) ==> HoldRowsOk(s')
    ensures s'.sweeps == s.sweeps && PeriodsExtend(s.periods, s'.periods) && RenewalsOk(s) ==> RenewalsOk(s')
    ensures s'.periods == s.periods && PeriodsCharged(s) ==> PeriodsCharged(s')
  {
    hide PayoutsOk, PeriodsCharged, SubsOk, RenewalsOk, PromoOk, RatingOk, VibesOk, HoldRowsOk, PeriodsExtend;
    Frame(cfg, s, s');
    if s'.sweeps == s.sweeps && PeriodsExtend(s.periods, s'.periods) && RenewalsOk(s) { RenewalsFrame(s, s'); }
  }

  lemma {:induction false} LastEndOther(ps: seq<Period>, k: nat, p: Period, i: nat)
    requires k < |ps| && p.sub == ps[k].sub && i != p.sub
    ensures LastEnd(ps[k := p], i) == LastEnd(ps, i)
  {
    var n := |ps| - 1;
    if k == n {
      assert ps[k := p][..n] == ps[..n];
    } else {
      assert ps[k := p][..n] == ps[..n][k := p];
      LastEndOther(ps[..n], k, p, i);
    }
  }

  /** Revoking a period never moves the last end later. */
  lemma {:induction false} LastEndRevoked(ps: seq<Period>, k: nat, p: Period)
    requires k < |ps| && p == ps[k].(revoked := p.revoked) && p.revoked.Some?
    ensures LastEnd(ps[k := p], p.sub).Some? ==>
      LastEnd(ps, p.sub).Some? && LastEnd(ps[k := p], p.sub).value <= LastEnd(ps, p.sub).value
  {
    var n := |ps| - 1;
    if k == n {
      assert ps[k := p][..n] == ps[..n];
    } else {
      assert ps[k := p][..n] == ps[..n][k := p];
      LastEndRevoked(ps[..n], k, p);
    }
  }

  lemma {:induction false} LastEndBounds(ps: seq<Period>, i: nat, k: nat)
    requires k < |ps| && ps[k].sub == i && ps[k].revoked.None?
    ensures LastEnd(ps, i).Some? && ps[k].end <= LastEnd(ps, i).value
  {
    if k < |ps| - 1 { LastEndBounds(ps[..|ps| - 1], i, k); }
  }

  predicate Stands(p: Period, i: nat) { p.sub == i && p.revoked.None? }

  lemma {:induction false} LastEndAt(ps: seq<Period>, i: nat) returns (k: nat)
    requires LastEnd(ps, i).Some?
    ensures k < |ps| && Stands(ps[k], i) && ps[k].end == LastEnd(ps, i).value
  {
    var last := ps[|ps| - 1];
    var init := LastEnd(ps[..|ps| - 1], i);
    if Stands(last, i) && (init.None? || init.value <= last.end) {
      k := |ps| - 1;
    } else {
      k := LastEndAt(ps[..|ps| - 1], i);
    }
  }

  /** The last end is that of a standing period, none ends later, and it is missing when none stands. */
  lemma LastEndIs(ps: seq<Period>, i: nat)
    ensures LastEnd(ps, i).None? <==> forall k :: 0 <= k < |ps| ==> !Stands(ps[k], i)
    ensures LastEnd(ps, i).Some? ==> exists k :: 0 <= k < |ps| && Stands(ps[k], i) && ps[k].end == LastEnd(ps, i).value
    ensures forall k :: 0 <= k < |ps| && Stands(ps[k], i) ==> LastEnd(ps, i).Some? && ps[k].end <= LastEnd(ps, i).value
  {
    hide LastEnd;
    if LastEnd(ps, i).Some? { var k := LastEndAt(ps, i); }
    forall k | 0 <= k < |ps| && Stands(ps[k], i) ensures LastEnd(ps, i).Some? && ps[k].end <= LastEnd(ps, i).value {
      LastEndBounds(ps, i, k);
    }
  }

  lemma {:induction false} LastEndNone(ps: seq<Period>, i: nat)
    requires forall k :: 0 <= k < |ps| ==> ps[k].sub != i
    ensures LastEnd(ps, i).None?
  {
    if ps != [] { LastEndNone(ps[..|ps| - 1], i); }
  }

  lemma SetStatusKeeps(cfg: Config, s: State, i: nat, status: SubStatus, guard: Option<Millis>)
    requires Inv(cfg, s) && (status == Expired || status == Canceled)
    ensures Inv(cfg, SetStatus(s, i, status, guard))
  {
    hide JournalOk, NonNegative, PayoutsOk, PeriodsCharged, RenewalsOk, PromoOk, RatingOk, TotalsOk, VibesOk, HoldRowsOk, SubsOk;
    SetStatusSubs(cfg, s, i, status, guard);
    SubsApart(cfg, s, SetStatus(s, i, status, guard));
  }

  lemma SetStatusSubs(cfg: Config, s: State, i: nat, status: SubStatus, guard: Option<Millis>)
    requires SubsOk(cfg, s) && (status == Expired || status == Canceled)
    ensures SubsOk(cfg, SetStatus(s, i, status, guard))
  {
    hide LastEnd;
  }

  lemma CancelKeeps(cfg: Config, s: State, i: nat)
    requires Inv(cfg, s) && Cancel(s, i).Done?
    ensures Inv(cfg, Cancel(s, i).state)
  {
    hide JournalOk, NonNegative, PayoutsOk, PeriodsCharged, RenewalsOk, PromoOk, RatingOk, TotalsOk, VibesOk, HoldRowsOk, SubsOk;
    CancelSubs(cfg, s, i);
    SubsApart(cfg, s, Cancel(s, i).state);
  }

  lemma CancelSubs(cfg: Config, s: State, i: nat)
    requires SubsOk(cfg, s) && Cancel(s, i).Done?
    ensures SubsOk(cfg, Cancel(s, i).state)
  {
    hide LastEnd;
  }

  lemma MarkPastDueKeeps(cfg: Config, s: State, i: nat, row: Sub)
    requires Inv(cfg, s) && RowOk(cfg, row) && row.periodEnd <= s.clock
    requires row.status == Active || row.status == PastDue
    ensures Inv(cfg, MarkPastDue(cfg, s, i, row))
  {
    hide JournalOk, NonNegative, PayoutsOk, PeriodsCharged, RenewalsOk, PromoOk, RatingOk, TotalsOk, VibesOk, HoldRowsOk, SubsOk;
    MarkPastDueSubs(cfg, s, i, row);
    SubsApart(cfg, s, MarkPastDue(cfg, s, i, row));
  }

  lemma MarkPastDueSubs(cfg: Config, s: State, i: nat, row: Sub)
    requires SubsOk(cfg, s) && RowOk(cfg, row) && row.periodEnd <= s.clock && (row.status == Active || row.status == PastDue)
    ensures SubsOk(cfg, MarkPastDue(cfg, s, i, row))
  {
    hide LastEnd;
  }

  lemma RevokedSubs(cfg: Config, s: State, k: nat, reason: RevokeReason)
    requires SubsOk(cfg, s) && k < |s.periods|
    ensures SubsOk(cfg, RevokedRow(s, k, reason))
  {
    var s' := RevokedRow(s, k, reason);
    var p := s.periods[k].(revoked := Some(reason));
    LastEndRevoked(s.periods, k, p);
    forall i | 0 <= i < |s'.subs|
      ensures RowOk(cfg, s'.subs[i])
        && (LastEnd(s'.periods, i).Some? ==> s'.subs[i].periodEnd == LastEnd(s'.periods, i).value)
        && (s'.subs[i].status == PastDue ==> s'.subs[i].periodEnd <= s'.clock)
    {
      if i != p.sub { LastEndOther(s.periods, k, p, i); }
    }
  }

  lemma PeriodOfSub(cfg: Config, s: State, k: nat)
    requires SubsOk(cfg, s) && k < |s.periods|
    ensures s.periods[k].sub < |s.subs|
  {
  }

  lemma {:induction false} RevokeElsewhere(s: State, txn: nat, reason: RevokeReason, k: nat)
    ensures var s' := RevokeFrom(s, txn, reason, k); s' == s.(subs := s'.subs, periods := s'.periods)
    decreases |s.periods| - k
  {
    if k < |s.periods| {
      if s.periods[k].sourceTxn == txn && s.periods[k].revoked.None? && s.periods[k].sub < |s.subs| {
        RevokeElsewhere(RevokedRow(s, k, reason), txn, reason, k + 1);
      } else {
        RevokeElsewhere(s, txn, reason, k + 1);
      }
    }
  }

  /** Revoking for a reversed payment: the chain stays, and every one of its periods ends up revoked. */
  lemma {:induction false} RevokeFromKeeps(cfg: Config, s: State, txn: nat, reason: RevokeReason, k: nat)
    requires SubsOk(cfg, s)
    ensures var s' := RevokeFrom(s, txn, reason, k);
      && SubsOk(cfg, s')
      && s' == s.(subs := s'.subs, periods := s'.periods)
      && |s'.periods| == |s.periods|
      && (forall m :: 0 <= m < |s.periods| ==>
            && s'.periods[m] == s.periods[m].(revoked := s'.periods[m].revoked)
            && (s'.periods[m].revoked.None? <==> s.periods[m].revoked.None? && !(s.periods[m].sourceTxn == txn && m >= k)))
    decreases |s.periods| - k
  {
    hide SubsOk, LastEnd;
    if k < |s.periods| {
      PeriodOfSub(cfg, s, k);
      if s.periods[k].sourceTxn == txn && s.periods[k].revoked.None? {
        RevokedSubs(cfg, s, k, reason);
        RevokeFromKeeps(cfg, RevokedRow(s, k, reason), txn, reason, k + 1);
      } else {
        RevokeFromKeeps(cfg, s, txn, reason, k + 1);
      }
    }
  }

  // ------------------------------------------------------------------ paying

  lemma CreditFundsShape(cfg: Config, t: Txn, payer: Subject, streamer: Subject, cost: int, share: int)
    requires 0 <= share <= cost
    requires t.entries == [Entry(CreditOf(payer), -cost), Entry(PayableOf(streamer), share), Entry(RevenueIn(Bits), cost - share)]
    requires t.ty == Subscription && t.meta.CreditPeriodMeta? && t.meta.costBits == cost && t.meta.shareBits == share
    requires t.from.Some? && t.to.Some? && t.receipt.None? && t.source.None? && !t.key.Delivered? && t.bitsPerUsd == cfg.bitsPerUsd
    ensures Shape(cfg, t)
    ensures forall x: Account :: Guarded(x.kind) ==>
      Delta(t.entries, x) == if x == CreditOf(payer) then -cost else if x == PayableOf(streamer) then share else 0
    ensures !Touches(t, PayoutsPending) && !Touches(t, ProjectPayable) && !Touches(t, PromoCredit) && !Touches(t, PromoReserve)
  {
    hide FxMirror, PromoIsolated, PendingOwned, Touches;
    PlainEntries(t);
    Sums3(Entry(CreditOf(payer), -cost), Entry(PayableOf(streamer), share), Entry(RevenueIn(Bits), cost - share));
    NoFxMirrors(t);
  }

  lemma ReceiptFundsShape(cfg: Config, t: Txn, p: Provider, payment: nat, paid: int, share: int, streamer: Subject)
    requires paid > 0 && share >= 0
    requires t.entries == [] || t.entries == ReceiptEntries(cfg, p, paid, share, PayableOf(streamer))
    requires t.ty == Subscription && t.meta.ReceiptPeriodMeta? && t.meta.paidCents == paid
    requires t.receipt == Some(Payment(p, payment)) && t.provider == Some(Gateway(p)) && t.bitsPerUsd == cfg.bitsPerUsd
    requires KeyMatchesSource(t.key, t.source)
    ensures Shape(cfg, t)
    ensures forall x: Account :: Guarded(x.kind) ==> Delta(t.entries, x) >= 0
    ensures !Touches(t, PayoutsPending) && !Touches(t, ProjectPayable) && !Touches(t, PromoCredit) && !Touches(t, PromoReserve)
  {
    hide FxMirror, PromoIsolated, PendingOwned, Touches, ReceiptEntries, Cleared;
    if t.entries == [] {
      PlainEntries(t);
      NoFxMirrors(t);
    } else {
      ReceiptShape(cfg, t, p, paid, share, PayableOf(streamer));
      NothingPending(t);
    }
  }

  lemma FundsShape(cfg: Config, s: State, a: PayArgs, price: int)
    requires FundsOf(cfg, s, a, price).Ok? && KeyMatchesSource(a.key, a.source)
    requires a.funding.FromCredit? ==> a.source.None?
    ensures var t := PeriodTxn(cfg, a, FundsOf(cfg, s, a, price).value);
      && Shape(cfg, t)
      && (forall x: Account :: Guarded(x.kind) && Bal(s.ledger, x) >= 0 && a.subscriber != a.streamer ==> Bal(s.ledger, x) + Delta(t.entries, x) >= 0)
      && !Touches(t, PayoutsPending) && !Touches(t, ProjectPayable) && !Touches(t, PromoCredit) && !Touches(t, PromoReserve)
  {
    hide Shape, Touches, ReceiptEntries, Delta;
    var f := FundsOf(cfg, s, a, price).value;
    var t := PeriodTxn(cfg, a, f);
    match a.funding {
      case FromCredit(_) =>
        CreditFundsShape(cfg, t, a.subscriber, a.streamer, Cost(cfg, price), Share(cfg, price));
      case FromReceipt(p, payment, paid, fee, direct, _, _) =>
        ReceiptFundsShape(cfg, t, p, payment, paid, SubShareBits(cfg, Max(0, paid - Max(0, fee))), a.streamer);
    }
  }

  /** The row written is the pair's own, or a new pair's. */
  lemma GrantedPairs(cfg: Config, s: State, a: PayArgs, price: int, txn: nat)
    requires PairsOnce(s.subs)
    ensures var s' := Granted(cfg, s, a, price, txn); PairsOnce(s'.subs) && PairsKept(s.subs, s'.subs)
  {
    hide LastEnd, Renewed;
    RenewedPair(cfg, s, a, Prior(s, a), price);
  }

  lemma RenewedPair(cfg: Config, s: State, a: PayArgs, prior: Option<Sub>, price: int)
    ensures var row := Renewed(cfg, s, a, prior, price); row.subscriber == a.subscriber && row.streamer == a.streamer
  {
  }

  lemma GrantedSubs(cfg: Config, s: State, a: PayArgs, price: int, txn: nat)
    requires Valid(cfg) && SubsOk(cfg, s) && a.subscriber != a.streamer
    ensures SubsOk(cfg, Granted(cfg, s, a, price, txn))
  {
    GrantedPairs(cfg, s, a, price, txn);
    hide PairsOnce, Partition, ValidTiers;
    var s' := Granted(cfg, s, a, price, txn);
    var n := |s.periods|;
    assert s'.periods[..n] == s.periods;
    var p := s'.periods[n];
    forall k | 0 <= k < n && s.periods[k].sub == p.sub && s.periods[k].revoked.None?
      ensures s.periods[k].end <= p.start
    {
      LastEndBounds(s.periods, p.sub, k);
    }
    forall i | 0 <= i < |s'.subs|
      ensures RowOk(cfg, s'.subs[i])
        && (LastEnd(s'.periods, i).Some? ==> s'.subs[i].periodEnd == LastEnd(s'.periods, i).value)
        && (s'.subs[i].status == PastDue ==> s'.subs[i].periodEnd <= s'.clock)
    {
      if i == p.sub {
        if i >= |s.subs| { LastEndNone(s.periods, i); }
      }
    }
  }

  lemma GrantedCharged(cfg: Config, s: State, t: Txn, a: PayArgs, price: int)
    requires JournalOk(cfg, s.ledger) && PeriodsCharged(s) && Post(s.ledger, t).Posted? && t.ty == Subscription
    requires t.reverses.None?
    ensures var p := Post(s.ledger, t);
      PeriodsCharged(Granted(cfg, s.(ledger := p.ledger), a, price, p.txn))
  {
    hide Shape, Books, Post, HasReversal, LastEnd;
    BooksOf(cfg, s.ledger);
    var stored := Appended(s.ledger, t);
    HasReversalAppend(s.ledger.journal, stored);
    NotYetReverted(cfg, s.ledger);
  }

  /** Nothing reverses a transaction before it is posted. */
  lemma NotYetReverted(cfg: Config, l: Ledger)
    requires JournalOk(cfg, l)
    ensures !HasReversal(l.journal, |l.journal|)
  {
    hide Shape, Books;
  }

  /** A renewal's key names the subscription it pays for, and an end that has come. */
  ghost predicate RenewsPair(s: State, a: PayArgs)
  {
    a.key.Renewal? ==>
      && a.funding.FromCredit? && a.key.sub < |s.subs| && a.key.end <= s.clock
      && s.subs[a.key.sub].subscriber == a.subscriber && s.subs[a.key.sub].streamer == a.streamer
  }

  lemma PairFound(subs: seq<Sub>, i: nat)
    requires PairsOnce(subs) && i < |subs|
    ensures FindPair(subs, subs[i].subscriber, subs[i].streamer) == Some(i)
  {
  }

  /** A payment and its period: the charge has its earlier keys reversed, and its period if it is a renewal. */
  lemma RenewalPosted(cfg: Config, s: State, t: Txn, a: PayArgs, price: int)
    requires JournalOk(cfg, s.ledger) && RenewalsOk(s) && Post(s.ledger, t).Posted? && t.key == a.key && cfg.subPeriod > 0
    requires t.key.Renewal? ==> forall k: nat :: k < t.key.attempt ==> KeyReversed(s.ledger.journal, Renewal(t.key.sub, t.key.end, k))
    requires PairsOnce(s.subs) && RenewsPair(s, a)
    ensures RenewalsOk(Granted(cfg, s.(ledger := Post(s.ledger, t).ledger), a, price, Post(s.ledger, t).txn))
  {
    hide Shape, Post, PairsOnce, KeyReversed, JournalOk, RenewalGranted;
    BooksOf(cfg, s.ledger);
    var stored := Appended(s.ledger, t);
    KeyReversedAppend(s.ledger.journal, stored);
    var n := |s.ledger.journal|;
    var s2 := Granted(cfg, s.(ledger := Post(s.ledger, t).ledger), a, price, n);
    forall i | 0 <= i < n && s.ledger.journal[i].key.Renewal? ensures RenewalGranted(s.ledger.journal[i].key, s2.periods, i) {
      GrantedStays(s.ledger.journal[i].key, s.periods, s2.periods, i);
    }
    if a.key.Renewal? { NewlyGranted(cfg, s.(ledger := Post(s.ledger, t).ledger), a, price, n); }
  }

  lemma NewlyGranted(cfg: Config, s: State, a: PayArgs, price: int, txn: nat)
    requires cfg.subPeriod > 0 && a.key.Renewal? && PairsOnce(s.subs) && RenewsPair(s, a)
    ensures RenewalGranted(a.key, Granted(cfg, s, a, price, txn).periods, txn)
  {
    PairFound(s.subs, a.key.sub);
    assert Granted(cfg, s, a, price, txn).periods[|s.periods|].sourceTxn == txn;
  }

  lemma PayKeeps(cfg: Config, s: State, a: PayArgs)
    requires Valid(cfg) && Inv(cfg, s) && Pay(cfg, s, a).Done?
    requires PlainKey(a.key) || a.key.Renewal?
    requires KeyMatchesSource(a.key, a.source) && (a.funding.FromCredit? ==> a.source.None?)
    requires a.key.Renewal? ==> forall k: nat :: k < a.key.attempt ==> KeyReversed(s.ledger.journal, Renewal(a.key.sub, a.key.end, k))
    requires RenewsPair(s, a)
    ensures Inv(cfg, Pay(cfg, s, a).state)
  {
    hide JournalOk, PayoutsOk, PeriodsCharged, RenewalsOk, PromoOk, RatingOk, TotalsOk, VibesOk, HoldRowsOk, SubsOk, Touches, Shape, FundsOf, PriceOf, Granted, KeyReversed, Partition;
    if Pay(cfg, s, a).state != s {
      var price := PriceOf(cfg, s, a, Prior(s, a)).value;
      var f := FundsOf(cfg, s, a, price).value;
      var t := PeriodTxn(cfg, a, f);
      var p := Post(s.ledger, t);
      FundsMeta(cfg, s, a, price);
      FundsShape(cfg, s, a, price);
      PostKeeps(cfg, s, t);
      BooksOf(cfg, s.ledger);
      FundsKept(s.ledger, t);
      SubsPairs(cfg, s);
      RenewalPosted(cfg, s, t, a, price);
      var s1 := s.(ledger := p.ledger);
      GrantedCharged(cfg, s, t, a, price);
      GrantedSubs(cfg, s1, a, price, p.txn);
      var s2 := Granted(cfg, s1, a, price, p.txn);
      GrantedFrame(cfg, s1, a, price, p.txn);
      SubsApart(cfg, s1, s2);
      MarkKeeps(cfg, s2, a.intent, p.txn);
    }
  }

  lemma SubsPairs(cfg: Config, s: State)
    requires SubsOk(cfg, s)
    ensures PairsOnce(s.subs)
  {
  }

  lemma GrantedFrame(cfg: Config, s: State, a: PayArgs, price: int, txn: nat)
    ensures var s' := Granted(cfg, s, a, price, txn);
      s' == s.(subs := s'.subs, periods := s'.periods)
  {
  }

  lemma FundsMeta(cfg: Config, s: State, a: PayArgs, price: int)
    requires FundsOf(cfg, s, a, price).Ok?
    ensures var m := FundsOf(cfg, s, a, price).value.meta; m.CreditPeriodMeta? || m.ReceiptPeriodMeta?
  {
  }

  /** Rows stay where they are, for the same subscriber and streamer. */
  ghost predicate PairsKept(subs: seq<Sub>, later: seq<Sub>)
  {
    |subs| <= |later| && forall i :: 0 <= i < |subs| ==> SamePair(subs[i], later[i])
  }

  lemma SweepOneKeeps(cfg: Config, s: State, i: nat, row: Sub)
    requires Valid(cfg) && Inv(cfg, s) && RowOk(cfg, row) && IsDue(row, s.clock) && i < |s.subs| && SamePair(row, s.subs[i])
    ensures SweepOne(cfg, s, i, row).Done? ==>
      var s' := SweepOne(cfg, s, i, row).state; Inv(cfg, s') && s'.clock == s.clock && PairsKept(s.subs, s'.subs)
  {
    hide Inv, Pay, RowOk, Valid;
    SetStatusKeeps(cfg, s, i, Expired, None);
    SetStatusKeeps(cfg, s, i, Canceled, None);
    SetStatusKeeps(cfg, s, i, Expired, Some(row.periodEnd));
    MarkPastDueKeeps(cfg, s, i, row);
    var a := RenewArgs(cfg, row, Renewal(i, row.periodEnd, Attempt(s.ledger.journal, i, row.periodEnd, 0)));
    if Pay(cfg, s, a).Done? {
      PayKeeps(cfg, s, a);
      PayFrame(cfg, s, a);
    }
  }

  lemma PayFrame(cfg: Config, s: State, a: PayArgs)
    requires Pay(cfg, s, a).Done?
    ensures var s' := Pay(cfg, s, a).state; s'.clock == s.clock && PairsKept(s.subs, s'.subs)
  {
    hide Post, PriceOf, FundsOf, FindKey, FindReceipt, Renewed;
    forall s1: State, price: int ensures var row := Renewed(cfg, s1, a, Prior(s1, a), price); row.subscriber == a.subscriber && row.streamer == a.streamer {
      RenewedPair(cfg, s1, a, Prior(s1, a), price);
    }
  }

  // ------------------------------------------------------------------ a sweep split in two

  /** A sweep reads a due row and computes its key; the charge may come many steps later. */
  function ReadDue(s: State, i: nat): Step<SweepRead>
  {
    if i >= |s.subs| || !IsDue(s.subs[i], s.clock) then Fail(NotFound)
    else
      var read := SweepRead(i, s.subs[i], Attempt(s.ledger.journal, i, s.subs[i].periodEnd, 0));
      Done(s.(sweeps := s.sweeps + {read}), read)
  }

  function ChargeRead(cfg: Config, s: State, read: SweepRead): Step<Outcome>
  {
    Pay(cfg, s, RenewArgs(cfg, read.row, Renewal(read.sub, read.row.periodEnd, read.attempt)))
  }

  lemma ReadDueKeeps(cfg: Config, s: State, i: nat)
    requires Inv(cfg, s) && ReadDue(s, i).Done?
    ensures Inv(cfg, ReadDue(s, i).state)
  {
    hide JournalOk, NonNegative, PayoutsOk, PeriodsCharged, PromoOk, RatingOk, TotalsOk, VibesOk, HoldRowsOk;
    SubsApart(cfg, s, ReadDue(s, i).state);
  }

  lemma ChargeReadKeeps(cfg: Config, s: State, read: SweepRead)
    requires Valid(cfg) && Inv(cfg, s) && read in s.sweeps && ChargeRead(cfg, s, read).Done?
    ensures Inv(cfg, ChargeRead(cfg, s, read).state)
  {
    hide Pay, JournalOk, NonNegative, PayoutsOk, PeriodsCharged, PromoOk, RatingOk, TotalsOk, VibesOk, HoldRowsOk, SubsOk, Partition;
    ReadPair(cfg, s, read);
    PayKeeps(cfg, s, RenewArgs(cfg, read.row, Renewal(read.sub, read.row.periodEnd, read.attempt)));
  }

  /**
   * Of all the renewal charges ever made for one subscription and period end, at most one
   * stands: of any two, the earlier attempt is reversed.
   */
  lemma OneStandingCharge(cfg: Config, s: State, i: nat, k: nat)
    requires Inv(cfg, s)
    requires i < |s.ledger.journal| && k < |s.ledger.journal| && i != k
    requires s.ledger.journal[i].key.Renewal? && s.ledger.journal[k].key.Renewal?
    requires s.ledger.journal[i].key.sub == s.ledger.journal[k].key.sub && s.ledger.journal[i].key.end == s.ledger.journal[k].key.end
    ensures s.ledger.journal[i].key.attempt != s.ledger.journal[k].key.attempt
    ensures s.ledger.journal[i].key.attempt < s.ledger.journal[k].key.attempt ==> HasReversal(s.ledger.journal, i)
    ensures HasReversal(s.ledger.journal, i) || HasReversal(s.ledger.journal, k)
  {
    hide PayoutsOk, PeriodsCharged, PromoOk, RatingOk, TotalsOk, VibesOk, HoldRowsOk, SubsOk, Shape;
    var j := s.ledger.journal;
    assert j[i].key != j[k].key;
    var early, late := if j[i].key.attempt < j[k].key.attempt then i else k, if j[i].key.attempt < j[k].key.attempt then k else i;
    assert KeyReversed(j, Renewal(j[late].key.sub, j[late].key.end, j[early].key.attempt));
    var m :| 0 <= m < |j| && j[m].key == j[early].key && HasReversal(j, m);
    assert m == early;
  }
}
