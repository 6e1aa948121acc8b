/**
 * What every reachable state satisfies, one predicate for each part of the store, and
 * PostKeeps: which parts a single posting cannot disturb.
 */
module Invariants {
  import opened Basics
  import opened Schema
  import opened Journal
  import opened Rates
  import opened Common

  const DAY := 86400000

  // ------------------------------------------------------------------ the journal

  ghost predicate JournalOk(cfg: Config, l: Ledger)
  {
    && Books(l)
    && (forall i :: 0 <= i < |l.journal| ==> Shape(cfg, l.journal[i]))
    && (forall i :: 0 <= i < |l.journal| && l.journal[i].reverses.Some? ==> l.journal[i].reverses.value < i)
  }

  predicate Guarded(k: Kind) { k == UserCredit || k == CreatorPayable || k == ProjectPayable || k == PayoutsPending }

  ghost predicate NonNegative(l: Ledger)
  {
    forall a: Account :: Guarded(a.kind) ==> Bal(l, a) >= 0
  }

  // ------------------------------------------------------------------ cashouts

  function RequestedSum(cs: seq<Cashout>, p: Subject): int
  {
    if cs == [] then 0
    else
      var c := cs[|cs| - 1];
      RequestedSum(cs[..|cs| - 1], p) + (if c.subject == p && c.status == Requested then c.amount else 0)
  }

  ghost predicate PayoutsOk(cfg: Config, s: State)
  {
    && (forall p: Subject :: Bal(s.ledger, PendingOf(p)) == RequestedSum(s.cashouts, p))
    && (forall i :: 0 <= i < |s.cashouts| ==>
          && s.cashouts[i].amount > 0
          && s.cashouts[i].valueCents == ValueCents(cfg, s.cashouts[i].amount)
          && s.cashouts[i].requestTxn < |s.ledger.journal|
          && (s.cashouts[i].status == Paid ==> s.cashouts[i].payoutRef.Some? && s.cashouts[i].settleTxn.Some?))
  }

  // ------------------------------------------------------------------ subscriptions

  predicate HasReversal(j: seq<Txn>, i: nat)
  {
    exists k :: 0 <= k < |j| && IsReversal(j[k]) && j[k].reverses == Some(i)
  }

  /** A granted period rests on an unreversed subscription payment; a revoked one on a reversed payment. */
  ghost predicate PeriodsCharged(s: State)
  {
    && (forall k :: 0 <= k < |s.periods| ==>
          && s.periods[k].sourceTxn < |s.ledger.journal|
          && s.ledger.journal[s.periods[k].sourceTxn].ty == Subscription
          && (s.periods[k].revoked.None? <==> !HasReversal(s.ledger.journal, s.periods[k].sourceTxn)))
    && (forall k, m :: 0 <= k < m < |s.periods| ==> s.periods[k].sourceTxn != s.periods[m].sourceTxn)
  }

  /** The latest end of a subscription's unrevoked periods. */
  function LastEnd(ps: seq<Period>, sub: nat): Option<Millis>
  {
    if ps == [] then None
    else
      var r := LastEnd(ps[..|ps| - 1], sub);
      var p := ps[|ps| - 1];
      if p.sub == sub && p.revoked.None? then Some(if r.Some? then Max(r.value, p.end) else p.end) else r
  }

  predicate SamePair(a: Sub, b: Sub) { a.subscriber == b.subscriber && a.streamer == b.streamer }

  /** One subscription a subscriber and streamer. */
  ghost predicate PairsOnce(subs: seq<Sub>) { forall i, k :: 0 <= i < k < |subs| ==> !SamePair(subs[i], subs[k]) }

  ghost predicate RowOk(cfg: Config, row: Sub)
  {
    && (row.status == Active || row.status == Canceled ==> row.graceUntil.None?)
    && (row.status == PastDue ==> row.graceUntil == Some(row.periodEnd + cfg.renewalGrace))
  }

  ghost predicate SubsOk(cfg: Config, s: State)
  {
    && (forall k :: 0 <= k < |s.periods| ==>
          && s.periods[k].sub < |s.subs|
          && s.periods[k].start < s.periods[k].end
          && s.periods[k].subject == s.subs[s.periods[k].sub].subscriber
          && s.periods[k].scope == s.subs[s.periods[k].sub].streamer)
    && (forall k, m ::
          (0 <= k < m < |s.periods| && s.periods[k].sub == s.periods[m].sub
           && s.periods[k].revoked.None? && s.periods[m].revoked.None?)
          ==> s.periods[k].end <= s.periods[m].start)
    && PairsOnce(s.subs)
    && (forall i :: 0 <= i < |s.subs| ==>
          && RowOk(cfg, s.subs[i]) && s.subs[i].subscriber != s.subs[i].streamer
          && (LastEnd(s.periods, i).Some? ==> s.subs[i].periodEnd == LastEnd(s.periods, i).value)
          && (s.subs[i].status == PastDue ==> s.subs[i].periodEnd <= s.clock))
    && (forall r :: r in s.sweeps ==>
          && r.sub < |s.subs| && SamePair(r.row, s.subs[r.sub]) && RowOk(cfg, r.row) && r.row.periodEnd <= s.clock
          && (r.row.status == Active || r.row.status == PastDue))
  }

  predicate KeyReversed(j: seq<Txn>, key: Key)
  {
    exists i :: 0 <= i < |j| && j[i].key == key && HasReversal(j, i)
  }

  /** A renewal charge granted a period of its subscription that ends after the one it renews. */
  ghost predicate RenewalGranted(key: Key, ps: seq<Period>, txn: nat)
    requires key.Renewal?
  {
    exists k :: 0 <= k < |ps| && ps[k].sourceTxn == txn && ps[k].sub == key.sub && ps[k].end > key.end
  }

  /** Nothing but revocations changed the periods there were. */
  ghost predicate PeriodsExtend(ps: seq<Period>, later: seq<Period>)
  {
    |ps| <= |later| && forall k :: 0 <= k < |ps| ==> later[k] == ps[k].(revoked := later[k].revoked)
  }

  /** Every renewal charge, and every key a sweep computed, has all earlier keys of its family reversed. */
  ghost predicate RenewalsOk(s: State)
  {
    var j := s.ledger.journal;
    && (forall i, k: nat :: 0 <= i < |j| && j[i].key.Renewal? && k < j[i].key.attempt ==>
          KeyReversed(j, Renewal(j[i].key.sub, j[i].key.end, k)))
    && (forall i :: 0 <= i < |j| && j[i].key.Renewal? ==> RenewalGranted(j[i].key, s.periods, i))
    && (forall r, k: nat :: r in s.sweeps && k < r.attempt ==> KeyReversed(j, Renewal(r.sub, r.row.periodEnd, k)))
  }

  // ------------------------------------------------------------------ promo

  function Open(r: Allowance): int { r.granted - r.used - r.expired }

  function OpenOf(rows: seq<Allowance>, p: Subject): int
  {
    if rows == [] then 0
    else OpenOf(rows[..|rows| - 1], p) + (if rows[|rows| - 1].subject == p then Open(rows[|rows| - 1]) else 0)
  }

  function OpenAll(rows: seq<Allowance>): int
  {
    if rows == [] then 0 else OpenAll(rows[..|rows| - 1]) + Open(rows[|rows| - 1])
  }

  ghost predicate AllowanceOk(cfg: Config, r: Allowance)
  {
    && r.granted > 0 && r.used >= 0 && r.expired >= 0
    && r.used + r.expired <= r.granted
    && cfg.windowOf(r.reset, r.start) == Window(r.start, r.end)
  }

  ghost predicate HasKey(j: seq<Txn>, key: Key)
  {
    exists i :: 0 <= i < |j| && j[i].key == key
  }

  ghost predicate PromoOk(cfg: Config, s: State)
  {
    && (forall p: Subject :: Bal(s.ledger, PromoOf(p)) == OpenOf(s.allowances, p))
    && Bal(s.ledger, PROMO_RESERVE) == -OpenAll(s.allowances)
    && (forall i :: 0 <= i < |s.allowances| ==> AllowanceOk(cfg, s.allowances[i]))
    && (forall i: nat :: HasKey(s.ledger.journal, PromoLapseKey(i)) ==>
          i < |s.allowances| && s.allowances[i].end <= s.clock && Open(s.allowances[i]) == 0)
  }

  // ------------------------------------------------------------------ rating

  ghost predicate RatingOk(s: State)
  {
    && (forall i :: 0 <= i < |s.readings| && s.readings[i].rated.Some? ==>
          var r := s.readings[i].rated.value;
          r.promoBits >= 0 && r.charged >= 0 && r.promoBits + r.charged == r.gross)
    && (forall i: nat :: HasKey(s.ledger.journal, UsageKey(i)) || HasKey(s.ledger.journal, PromoDrawKey(i)) ==>
          i < |s.readings| && s.readings[i].rated.Some?)
  }

  // ------------------------------------------------------------------ reversals of receipts

  function ReversedCents(j: seq<Txn>, i: nat): int
  {
    if j == [] then 0
    else
      var t := j[|j| - 1];
      ReversedCents(j[..|j| - 1], i) + (if IsReversal(t) && t.reverses == Some(i) then ReversalCents(t.meta) else 0)
  }

  function ReversedBits(j: seq<Txn>, i: nat): int
  {
    if j == [] then 0
    else
      var t := j[|j| - 1];
      ReversedBits(j[..|j| - 1], i)
      + (if IsReversal(t) && t.reverses == Some(i) && t.meta.ReversalMeta? then t.meta.bitsReversed else 0)
  }

  function ReversedNano(j: seq<Txn>, i: nat): int
  {
    if j == [] then 0
    else
      var t := j[|j| - 1];
      ReversedNano(j[..|j| - 1], i)
      + (if IsReversal(t) && t.reverses == Some(i) && t.meta.TopupReversalMeta? then t.meta.clawedNano + t.meta.debtNano else 0)
  }

  function RefundedBits(j: seq<Txn>, i: nat): int
  {
    if j == [] then 0
    else
      var t := j[|j| - 1];
      RefundedBits(j[..|j| - 1], i) + (if t.ty == Refund && t.reverses == Some(i) && t.meta.GiftRefundMeta? then t.meta.refundedBits else 0)
  }

  /** A payment or a gift: what refunds give back of it is bounded. */
  predicate Returnable(m: Meta) { PaidCents(m) > 0 || m.GiftMeta? }

  /** Partial reversals telescope: what they undid is the rounded share of what they returned. */
  ghost predicate TotalsAt(j: seq<Txn>, i: nat)
    requires i < |j|
  {
    && (PaidCents(j[i].meta) > 0 ==>
          var paid := PaidCents(j[i].meta);
          var done := ReversedCents(j, i);
          && 0 <= done <= paid
          && (j[i].meta.PurchaseMeta? ==> ReversedBits(j, i) == RoundDiv(j[i].meta.bits * done, paid))
          && (j[i].meta.TopupMeta? ==> ReversedNano(j, i) == (j[i].meta.amountNano * done) / paid))
    && (j[i].meta.GiftMeta? ==> 0 <= RefundedBits(j, i) <= j[i].meta.amountBits)
  }

  ghost predicate TotalsOk(l: Ledger)
  {
    forall i :: 0 <= i < |l.journal| ==> TotalsAt(l.journal, i)
  }

  // ------------------------------------------------------------------ provider events

  ghost predicate EventsOk(s: State)
  {
    var j := s.ledger.journal;
    && (forall i :: 0 <= i < |j| && j[i].source.Some? ==>
          && j[i].source.value < |s.events|
          && s.events[j[i].source.value].effect == Some(Settled)
          && j[i].provider == Some(Gateway(s.events[j[i].source.value].provider)))
    && (forall e :: 0 <= e < |s.events| && s.events[e].effect == Some(Settled) ==>
          exists i :: 0 <= i < |j| && j[i].source == Some(e))
  }

  // ------------------------------------------------------------------ Vibes Pay

  /** Real charges of a project that are paid and not refunded. */
  function PaidInto(cs: seq<Charge>, project: nat): int
  {
    if cs == [] then 0
    else
      var c := cs[|cs| - 1];
      PaidInto(cs[..|cs| - 1], project) + (if c.project == project && !c.sandbox && c.status == ChargePaid then c.amount else 0)
  }

  function CashedOut(cs: seq<Cashout>, project: nat): int
  {
    if cs == [] then 0
    else
      var c := cs[|cs| - 1];
      CashedOut(cs[..|cs| - 1], project) + (if c.project == Some(project) then c.amount else 0)
  }

  /** A person's paid charges with `after < paidAt <= upto`; sandbox charges only when asked for. */
  function SpentIn(cs: seq<Charge>, p: Subject, after: Millis, upto: Millis, sandboxToo: bool): int
  {
    if cs == [] then 0
    else
      var c := cs[|cs| - 1];
      SpentIn(cs[..|cs| - 1], p, after, upto, sandboxToo)
      + (if c.payer == Some(p) && c.status == ChargePaid && (sandboxToo || !c.sandbox) && after < c.paidAt <= upto then c.amount else 0)
  }

  ghost predicate ChargeOk(s: State, i: nat)
    requires i < |s.charges|
  {
    var c := s.charges[i];
    && c.amount > 0
    && (HasKey(s.ledger.journal, ChargePaidKey(i)) <==> c.status == ChargePaid || c.status == ChargeRefunded)
    && (HasKey(s.ledger.journal, ChargeRefundKey(i)) <==> c.status == ChargeRefunded)
    && (c.status == ChargePaid || c.status == ChargeRefunded ==> c.payer.Some? && c.paidAt <= s.clock)
  }

  /** project_payable holds the project's real paid charges less all its cashouts. */
  ghost predicate WalletsOk(s: State)
  {
    forall project: nat :: Bal(s.ledger, WalletOf(project)) == PaidInto(s.charges, project) - CashedOut(s.cashouts, project)
  }

  /** Nobody's real charges of any 24 hours add up to more than the limit. */
  ghost predicate LimitKept(cfg: Config, cs: seq<Charge>)
  {
    forall p: Subject, after: Millis, upto: Millis :: upto <= after + DAY ==> SpentIn(cs, p, after, upto, false) <= Max(0, cfg.dailyVibes)
  }

  /** Each charge moved at most once each way, and no rolling day passes the limit. */
  ghost predicate ChargesOk(cfg: Config, s: State)
  {
    && (forall i :: 0 <= i < |s.charges| ==> ChargeOk(s, i))
    && (forall i: nat :: HasKey(s.ledger.journal, ChargePaidKey(i)) || HasKey(s.ledger.journal, ChargeRefundKey(i)) ==> i < |s.charges|)
    && LimitKept(cfg, s.charges)
  }

  ghost predicate VibesOk(cfg: Config, s: State)
  {
    WalletsOk(s) && ChargesOk(cfg, s)
  }

  // ------------------------------------------------------------------ Balance holds

  predicate IsOpen(h: Hold) { h.status == HoldActive || h.status == HoldExtended }

  function HeldOn(hs: seq<Hold>, a: Account): int
  {
    if hs == [] then 0
    else HeldOn(hs[..|hs| - 1], a) + (if hs[|hs| - 1].account == a && IsOpen(hs[|hs| - 1]) then hs[|hs| - 1].held else 0)
  }

  predicate Spendable(a: Account) { (a.kind == UsdCredit || a.kind == UsdCreditSandbox) && a.currency == Nano && a != SANDBOX_ISSUER }

  /** Open holds never exceed the balance they reserve. */
  ghost predicate Covered(s: State)
  {
    forall a: Account :: Spendable(a) ==> HeldOn(s.holds, a) <= Bal(s.ledger, a)
  }

  ghost predicate HoldRowsOk(s: State)
  {
    && (forall i :: 0 <= i < |s.holds| ==>
          && Spendable(s.holds[i].account) && s.holds[i].max >= 0
          && s.holds[i].held == (if IsOpen(s.holds[i]) then s.holds[i].max else 0))
    && (forall k :: 0 <= k < |s.settlements| ==>
          && s.settlements[k].hold < |s.holds| && s.holds[s.settlements[k].hold].status == HoldSettled
          && s.settlements[k].charge == s.settlements[k].collected + s.settlements[k].shortfall
          && s.settlements[k].collected >= 0 && s.settlements[k].shortfall >= 0
          && HasKey(s.ledger.journal, SettleKey(s.settlements[k].key)))
    && (forall k, m :: 0 <= k < m < |s.settlements| ==>
          s.settlements[k].hold != s.settlements[m].hold && s.settlements[k].key != s.settlements[m].key)
    && (forall key: nat :: HasKey(s.ledger.journal, SettleKey(key)) ==>
          exists k :: 0 <= k < |s.settlements| && s.settlements[k].key == key)
  }

  // ------------------------------------------------------------------ intents

  ghost predicate IntentsOk(s: State)
  {
    forall i :: 0 <= i < |s.intents| ==> s.intents[i].amountCents >= s.intents[i].topupCents
  }

  // ------------------------------------------------------------------ all of it

  /** Everything but the events and the cover of holds, which have conditions of their own. */
  ghost predicate Inv(cfg: Config, s: State)
  {
    && JournalOk(cfg, s.ledger)
    && NonNegative(s.ledger)
    && PayoutsOk(cfg, s)
    && PeriodsCharged(s)
    && SubsOk(cfg, s)
    && RenewalsOk(s)
    && PromoOk(cfg, s)
    && RatingOk(s)
    && TotalsOk(s.ledger)
    && VibesOk(cfg, s)
    && HoldRowsOk(s)
    && IntentsOk(s)
  }

  /** Every part but the ratings'. */
  ghost predicate InvBesideRating(cfg: Config, s: State)
  {
    && JournalOk(cfg, s.ledger)
    && NonNegative(s.ledger)
    && PayoutsOk(cfg, s)
    && PeriodsCharged(s)
    && SubsOk(cfg, s)
    && RenewalsOk(s)
    && PromoOk(cfg, s)
    && TotalsOk(s.ledger)
    && VibesOk(cfg, s)
    && HoldRowsOk(s)
    && IntentsOk(s)
  }

  lemma InvSplit(cfg: Config, s: State)
    ensures Inv(cfg, s) <==> InvBesideRating(cfg, s) && RatingOk(s)
  {
    hide JournalOk, NonNegative, PayoutsOk, PeriodsCharged, RenewalsOk, PromoOk, RatingOk, TotalsOk, VibesOk, HoldRowsOk, SubsOk, IntentsOk;
  }

  // ------------------------------------------------------------------ one posting

  lemma HasKeyAppend(j: seq<Txn>, t: Txn)
    ensures forall k :: HasKey(j + [t], k) <==> HasKey(j, k) || t.key == k
  {
    forall k ensures HasKey(j + [t], k) <==> HasKey(j, k) || t.key == k {
      if HasKey(j, k) {
        var i :| 0 <= i < |j| && j[i].key == k;
        assert (j + [t])[i].key == k;
      }
      if t.key == k { assert (j + [t])[|j|].key == k; }
    }
  }

  lemma HasReversalAppend(j: seq<Txn>, t: Txn)
    ensures forall i: nat :: HasReversal(j + [t], i) <==> HasReversal(j, i) || (IsReversal(t) && t.reverses == Some(i))
  {
    forall i: nat ensures HasReversal(j + [t], i) <==> HasReversal(j, i) || (IsReversal(t) && t.reverses == Some(i)) {
      if HasReversal(j, i) {
        var k :| 0 <= k < |j| && IsReversal(j[k]) && j[k].reverses == Some(i);
        assert (j + [t])[k] == j[k];
      }
      if IsReversal(t) && t.reverses == Some(i) { assert (j + [t])[|j|] == t; }
    }
  }

  lemma KeyReversedAppend(j: seq<Txn>, t: Txn)
    ensures forall k :: KeyReversed(j, k) ==> KeyReversed(j + [t], k)
  {
    HasReversalAppend(j, t);
    forall k | KeyReversed(j, k) ensures KeyReversed(j + [t], k) {
      var i :| 0 <= i < |j| && j[i].key == k && HasReversal(j, i);
      assert (j + [t])[i] == j[i];
    }
  }

  /** Nothing refers to a transaction before it is posted. */
  lemma {:induction false} NotYetReversed(j: seq<Txn>, i: nat)
    requires forall k :: 0 <= k < |j| && j[k].reverses.Some? ==> j[k].reverses.value < k
    requires |j| <= i
    ensures ReversedCents(j, i) == ReversedBits(j, i) == ReversedNano(j, i) == RefundedBits(j, i) == 0
  {
    if j != [] { NotYetReversed(j[..|j| - 1], i); }
  }

  /** The journal a posting leaves, in one place. */
  lemma Appended(l: Ledger, t: Txn) returns (stored: Txn)
    requires Books(l) && Post(l, t).Posted?
    ensures Post(l, t).ledger.journal == l.journal + [stored]
    ensures stored == t.(entries := stored.entries)
    ensures FindKey(l.journal, t.key).None?
    ensures Post(l, t).txn == |l.journal|
  {
    PostEffect(l, t);
    var j := Post(l, t).ledger.journal;
    stored := j[|l.journal|];
    assert j == j[..|l.journal|] + [stored];
  }

  lemma JournalKept(cfg: Config, l: Ledger, t: Txn)
    requires JournalOk(cfg, l) && Post(l, t).Posted? && Shape(cfg, t)
    requires t.reverses.Some? ==> t.reverses.value < |l.journal|
    ensures JournalOk(cfg, Post(l, t).ledger)
  {
    PostEffect(l, t);
    ShapeStored(cfg, l, t);
    var stored := Appended(l, t);
  }

  lemma AppendTotals(j: seq<Txn>, t: Txn, i: nat)
    ensures ReversedCents(j + [t], i) == ReversedCents(j, i) + (if IsReversal(t) && t.reverses == Some(i) then ReversalCents(t.meta) else 0)
    ensures ReversedBits(j + [t], i) == ReversedBits(j, i)
      + (if IsReversal(t) && t.reverses == Some(i) && t.meta.ReversalMeta? then t.meta.bitsReversed else 0)
    ensures ReversedNano(j + [t], i) == ReversedNano(j, i)
      + (if IsReversal(t) && t.reverses == Some(i) && t.meta.TopupReversalMeta? then t.meta.clawedNano + t.meta.debtNano else 0)
    ensures RefundedBits(j + [t], i) == RefundedBits(j, i)
      + (if t.ty == Refund && t.reverses == Some(i) && t.meta.GiftRefundMeta? then t.meta.refundedBits else 0)
  {
    assert (j + [t])[..|j|] == j;
  }

  lemma TotalsAtKept(j: seq<Txn>, t: Txn, i: nat)
    requires i < |j| && TotalsAt(j, i)
    requires !(IsReversal(t) && t.reverses == Some(i)) || !Returnable(j[i].meta)
    ensures TotalsAt(j + [t], i)
  {
    AppendTotals(j, t, i);
    assert (j + [t])[i] == j[i];
  }

  /** A new payment starts with nothing reversed. */
  lemma TotalsAtFresh(j: seq<Txn>, t: Txn)
    requires forall k :: 0 <= k < |j| && j[k].reverses.Some? ==> j[k].reverses.value < k
    requires t.reverses.Some? ==> t.reverses.value < |j|
    requires t.meta.GiftMeta? ==> t.meta.amountBits >= 0
    ensures TotalsAt(j + [t], |j|)
  {
    NotYetReversed(j, |j|);
    AppendTotals(j, t, |j|);
    assert (j + [t])[|j|] == t;
    if PaidCents(t.meta) > 0 {
      if t.meta.PurchaseMeta? { ZeroShare(t.meta.bits, 0, t.meta.paidCents); }
      if t.meta.TopupMeta? { ZeroShare(t.meta.amountNano, 0, t.meta.paidCents); }
    }
  }

  lemma TotalsKept(cfg: Config, l: Ledger, t: Txn)
    requires JournalOk(cfg, l) && TotalsOk(l) && Post(l, t).Posted?
    requires t.reverses.Some? ==> t.reverses.value < |l.journal|
    requires IsReversal(t) && t.reverses.Some? ==> !Returnable(l.journal[t.reverses.value].meta)
    requires t.meta.GiftMeta? ==> t.meta.amountBits >= 0
    ensures TotalsOk(Post(l, t).ledger)
  {
    hide Shape, TotalsAt;
    var stored := Appended(l, t);
    var j' := l.journal + [stored];
    forall i | 0 <= i < |j'| ensures TotalsAt(j', i) {
      if i < |l.journal| {
        TotalsAtKept(l.journal, stored, i);
      } else {
        TotalsAtFresh(l.journal, stored);
      }
    }
  }

  lemma PayoutsKept(cfg: Config, s: State, t: Txn)
    requires JournalOk(cfg, s.ledger) && PayoutsOk(cfg, s) && Post(s.ledger, t).Posted? && !Touches(t, PayoutsPending)
    ensures PayoutsOk(cfg, s.(ledger := Post(s.ledger, t).ledger))
  {
    hide Shape;
    var stored := Appended(s.ledger, t);
    KindUntouched(s.ledger, t, PayoutsPending);
  }

  lemma PeriodsKept(cfg: Config, s: State, t: Txn)
    requires JournalOk(cfg, s.ledger) && PeriodsCharged(s) && Post(s.ledger, t).Posted?
    requires IsReversal(t) && t.reverses.Some? ==>
      t.reverses.value < |s.ledger.journal| && s.ledger.journal[t.reverses.value].ty != Subscription
    ensures PeriodsCharged(s.(ledger := Post(s.ledger, t).ledger))
  {
    hide Shape;
    var stored := Appended(s.ledger, t);
    HasReversalAppend(s.ledger.journal, stored);
  }

  lemma RenewalsKept(cfg: Config, s: State, t: Txn)
    requires JournalOk(cfg, s.ledger) && RenewalsOk(s) && Post(s.ledger, t).Posted? && !t.key.Renewal?
    ensures RenewalsOk(s.(ledger := Post(s.ledger, t).ledger))
  {
    hide Shape;
    var stored := Appended(s.ledger, t);
    KeyReversedAppend(s.ledger.journal, stored);
  }

  lemma PromoKept(cfg: Config, s: State, t: Txn)
    requires JournalOk(cfg, s.ledger) && PromoOk(cfg, s) && Post(s.ledger, t).Posted?
    requires !Touches(t, PromoCredit) && !Touches(t, PromoReserve) && !t.key.PromoLapseKey?
    ensures PromoOk(cfg, s.(ledger := Post(s.ledger, t).ledger))
  {
    hide Shape;
    var stored := Appended(s.ledger, t);
    HasKeyAppend(s.ledger.journal, stored);
    KindUntouched(s.ledger, t, PromoCredit);
    KindUntouched(s.ledger, t, PromoReserve);
  }

  /** A usage or draw key belongs to a reading already marked rated. */
  predicate RatedKey(s: State, k: Key)
  {
    && (k.UsageKey? ==> k.rated < |s.readings| && s.readings[k.rated].rated.Some?)
    && (k.PromoDrawKey? ==> k.reading < |s.readings| && s.readings[k.reading].rated.Some?)
  }

  lemma RatingKept(cfg: Config, s: State, t: Txn)
    requires JournalOk(cfg, s.ledger) && RatingOk(s) && Post(s.ledger, t).Posted? && RatedKey(s, t.key)
    ensures RatingOk(s.(ledger := Post(s.ledger, t).ledger))
  {
    hide Shape;
    var stored := Appended(s.ledger, t);
    HasKeyAppend(s.ledger.journal, stored);
  }

  /** The charges' part reads the charges, the clock and their own keys. */
  lemma ChargesFrame(cfg: Config, s: State, s': State)
    requires ChargesOk(cfg, s) && s'.charges == s.charges && s'.clock >= s.clock
    requires forall k: Key :: k.ChargePaidKey? || k.ChargeRefundKey? ==> (HasKey(s'.ledger.journal, k) <==> HasKey(s.ledger.journal, k))
    ensures ChargesOk(cfg, s')
  {
    forall i | 0 <= i < |s.charges| ensures ChargeOk(s', i) {
      assert ChargeOk(s, i);
    }
  }

  lemma PayoutsFrame(cfg: Config, s: State, s': State)
    requires PayoutsOk(cfg, s) && s'.ledger == s.ledger && s'.cashouts == s.cashouts
    ensures PayoutsOk(cfg, s')
  {
  }

  lemma PeriodsFrame(s: State, s': State)
    requires PeriodsCharged(s) && s'.ledger == s.ledger && s'.periods == s.periods
    ensures PeriodsCharged(s')
  {
  }

  lemma SubsFrame(cfg: Config, s: State, s': State)
    requires SubsOk(cfg, s) && s'.subs == s.subs && s'.periods == s.periods && s'.sweeps == s.sweeps && s'.clock >= s.clock
    ensures SubsOk(cfg, s')
  {
  }

  lemma RenewalsFrame(s: State, s': State)
    requires RenewalsOk(s) && s'.ledger == s.ledger && s'.sweeps == s.sweeps && PeriodsExtend(s.periods, s'.periods)
    ensures RenewalsOk(s')
  {
    forall i | 0 <= i < |s.ledger.journal| && s.ledger.journal[i].key.Renewal?
      ensures RenewalGranted(s.ledger.journal[i].key, s'.periods, i)
    {
      GrantedStays(s.ledger.journal[i].key, s.periods, s'.periods, i);
    }
  }

  lemma GrantedStays(key: Key, ps: seq<Period>, later: seq<Period>, txn: nat)
    requires key.Renewal? && PeriodsExtend(ps, later) && RenewalGranted(key, ps, txn)
    ensures RenewalGranted(key, later, txn)
  {
    var k :| 0 <= k < |ps| && ps[k].sourceTxn == txn && ps[k].sub == key.sub && ps[k].end > key.end;
    assert later[k].sourceTxn == txn;
  }

  lemma PromoFrame(cfg: Config, s: State, s': State)
    requires PromoOk(cfg, s) && s'.ledger == s.ledger && s'.allowances == s.allowances && s'.clock >= s.clock
    ensures PromoOk(cfg, s')
  {
  }

  lemma RatingFrame(s: State, s': State)
    requires RatingOk(s) && s'.ledger == s.ledger && s'.readings == s.readings
    ensures RatingOk(s')
  {
  }

  lemma VibesFrame(cfg: Config, s: State, s': State)
    requires VibesOk(cfg, s) && s'.ledger == s.ledger && s'.charges == s.charges && s'.cashouts == s.cashouts && s'.clock >= s.clock
    ensures VibesOk(cfg, s')
  {
    hide ChargesOk;
    ChargesFrame(cfg, s, s');
  }

  lemma HoldRowsFrame(s: State, s': State)
    requires HoldRowsOk(s) && s'.ledger == s.ledger && s'.holds == s.holds && s'.settlements == s.settlements
    ensures HoldRowsOk(s')
  {
  }

  lemma IntentsFrame(s: State, s': State)
    requires IntentsOk(s) && s'.intents == s.intents
    ensures IntentsOk(s')
  {
  }

  /** Each part is read from its own tables: a change elsewhere, the clock going on included, leaves it. */
  lemma Frame(cfg: Config, s: State, s': State)
    requires s'.ledger == s.ledger && s'.clock >= s.clock
    ensures s'.cashouts == s.cashouts && PayoutsOk(cfg, s) ==> PayoutsOk(cfg, s')
    ensures s'.periods == s.periods && PeriodsCharged(s) ==> PeriodsCharged(s')
    ensures s'.subs == s.subs && s'.periods == s.periods && s'.sweeps == s.sweeps && SubsOk(cfg, s) ==> SubsOk(cfg, s')
    ensures s'.sweeps == s.sweeps && s'.periods == s.periods && RenewalsOk(s) ==> RenewalsOk(s')
    ensures s'.allowances == s.allowances && PromoOk(cfg, s) ==> PromoOk(cfg, s')
    ensures s'.readings == s.readings && RatingOk(s) ==> RatingOk(s')
    ensures s'.charges == s.charges && s'.cashouts == s.cashouts && VibesOk(cfg, s) ==> VibesOk(cfg, s')
    ensures s'.holds == s.holds && s'.settlements == s.settlements && HoldRowsOk(s) ==> HoldRowsOk(s')
    ensures s'.intents == s.intents && IntentsOk(s) ==> IntentsOk(s')
  {
    hide PayoutsOk, PeriodsCharged, SubsOk, RenewalsOk, PromoOk, RatingOk, VibesOk, HoldRowsOk, IntentsOk;
    if s'.cashouts == s.cashouts && PayoutsOk(cfg, s) { PayoutsFrame(cfg, s, s'); }
    if s'.periods == s.periods && PeriodsCharged(s) { PeriodsFrame(s, s'); }
    if s'.subs == s.subs && s'.periods == s.periods && s'.sweeps == s.sweeps && SubsOk(cfg, s) { SubsFrame(cfg, s, s'); }
    if s'.sweeps == s.sweeps && s'.periods == s.periods && RenewalsOk(s) { RenewalsFrame(s, s'); }
    if s'.allowances == s.allowances && PromoOk(cfg, s) { PromoFrame(cfg, s, s'); }
    if s'.readings == s.readings && RatingOk(s) { RatingFrame(s, s'); }
    if s'.charges == s.charges && s'.cashouts == s.cashouts && VibesOk(cfg, s) { VibesFrame(cfg, s, s'); }
    if s'.holds == s.holds && s'.settlements == s.settlements && HoldRowsOk(s) { HoldRowsFrame(s, s'); }
    if s'.intents == s.intents && IntentsOk(s) { IntentsFrame(s, s'); }
  }

  lemma ChargesKept(cfg: Config, s: State, t: Txn)
    requires JournalOk(cfg, s.ledger) && ChargesOk(cfg, s) && Post(s.ledger, t).Posted?
    requires !t.key.ChargePaidKey? && !t.key.ChargeRefundKey?
    ensures ChargesOk(cfg, s.(ledger := Post(s.ledger, t).ledger))
  {
    hide Shape, ChargesOk;
    var stored := Appended(s.ledger, t);
    HasKeyAppend(s.ledger.journal, stored);
    ChargesFrame(cfg, s, s.(ledger := Post(s.ledger, t).ledger));
  }

  lemma VibesKept(cfg: Config, s: State, t: Txn)
    requires JournalOk(cfg, s.ledger) && VibesOk(cfg, s) && Post(s.ledger, t).Posted?
    requires !Touches(t, ProjectPayable) && !t.key.ChargePaidKey? && !t.key.ChargeRefundKey?
    ensures VibesOk(cfg, s.(ledger := Post(s.ledger, t).ledger))
  {
    hide Shape, ChargesOk;
    KindUntouched(s.ledger, t, ProjectPayable);
    ChargesKept(cfg, s, t);
  }

  lemma HoldRowsKept(cfg: Config, s: State, t: Txn)
    requires JournalOk(cfg, s.ledger) && HoldRowsOk(s) && Post(s.ledger, t).Posted? && !t.key.SettleKey?
    ensures HoldRowsOk(s.(ledger := Post(s.ledger, t).ledger))
  {
    hide Shape;
    var stored := Appended(s.ledger, t);
    HasKeyAppend(s.ledger.journal, stored);
  }

  /** Which parts of the invariant a posting that goes through cannot disturb. */
  lemma PostKeeps(cfg: Config, s: State, t: Txn)
    requires Inv(cfg, s) && Post(s.ledger, t).Posted? && Shape(cfg, t)
    requires t.reverses.Some? ==> t.reverses.value < |s.ledger.journal|
    requires IsReversal(t) ==> t.reverses.Some?
    requires t.meta.GiftMeta? ==> t.meta.amountBits >= 0
    ensures var s' := s.(ledger := Post(s.ledger, t).ledger);
      && JournalOk(cfg, s'.ledger)
      && (!Touches(t, PayoutsPending) ==> PayoutsOk(cfg, s'))
      && (!IsReversal(t) || s.ledger.journal[t.reverses.value].ty != Subscription ==> PeriodsCharged(s'))
      && SubsOk(cfg, s')
      && (!t.key.Renewal? ==> RenewalsOk(s'))
      && (!Touches(t, PromoCredit) && !Touches(t, PromoReserve) && !t.key.PromoLapseKey? ==> PromoOk(cfg, s'))
      && (RatedKey(s, t.key) ==> RatingOk(s'))
      && (!IsReversal(t) || !Returnable(s.ledger.journal[t.reverses.value].meta) ==> TotalsOk(s'.ledger))
      && (!Touches(t, ProjectPayable) && !t.key.ChargePaidKey? && !t.key.ChargeRefundKey? ==> VibesOk(cfg, s'))
      && (!t.key.SettleKey? ==> HoldRowsOk(s'))
      && IntentsOk(s')
  {
    hide JournalOk, NonNegative, PayoutsOk, PeriodsCharged, RenewalsOk, PromoOk, RatingOk, TotalsOk, VibesOk, HoldRowsOk, Shape, Touches;
    JournalKept(cfg, s.ledger, t);
    if !Touches(t, PayoutsPending) { PayoutsKept(cfg, s, t); }
    if !IsReversal(t) || s.ledger.journal[t.reverses.value].ty != Subscription { PeriodsKept(cfg, s, t); }
    if !t.key.Renewal? { RenewalsKept(cfg, s, t); }
    if !Touches(t, PromoCredit) && !Touches(t, PromoReserve) && !t.key.PromoLapseKey? { PromoKept(cfg, s, t); }
    if RatedKey(s, t.key) { RatingKept(cfg, s, t); }
    if !IsReversal(t) || !Returnable(s.ledger.journal[t.reverses.value].meta) { TotalsKept(cfg, s.ledger, t); }
    if !Touches(t, ProjectPayable) && !t.key.ChargePaidKey? && !t.key.ChargeRefundKey? { VibesKept(cfg, s, t); }
    if !t.key.SettleKey? { HoldRowsKept(cfg, s, t); }
  }

  /** No guarded account is taken below zero when each one the entries debit holds enough. */
  lemma FundsKept(l: Ledger, t: Txn)
    requires Books(l) && NonNegative(l) && Post(l, t).Posted?
    requires forall a: Account :: Guarded(a.kind) ==> Bal(l, a) + Delta(t.entries, a) >= 0
    ensures NonNegative(Post(l, t).ledger)
  {
    PostEffect(l, t);
  }

  /** The keys that no part of the invariant speaks about. */
  predicate PlainKey(k: Key)
  {
    !k.Renewal? && !k.PromoLapseKey? && !k.UsageKey? && !k.PromoDrawKey? && !k.ChargePaidKey? && !k.ChargeRefundKey? && !k.SettleKey?
  }

  /** A posting on credit, payable and platform accounts, covered where it debits, keeps everything. */
  lemma PlainPost(cfg: Config, s: State, t: Txn)
    requires Inv(cfg, s) && Post(s.ledger, t).Posted? && Shape(cfg, t)
    requires t.reverses.Some? ==> t.reverses.value < |s.ledger.journal|
    requires IsReversal(t) ==>
      (t.reverses.Some? && !Returnable(s.ledger.journal[t.reverses.value].meta)
       && s.ledger.journal[t.reverses.value].ty != Subscription)
    requires t.meta.GiftMeta? ==> t.meta.amountBits >= 0
    requires PlainKey(t.key) || (t.key.UsageKey? && RatedKey(s, t.key))
    requires !Touches(t, PayoutsPending) && !Touches(t, ProjectPayable) && !Touches(t, PromoCredit) && !Touches(t, PromoReserve)
    requires forall a: Account :: Guarded(a.kind) ==> Bal(s.ledger, a) + Delta(t.entries, a) >= 0
    ensures Inv(cfg, s.(ledger := Post(s.ledger, t).ledger))
  {
    hide JournalOk, NonNegative, PayoutsOk, PeriodsCharged, RenewalsOk, PromoOk, RatingOk, TotalsOk, VibesOk, HoldRowsOk, Shape, Touches, SubsOk;
    PostKeeps(cfg, s, t);
    BooksOf(cfg, s.ledger);
    FundsKept(s.ledger, t);
  }

  lemma ShapeOf(cfg: Config, l: Ledger, i: nat)
    requires JournalOk(cfg, l) && i < |l.journal|
    ensures Shape(cfg, l.journal[i])
  {
  }

  lemma BackRefs(cfg: Config, l: Ledger)
    requires JournalOk(cfg, l)
    ensures forall k :: 0 <= k < |l.journal| && l.journal[k].reverses.Some? ==> l.journal[k].reverses.value < k
  {
  }

  lemma TotalsOfJournal(l: Ledger, l': Ledger)
    requires l.journal == l'.journal && TotalsOk(l)
    ensures TotalsOk(l')
  {
  }

  lemma BooksOf(cfg: Config, l: Ledger)
    requires JournalOk(cfg, l)
    ensures Books(l)
  {
  }

  lemma InvBooks(cfg: Config, s: State)
    requires Inv(cfg, s)
    ensures Books(s.ledger)
  {
    BooksOf(cfg, s.ledger);
  }

  lemma ReceiptShape(cfg: Config, t: Txn, p: Provider, paid: int, bits: int, target: Account)
    requires bits >= 0
    requires t.entries == ReceiptEntries(cfg, p, paid, bits, target) && (target.kind == UserCredit || target.kind == CreatorPayable)
    requires t.bitsPerUsd == cfg.bitsPerUsd
    ensures FxMirror(t) && PromoIsolated(t)
    ensures Cleared(t, p) == -paid
    ensures forall a: Account :: Guarded(a.kind) ==> Delta(t.entries, a) == if a == target then bits else 0
    ensures !Touches(t, PayoutsPending) && !Touches(t, ProjectPayable) && !Touches(t, PromoCredit) && !Touches(t, PromoReserve)
  {
    hide FxMirror, ValueCents;
    var e := t.entries;
    Sums5(e[0], e[1], e[2], e[3], e[4]);
    assert e == [e[0], e[1], e[2], e[3], e[4]];
    NoValue(cfg);
    FxMirrors(cfg, t, -bits);
  }
}
