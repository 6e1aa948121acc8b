/**
 * server/reconcile.js: the journal checked against itself and against the tables beside it.
 * The second half proves that the invariant of every run passes each check.
 */
module Reconcile {
  import opened Basics
  import opened Schema
  import opened Journal
  import opened Rates
  import opened Common
  import opened Invariants
  import opened Store
  import opened Balance
  import opened Providers

  datatype CheckId =
    | ZeroSum | TxnBalanced | BalancesCache | FxMirrored | EventSettlement | PayoutReferences | PayoutsPendingSum
    | ReceiptsLedger | PromoIsolation | PeriodCharged
  datatype Check = Check(id: CheckId, ok: bool)

  // ------------------------------------------------------------------ the checks

  predicate CurrenciesCancel(j: seq<Txn>)
  {
    JournalTotal(j, Bits) == 0 && JournalTotal(j, Cents) == 0 && JournalTotal(j, Nano) == 0
  }

  predicate Balanced(t: Txn) { SumOf(t.entries, Bits) == 0 && SumOf(t.entries, Cents) == 0 && SumOf(t.entries, Nano) == 0 }

  predicate AllBalanced(j: seq<Txn>) { forall i :: 0 <= i < |j| ==> Balanced(j[i]) }

  /** Every account there is: one with a balance row or an entry. */
  predicate CacheMatches(j: seq<Txn>, balances: map<Account, int>)
  {
    && (forall a :: a in balances ==> balances[a] == JournalSum(j, a))
    && (forall i, k :: 0 <= i < |j| && 0 <= k < |j[i].entries| && j[i].entries[k].account !in balances ==>
          JournalSum(j, j[i].entries[k].account) == 0)
  }

  predicate HasFx(t: Txn) { exists k :: 0 <= k < |t.entries| && t.entries[k].account.kind == FxConversion }

  predicate AllMirrored(j: seq<Txn>) { forall i :: 0 <= i < |j| && HasFx(j[i]) ==> FxMirror(j[i]) }

  function EventTxns(j: seq<Txn>, e: nat): nat
  {
    if j == [] then 0 else EventTxns(j[..|j| - 1], e) + (if j[|j| - 1].source == Some(e) then 1 else 0)
  }

  /** A settled event owns one transaction, any other processed event none. */
  predicate EventsSettle(j: seq<Txn>, es: seq<Event>)
  {
    forall e :: 0 <= e < |es| && es[e].effect.Some? ==> EventTxns(j, e) == if es[e].effect.value == Settled then 1 else 0
  }

  predicate PayoutsReferenced(cs: seq<Cashout>)
  {
    forall i :: 0 <= i < |cs| && cs[i].status == Paid ==> cs[i].payoutRef.Some? && cs[i].settleTxn.Some?
  }

  predicate PendingMatches(balances: map<Account, int>, cs: seq<Cashout>)
  {
    forall a :: a in balances && a.kind == PayoutsPending ==>
      balances[a] == if a.owner.Person? && a.currency == Bits then RequestedSum(cs, a.owner.id) else 0
  }

  predicate ReceiptsBooked(j: seq<Txn>, es: seq<Event>)
  {
    forall i :: 0 <= i < |j| && j[i].source.Some? && j[i].source.value < |es| ==> ReceiptBooked(j[i], es[j[i].source.value].provider)
  }

  predicate PromoApart(j: seq<Txn>) { forall i :: 0 <= i < |j| ==> PromoIsolated(j[i]) }

  /** What is wrong with a period: revoked with no reversal, or granted on no payment or a reversed one. */
  predicate PeriodFine(j: seq<Txn>, p: Period)
  {
    if p.revoked.Some? then HasReversal(j, p.sourceTxn)
    else p.sourceTxn < |j| && j[p.sourceTxn].ty == Subscription && !HasReversal(j, p.sourceTxn)
  }

  predicate PeriodsFine(j: seq<Txn>, ps: seq<Period>) { forall k :: 0 <= k < |ps| ==> PeriodFine(j, ps[k]) }

  ghost function Report(s: State): seq<Check>
  {
    var j, b := s.ledger.journal, s.ledger.balances;
    [ Check(ZeroSum, CurrenciesCancel(j)), Check(TxnBalanced, AllBalanced(j)), Check(BalancesCache, CacheMatches(j, b)),
      Check(FxMirrored, AllMirrored(j)), Check(EventSettlement, EventsSettle(j, s.events)),
      Check(PayoutReferences, PayoutsReferenced(s.cashouts)), Check(PayoutsPendingSum, PendingMatches(b, s.cashouts)),
      Check(ReceiptsLedger, ReceiptsBooked(j, s.events)), Check(PromoIsolation, PromoApart(j)),
      Check(PeriodCharged, PeriodsFine(j, s.periods)) ]
  }

  /** reconcile: each check is pushed as it is computed; the books balance when all of them hold. */
  method RunChecks(db: Db) returns (checks: seq<Check>, ok: bool)
    ensures checks == Report(db.View())
    ensures ok <==> forall c :: c in checks ==> c.ok
  {
    hide CurrenciesCancel, AllBalanced, CacheMatches, AllMirrored, EventsSettle, PayoutsReferenced, PendingMatches, ReceiptsBooked, PromoApart, PeriodsFine;
    var j, b := db.journal, db.balances;
    checks := [Check(ZeroSum, CurrenciesCancel(j))];
    checks := checks + [Check(TxnBalanced, AllBalanced(j))];
    checks := checks + [Check(BalancesCache, CacheMatches(j, b))];
    checks := checks + [Check(FxMirrored, AllMirrored(j))];
    checks := checks + [Check(EventSettlement, EventsSettle(j, db.events))];
    checks := checks + [Check(PayoutReferences, PayoutsReferenced(db.cashouts))];
    checks := checks + [Check(PayoutsPendingSum, PendingMatches(b, db.cashouts))];
    checks := checks + [Check(ReceiptsLedger, ReceiptsBooked(j, db.events))];
    checks := checks + [Check(PromoIsolation, PromoApart(j))];
    checks := checks + [Check(PeriodCharged, PeriodsFine(j, db.periods))];
    ok := true;
    for i := 0 to |checks|
      invariant ok <==> forall k :: 0 <= k < i ==> checks[k].ok
    {
      ok := ok && checks[i].ok;
    }
  }

  // ------------------------------------------------------------------ the invariant passes them

  /** The cache check, over the accounts that exist, is the cache property of every account. */
  lemma CacheCheck(l: Ledger)
    ensures CacheMatches(l.journal, l.balances) <==> Cached(l)
  {
    if CacheMatches(l.journal, l.balances) {
      forall a: Account ensures Bal(l, a) == JournalSum(l.journal, a) {
        if a !in l.balances {
          if i, k :| 0 <= i < |l.journal| && 0 <= k < |l.journal[i].entries| && l.journal[i].entries[k].account == a {
          } else {
            Untouched(l.journal, a);
          }
        }
      }
    }
    if Cached(l) {
      forall a | a in l.balances ensures l.balances[a] == JournalSum(l.journal, a) {
        assert Bal(l, a) == JournalSum(l.journal, a);
      }
      forall i, k | 0 <= i < |l.journal| && 0 <= k < |l.journal[i].entries| && l.journal[i].entries[k].account !in l.balances
        ensures JournalSum(l.journal, l.journal[i].entries[k].account) == 0
      {
        assert Bal(l, l.journal[i].entries[k].account) == 0;
      }
    }
  }

  lemma {:induction false} Untouched(j: seq<Txn>, a: Account)
    requires forall i, k :: 0 <= i < |j| && 0 <= k < |j[i].entries| ==> j[i].entries[k].account != a
    ensures JournalSum(j, a) == 0
  {
    if j != [] {
      var n := |j| - 1;
      forall i, k | 0 <= i < n && 0 <= k < |j[..n][i].entries| ensures j[..n][i].entries[k].account != a { assert j[..n][i] == j[i]; }
      Untouched(j[..n], a);
      NoAccountNoDelta(j[n].entries, a);
    }
  }

  lemma BooksPass(l: Ledger)
    requires Books(l)
    ensures CurrenciesCancel(l.journal) && AllBalanced(l.journal) && CacheMatches(l.journal, l.balances)
  {
    JournalCancels(l.journal, Bits);
    JournalCancels(l.journal, Cents);
    JournalCancels(l.journal, Nano);
    forall i | 0 <= i < |l.journal| ensures Balanced(l.journal[i]) { assert Sound(l.journal[i]); }
    CacheCheck(l);
  }

  /** No Vibes were bought from a Balance. */
  ghost predicate NoBalanceBuys(j: seq<Txn>)
  {
    forall i :: 0 <= i < |j| ==> !(j[i].meta.BalanceMeta? && j[i].meta.toProject.None?)
  }

  lemma NoFxNoBits(t: Txn)
    requires !HasFx(t)
    ensures FxMirror(t)
  {
    NoAccountNoDelta(t.entries, FX_BITS);
    NoAccountNoDelta(t.entries, FX_CENTS);
    ZeroShare(100, 0, if t.bitsPerUsd > 0 then t.bitsPerUsd else 100);
  }

  /** fx.mirror fails on exactly the purchases of Vibes from a Balance. */
  lemma MirrorsPass(cfg: Config, l: Ledger)
    requires JournalOk(cfg, l)
    ensures AllMirrored(l.journal) <==> NoBalanceBuys(l.journal)
  {
    hide Shape, FxMirror, HasFx;
    var j := l.journal;
    forall i | 0 <= i < |j| ensures FxMirror(j[i]) <==> !(j[i].meta.BalanceMeta? && j[i].meta.toProject.None?) {
      ShapeOf(cfg, l, i);
      BuyVibesMirror(cfg, j[i]);
    }
    forall i | 0 <= i < |j| && !HasFx(j[i]) ensures FxMirror(j[i]) { NoFxNoBits(j[i]); }
  }

  lemma {:induction false} NoEventTxns(j: seq<Txn>, e: nat)
    requires forall i :: 0 <= i < |j| ==> j[i].source != Some(e)
    ensures EventTxns(j, e) == 0
  {
    if j != [] { NoEventTxns(j[..|j| - 1], e); }
  }

  lemma {:induction false} OneEventTxn(j: seq<Txn>, e: nat, i: nat)
    requires i < |j| && j[i].source == Some(e)
    requires forall k :: 0 <= k < |j| && k != i ==> j[k].source != Some(e)
    ensures EventTxns(j, e) == 1
  {
    if i == |j| - 1 { NoEventTxns(j[..|j| - 1], e); } else { OneEventTxn(j[..|j| - 1], e, i); }
  }

  lemma EventsPass(cfg: Config, s: State)
    requires Inv(cfg, s) && EventsOk(s)
    ensures EventsSettle(s.ledger.journal, s.events)
  {
    hide Inv;
    var j := s.ledger.journal;
    forall e | 0 <= e < |s.events| && s.events[e].effect.Some?
      ensures EventTxns(j, e) == if s.events[e].effect.value == Settled then 1 else 0
    {
      SettledOwnsOne(cfg, s, e);
      if s.events[e].effect.value == Settled {
        var i :| 0 <= i < |j| && j[i].source == Some(e);
        OneEventTxn(j, e, i);
      } else {
        NoEventTxns(j, e);
      }
    }
  }

  lemma {:induction false} NoPendingElsewhere(j: seq<Txn>, a: Account)
    requires a.kind == PayoutsPending && !(a.owner.Person? && a.currency == Bits)
    requires forall i :: 0 <= i < |j| ==> PendingOwned(j[i])
    ensures JournalSum(j, a) == 0
  {
    if j != [] {
      NoPendingElsewhere(j[..|j| - 1], a);
      NoAccountNoDelta(j[|j| - 1].entries, a);
    }
  }

  lemma Owned(cfg: Config, t: Txn)
    requires Shape(cfg, t)
    ensures PendingOwned(t) && PromoIsolated(t)
    ensures t.source.Some? ==> t.provider.Some? && t.provider.value.Gateway? && ReceiptBooked(t, t.provider.value.provider)
  {
  }

  lemma PendingPass(cfg: Config, s: State)
    requires JournalOk(cfg, s.ledger) && PayoutsOk(cfg, s)
    ensures PendingMatches(s.ledger.balances, s.cashouts)
  {
    hide Shape, PendingOwned;
    var j, b := s.ledger.journal, s.ledger.balances;
    forall i | 0 <= i < |j| ensures PendingOwned(j[i]) {
      ShapeOf(cfg, s.ledger, i);
      Owned(cfg, j[i]);
    }
    BooksOf(cfg, s.ledger);
    forall a | a in b && a.kind == PayoutsPending
      ensures b[a] == if a.owner.Person? && a.currency == Bits then RequestedSum(s.cashouts, a.owner.id) else 0
    {
      assert Bal(s.ledger, a) == JournalSum(j, a);
      if a.owner.Person? && a.currency == Bits {
        assert a == PendingOf(a.owner.id);
      } else {
        NoPendingElsewhere(j, a);
      }
    }
  }

  lemma ReceiptsPass(cfg: Config, s: State)
    requires JournalOk(cfg, s.ledger) && EventsOk(s)
    ensures ReceiptsBooked(s.ledger.journal, s.events) && PromoApart(s.ledger.journal)
  {
    hide Shape, ReceiptBooked, PromoIsolated;
    var j := s.ledger.journal;
    forall i | 0 <= i < |j|
      ensures PromoIsolated(j[i])
      ensures j[i].source.Some? && j[i].source.value < |s.events| ==> ReceiptBooked(j[i], s.events[j[i].source.value].provider)
    {
      ShapeOf(cfg, s.ledger, i);
      Owned(cfg, j[i]);
    }
  }

  /**
   * The reconciliation theorem: under the invariant every check of the report holds, except that
   * fx.mirror holds if and only if no Vibes were ever bought from a Balance.
   */
  lemma ReportIsClean(cfg: Config, s: State)
    requires Inv(cfg, s) && EventsOk(s)
    ensures forall c :: c in Report(s) && c.id != FxMirrored ==> c.ok
    ensures Check(FxMirrored, NoBalanceBuys(s.ledger.journal)) in Report(s)
    ensures (forall c :: c in Report(s) ==> c.ok) <==> NoBalanceBuys(s.ledger.journal)
  {
    hide Books, NonNegative, SubsOk, RenewalsOk, PromoOk, RatingOk, TotalsOk, VibesOk, HoldRowsOk, IntentsOk,
         CurrenciesCancel, AllBalanced, CacheMatches, AllMirrored, EventsSettle, PendingMatches, ReceiptsBooked, PromoApart, NoBalanceBuys, Shape, EventsOk;
    BooksOf(cfg, s.ledger);
    BooksPass(s.ledger);
    MirrorsPass(cfg, s.ledger);
    EventsPass(cfg, s);
    PendingPass(cfg, s);
    ReceiptsPass(cfg, s);
    assert PeriodsFine(s.ledger.journal, s.periods);
    var r := Report(s);
    assert r[3] == Check(FxMirrored, NoBalanceBuys(s.ledger.journal));
  }

  // ------------------------------------------------------------------ the checks catch what they name

  ghost function Pointing(j: seq<Txn>, e: nat): set<int> { set i | 0 <= i < |j| && j[i].source == Some(e) }

  lemma PointingStep(j: seq<Txn>, e: nat)
    requires j != []
    ensures Pointing(j, e) == Pointing(j[..|j| - 1], e) + if j[|j| - 1].source == Some(e) then {|j| - 1} else {}
    ensures |j| - 1 !in Pointing(j[..|j| - 1], e)
  {
  }

  lemma {:induction false} EventTxnsCount(j: seq<Txn>, e: nat)
    ensures EventTxns(j, e) == |Pointing(j, e)|
  {
    if j != [] {
      var init := j[..|j| - 1];
      EventTxnsCount(init, e);
      PointingStep(j, e);
      hide Pointing;
      assert |Pointing(j, e)| == |Pointing(init, e)| + if j[|j| - 1].source == Some(e) then 1 else 0;
    }
  }

  /** What a clean report means, said of the tables. */
  ghost predicate Clean(s: State)
  {
    var j := s.ledger.journal;
    && NetsOver(j)
    && (forall i :: 0 <= i < |j| ==> Nets(j[i].entries))
    && (forall a: Account :: Bal(s.ledger, a) == JournalSum(j, a))
    && (forall i :: 0 <= i < |j| ==> FxMirror(j[i]))
    && (forall e :: 0 <= e < |s.events| && s.events[e].effect.Some? ==>
          |Pointing(j, e)| == if s.events[e].effect.value == Settled then 1 else 0)
    && (forall i :: 0 <= i < |s.cashouts| && s.cashouts[i].status == Paid ==> s.cashouts[i].payoutRef.Some? && s.cashouts[i].settleTxn.Some?)
    && (forall a: Account :: a in s.ledger.balances && a.kind == PayoutsPending ==>
          s.ledger.balances[a] == if a.owner.Person? && a.currency == Bits then RequestedSum(s.cashouts, a.owner.id) else 0)
    && (forall i :: 0 <= i < |j| && j[i].source.Some? && j[i].source.value < |s.events| ==> ReceiptBooked(j[i], s.events[j[i].source.value].provider))
    && (forall i, k, m :: 0 <= i < |j| && 0 <= k < |j[i].entries| && 0 <= m < |j[i].entries| ==>
          (IsPromo(j[i].entries[k].account.kind) <==> IsPromo(j[i].entries[m].account.kind)))
    && (forall k :: 0 <= k < |s.periods| ==>
          && (s.periods[k].revoked.Some? <==> HasReversal(j, s.periods[k].sourceTxn))
          && (s.periods[k].revoked.None? ==> s.periods[k].sourceTxn < |j| && j[s.periods[k].sourceTxn].ty == Subscription))
  }

  /** The report is clean exactly when the tables are: no check is weaker, or stricter, than what it names. */
  lemma ReportCatches(s: State)
    ensures (forall c :: c in Report(s) ==> c.ok) <==> Clean(s)
  {
    hide FxMirror, HasReversal, ReceiptBooked, CacheMatches, EventsSettle, AllMirrored, PromoApart, CurrenciesCancel, AllBalanced, PeriodsFine,
         JournalTotal, SumOf, JournalSum, Nets, NetsOver;
    var j, r := s.ledger.journal, Report(s);
    CacheCheck(s.ledger);
    SumsCatch(j);
    MirrorsCatch(j);
    EventsCatch(j, s.events);
    PromoCatches(j);
    PeriodsCatch(j, s.periods);
    AllOk(r);
  }

  lemma AllOk(r: seq<Check>)
    requires |r| == 10
    ensures (forall c :: c in r ==> c.ok) <==>
      r[0].ok && r[1].ok && r[2].ok && r[3].ok && r[4].ok && r[5].ok && r[6].ok && r[7].ok && r[8].ok && r[9].ok
  {
  }

  lemma PeriodsCatch(j: seq<Txn>, ps: seq<Period>)
    ensures PeriodsFine(j, ps) <==> forall k :: 0 <= k < |ps| ==>
      && (ps[k].revoked.Some? <==> HasReversal(j, ps[k].sourceTxn))
      && (ps[k].revoked.None? ==> ps[k].sourceTxn < |j| && j[ps[k].sourceTxn].ty == Subscription)
  {
    hide HasReversal;
  }

  lemma EveryCurrency(c: Currency)
    ensures c == Bits || c == Cents || c == Nano
  {
  }

  /** Nothing is left over in any currency. */
  ghost predicate Nets(es: seq<Entry>) { forall c: Currency :: SumOf(es, c) == 0 }

  ghost predicate NetsOver(j: seq<Txn>) { forall c: Currency :: JournalTotal(j, c) == 0 }

  lemma {:induction false} BalancedInAll(t: Txn)
    ensures Balanced(t) <==> Nets(t.entries)
  {
    hide SumOf;
    if Balanced(t) {
      forall c: Currency ensures SumOf(t.entries, c) == 0 { EveryCurrency(c); }
    }
  }

  lemma {:induction false} TotalsInAll(j: seq<Txn>)
    ensures CurrenciesCancel(j) <==> NetsOver(j)
  {
    hide JournalTotal;
    if CurrenciesCancel(j) {
      forall c: Currency ensures JournalTotal(j, c) == 0 { EveryCurrency(c); }
    }
  }

  lemma {:induction false} SumsCatch(j: seq<Txn>)
    ensures CurrenciesCancel(j) <==> NetsOver(j)
    ensures AllBalanced(j) <==> forall i :: 0 <= i < |j| ==> Nets(j[i].entries)
  {
    hide Balanced, CurrenciesCancel, Nets, NetsOver;
    TotalsInAll(j);
    forall i | 0 <= i < |j| ensures Balanced(j[i]) <==> Nets(j[i].entries) { BalancedInAll(j[i]); }
  }

  lemma MirrorsCatch(j: seq<Txn>)
    ensures AllMirrored(j) <==> forall i :: 0 <= i < |j| ==> FxMirror(j[i])
  {
    hide FxMirror, HasFx;
    forall i | 0 <= i < |j| && !HasFx(j[i]) ensures FxMirror(j[i]) { NoFxNoBits(j[i]); }
  }

  lemma EventsCatch(j: seq<Txn>, es: seq<Event>)
    ensures EventsSettle(j, es) <==> forall e :: 0 <= e < |es| && es[e].effect.Some? ==>
      |Pointing(j, e)| == if es[e].effect.value == Settled then 1 else 0
  {
    forall e | 0 <= e < |es| ensures EventTxns(j, e) == |Pointing(j, e)| { EventTxnsCount(j, e); }
  }

  lemma PromoCatches(j: seq<Txn>)
    ensures PromoApart(j) <==> forall i, k, m :: 0 <= i < |j| && 0 <= k < |j[i].entries| && 0 <= m < |j[i].entries| ==>
      (IsPromo(j[i].entries[k].account.kind) <==> IsPromo(j[i].entries[m].account.kind))
  {
    forall i | 0 <= i < |j|
      ensures PromoIsolated(j[i]) <==> forall k, m :: 0 <= k < |j[i].entries| && 0 <= m < |j[i].entries| ==>
        (IsPromo(j[i].entries[k].account.kind) <==> IsPromo(j[i].entries[m].account.kind))
    {
    }
  }
}
