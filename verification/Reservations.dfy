/**
 * What a hold on a Balance does: what it reserves, what settling it charges and collects, and what
 * releasing or letting it expire frees again.
 */
module Reservations {
  import opened Basics
  import opened Schema
  import opened Journal
  import opened Rates
  import opened Common
  import opened Invariants
  import opened Credits
  import opened Movements

  /** What is available changes by `n` on this account, and nowhere else. */
  ghost predicate Frees(s: State, s': State, a: Account, n: int)
  {
    forall x: Account :: Available(s', x) == Available(s, x) + (if x == a then n else 0)
  }

  lemma AppendedFrees(s: State, h: Hold)
    requires IsOpen(h)
    ensures Frees(s, s.(holds := s.holds + [h]), h.account, -h.held)
  {
    assert (s.holds + [h])[..|s.holds|] == s.holds;
  }

  lemma ReplacedFrees(s: State, i: nat, h: Hold)
    requires i < |s.holds| && h.account == s.holds[i].account
    ensures Frees(s, s.(holds := s.holds[i := h]), h.account,
                  (if IsOpen(s.holds[i]) then s.holds[i].held else 0) - (if IsOpen(h) then h.held else 0))
  {
    hide HeldOn, IsOpen;
    forall x { HoldReplaced(s.holds, i, h, x); }
  }

  // ------------------------------------------------------------------ creating and extending

  /** A new hold reserves exactly what was asked, on the account asked, for the lease but a second at least and a day at most. */
  lemma CreateHoldWrites(cfg: Config, s: State, a: HoldArgs)
    requires CreateHold(cfg, s, a).Done?
    ensures var r := CreateHold(cfg, s, a);
      && cfg.creditsOpen && !s.frozen && (a.sandbox ==> cfg.sandboxOpen)
      && if r.value.replay then
           r.state == s && r.value.hold < |s.holds| && s.holds[r.value.hold].key == a.key && s.holds[r.value.hold].fingerprint == a.fingerprint
         else
           var owner := if a.project.Some? then ProjectOf(a.project.value) else Person(a.subject);
           var account := Account(if a.sandbox then UsdCreditSandbox else UsdCredit, owner, Nano);
           && (forall i :: 0 <= i < |s.holds| ==> s.holds[i].key != a.key) && r.value.hold == |s.holds|
           && 0 <= a.max <= Available(s, account)
           && r.state == s.(holds := s.holds + [Hold(
                account, a.max, a.max, a.key, a.fingerprint, s.clock + Max(1000, Min(cfg.lease, 24 * 60 * 60 * 1000)), HoldActive)])
           && Frees(s, r.state, account, -a.max)
  {
    hide HeldOn;
    if FindHold(s.holds, a.key).None? && CreateHold(cfg, s, a).Done? { AppendedFrees(s, NewHold(cfg, s, a)); }
  }

  /** An open hold grows by what is asked, no more than is available, and lives a minute at least. */
  lemma ExtendHoldWrites(cfg: Config, s: State, i: nat, add: int)
    requires ExtendHold(cfg, s, i, add).Done?
    ensures var s' := ExtendHold(cfg, s, i, add).state;
      && cfg.creditsOpen && !s.frozen && i < |s.holds| && IsOpen(s.holds[i]) && 0 <= add <= Available(s, s.holds[i].account)
      && var h := s.holds[i];
         && s' == s.(holds := s.holds[i := h.(held := h.held + add, max := h.held + add, status := HoldExtended, lease := Max(h.lease, s.clock + 60000))])
         && Frees(s, s', h.account, -add)
  {
    hide HeldOn;
    ReplacedFrees(s, i, Extended(s, s.holds[i], add));
  }

  // ------------------------------------------------------------------ settling

  /** What the caller's own key paid for is not charged; anything else is charged its exact price, each component rounded up. */
  ghost predicate Charged(a: SettleHoldArgs, charge: int)
  {
    if a.byok then charge == 0
    else
      && ExactCost(a.components, a.perRequest) <= PER_MILLION * charge
      && PER_MILLION * charge <= ExactCost(a.components, a.perRequest) + (PER_MILLION - 1) * |a.components|
  }

  lemma ChargeIsCharged(a: SettleHoldArgs)
    ensures Charged(a, ChargeOf(a))
  {
    if !a.byok { ChargeIsClose(a.components, a.perRequest); }
  }

  /**
   * A settlement charges the usage; it collects all of it as far as the hold goes, then as far as the
   * account has room, and the rest is a shortfall. What it collects leaves the account for revenue, or
   * for the sandbox issuer; what the hold reserved beyond it is available again.
   */
  lemma SettleHoldMoves(cfg: Config, s: State, a: SettleHoldArgs)
    requires Books(s.ledger) && HoldRowsOk(s) && SettleHold(cfg, s, a).Done?
    ensures var r := SettleHold(cfg, s, a); var n := |s.settlements|;
      && cfg.creditsOpen && !s.frozen
      && if r.value.replay then
           r.state == s && r.value.settlement < n && s.settlements[r.value.settlement].key == a.key && s.settlements[r.value.settlement].hold == a.hold
         else
           && a.hold < |s.holds| && IsOpen(s.holds[a.hold]) && |r.state.settlements| == n + 1 && r.value.settlement == n
           && var h, row := s.holds[a.hold], r.state.settlements[n];
              && Charged(a, row.charge)
              && row.collected == (if row.charge <= h.held then row.charge else Min(row.charge, h.held + Available(s, h.account)))
              && r.state == s.(ledger := r.state.ledger, holds := s.holds[a.hold := h.(status := HoldSettled, held := 0)],
                               settlements := s.settlements + [Settlement(a.hold, a.key, row.charge, row.collected, Max(0, h.held - row.collected),
                                                                          row.charge - row.collected, |s.ledger.journal|)])
              && Posts(s.ledger, r.state.ledger, Txn(Credit, SettleKey(a.key), [], None, None, None, None, None, None, NoMeta, 0),
                       [Change(h.account, -row.collected),
                        Change(if h.account.kind == UsdCreditSandbox then SANDBOX_ISSUER else RevenueIn(Nano), row.collected)])
              && Available(r.state, h.account) == Available(s, h.account) + h.held - row.collected
  {
    hide SettleHold, Post, Books, HoldRowsOk, HeldOn, ComputeCharge, Posts, Charged;
    if FindSettlement(s.settlements, a.key).None? {
      ChargeIsCharged(a);
      SettlePosts(cfg, s, a);
      var h := s.holds[a.hold];
      var t := SettleTxn(h, a.key, CollectedOf(s, h, ChargeOf(a)));
      SettledAnswer(cfg, s, a);
      HoldIsSpendable(s, a.hold);
      LedgerPosts(s.ledger, t, [Change(h.account, t.entries[0].amount), Change(t.entries[1].account, t.entries[1].amount)]);
      SettledRoom(s, SettleHold(cfg, s, a).state, a.hold, t, CollectedOf(s, h, ChargeOf(a)));
    } else {
      SettledAnswer(cfg, s, a);
    }
  }

  lemma SettledAnswer(cfg: Config, s: State, a: SettleHoldArgs)
    requires SettleHold(cfg, s, a).Done?
    ensures cfg.creditsOpen && !s.frozen
    ensures var r := SettleHold(cfg, s, a); var existing := FindSettlement(s.settlements, a.key);
      if existing.Some? then r == Done(s, SettleAnswer(existing.value, true)) && s.settlements[existing.value].hold == a.hold
      else r.value == SettleAnswer(|s.settlements|, false)
  {
    hide Post, CollectedOf, ComputeCharge;
  }

  lemma SettledRoom(s: State, s': State, i: nat, t: Txn, collected: int)
    requires Books(s.ledger) && i < |s.holds| && IsOpen(s.holds[i]) && Post(s.ledger, t).Posted? && s'.ledger == Post(s.ledger, t).ledger
    requires s'.holds == s.holds[i := s.holds[i].(status := HoldSettled, held := 0)]
    requires |t.entries| == 2 && t.entries[0] == Entry(s.holds[i].account, -collected)
    requires t.entries[1].account == if s.holds[i].account.kind == UsdCreditSandbox then SANDBOX_ISSUER else RevenueIn(Nano)
    ensures s.holds[i].account != SANDBOX_ISSUER && s.holds[i].account.kind != PlatformRevenue ==>
      Available(s', s.holds[i].account) == Available(s, s.holds[i].account) + s.holds[i].held - collected
  {
    hide Post, Books, HeldOn;
    BalancesMove(s.ledger, t);
    assert t.entries == [t.entries[0], t.entries[1]];
    Sums2(t.entries[0], t.entries[1]);
    HoldReplaced(s.holds, i, s.holds[i].(status := HoldSettled, held := 0), s.holds[i].account);
  }

  // ------------------------------------------------------------------ releasing and expiring

  /** A released hold frees what it held and says how much; asked again, it says what it last reserved. */
  lemma ReleaseHoldWrites(cfg: Config, s: State, i: nat)
    requires ReleaseHold(cfg, s, i).Done?
    ensures var r := ReleaseHold(cfg, s, i);
      && cfg.creditsOpen && !s.frozen && i < |s.holds|
      && var h := s.holds[i];
         if h.status == HoldReleased then r == Done(s, h.max)
         else
           && IsOpen(h) && r == Done(s.(holds := s.holds[i := h.(status := HoldReleased, held := 0)]), h.held)
           && Frees(s, r.state, h.account, h.held)
  {
    hide HeldOn;
    if IsOpen(s.holds[i]) { ReplacedFrees(s, i, s.holds[i].(status := HoldReleased, held := 0)); }
  }

  /** The sweep closes exactly the open holds whose lease is over and answers how many they were. */
  lemma {:induction false} ExpiredAreCounted(hs: seq<Hold>, now: Millis)
    ensures ExpiredCount(hs, now) == |set i | 0 <= i < |hs| && IsOpen(hs[i]) && hs[i].lease <= now|
  {
    var all := set i | 0 <= i < |hs| && IsOpen(hs[i]) && hs[i].lease <= now;
    if hs != [] {
      var n := |hs| - 1;
      ExpiredAreCounted(hs[..n], now);
      var init := set i | 0 <= i < n && IsOpen(hs[..n][i]) && hs[..n][i].lease <= now;
      assert all == if IsOpen(hs[n]) && hs[n].lease <= now then init + {n} else init;
    } else {
      assert all == {};
    }
  }

  /** Expired holds are not open, every other hold is as it was, and every account has at least what it had available. */
  lemma SweepHoldsWrites(cfg: Config, s: State)
    ensures var r := SweepHolds(cfg, s);
      if !cfg.creditsOpen || s.frozen then r == Done(s, 0)
      else
        && r.Done? && |r.state.holds| == |s.holds| && r.state == s.(holds := r.state.holds)
        && r.value == |set i | 0 <= i < |s.holds| && IsOpen(s.holds[i]) && s.holds[i].lease <= s.clock|
        && forall i :: 0 <= i < |s.holds| ==>
             r.state.holds[i] == if IsOpen(s.holds[i]) && s.holds[i].lease <= s.clock then s.holds[i].(status := HoldExpired, held := 0) else s.holds[i]
  {
    ExpiredAreCounted(s.holds, s.clock);
  }

  /** A hold released before anything else happens leaves what is available as it was. */
  lemma HoldThenRelease(cfg: Config, s: State, a: HoldArgs)
    requires CreateHold(cfg, s, a).Done? && !CreateHold(cfg, s, a).value.replay
    ensures var s1 := CreateHold(cfg, s, a).state; var r := ReleaseHold(cfg, s1, |s.holds|);
      r.Done? && r.value == a.max && forall x: Account :: Available(r.state, x) == Available(s, x)
  {
    hide HeldOn, Available;
    CreateHoldWrites(cfg, s, a);
    ReleaseHoldWrites(cfg, CreateHold(cfg, s, a).state, |s.holds|);
  }
}
