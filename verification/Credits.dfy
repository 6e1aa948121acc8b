/** server/ops/credits.js: holds on a prepaid Balance, and what settling one collects. */
module Credits {
  import opened Basics
  import opened Schema
  import opened Journal
  import opened Rates
  import opened Common
  import opened Invariants
  import opened Store

  // ------------------------------------------------------------------ accounts

  function SandboxBalanceOf(p: Subject, project: Option<nat>): Account
  {
    Account(UsdCreditSandbox, if project.Some? then ProjectOf(project.value) else Person(p), Nano)
  }

  function HoldAccount(p: Subject, project: Option<nat>, sandbox: bool): Account
  {
    if sandbox then SandboxBalanceOf(p, project) else BalanceOf(p, project)
  }

  /** Balance less the open holds. */
  function Available(s: State, a: Account): int { Bal(s.ledger, a) - HeldOn(s.holds, a) }

  /** SUM(held) over the account's open holds, as the loop the database runs. */
  method SumHeld(db: Db, a: Account) returns (held: int)
    ensures held == HeldOn(db.holds, a)
  {
    held := 0;
    for i := 0 to |db.holds|
      invariant held == HeldOn(db.holds[..i], a)
    {
      assert db.holds[..i + 1][..i] == db.holds[..i];
      if db.holds[i].account == a && IsOpen(db.holds[i]) { held := held + db.holds[i].held; }
    }
    assert db.holds[..|db.holds|] == db.holds;
  }

  method ReadAvailable(db: Db, a: Account) returns (n: int)
    ensures n == Available(db.View(), a)
  {
    var held := SumHeld(db, a);
    n := db.Balance(a) - held;
  }

  // ------------------------------------------------------------------ creating and extending

  datatype HoldArgs = HoldArgs(
    subject: Subject, project: Option<nat>, sandbox: bool, max: int, key: nat, fingerprint: nat)
  datatype HoldAnswer = HoldAnswer(hold: nat, replay: bool)

  function FindHold(hs: seq<Hold>, key: nat): (r: Option<nat>)
    ensures r.Some? ==> r.value < |hs| && hs[r.value].key == key
    ensures r.None? ==> forall i :: 0 <= i < |hs| ==> hs[i].key != key
  {
    FindFirst(hs, (h: Hold) => h.key == key)
  }

  function NewHold(cfg: Config, s: State, a: HoldArgs): Hold
  {
    Hold(HoldAccount(a.subject, a.project, a.sandbox), a.max, a.max, a.key, a.fingerprint,
         s.clock + Max(1000, Min(cfg.lease, DAY)), HoldActive)
  }

  function CreateHold(cfg: Config, s: State, a: HoldArgs): Step<HoldAnswer>
  {
    if !cfg.creditsOpen then Fail(NotEnabled)
    else if s.frozen then Fail(EconomyFrozen)
    else if a.max < 0 then Fail(InvalidAmount)
    else if a.sandbox && !cfg.sandboxOpen then Fail(NotEnabled)
    else
      var existing := FindHold(s.holds, a.key);
      if existing.Some? then
        if s.holds[existing.value].fingerprint != a.fingerprint then Fail(KeyReused)
        else Done(s, HoldAnswer(existing.value, true))
      else if Available(s, HoldAccount(a.subject, a.project, a.sandbox)) < a.max then Fail(InsufficientFunds)
      else Done(s.(holds := s.holds + [NewHold(cfg, s, a)]), HoldAnswer(|s.holds|, false))
  }

  method OpenHold(cfg: Config, db: Db, a: HoldArgs) returns (r: Result<HoldAnswer, Error>)
    modifies db
    ensures db.Answers(old(db.View()), CreateHold(cfg, old(db.View()), a), r)
  {
    if !cfg.creditsOpen { return Err(NotEnabled); }
    if db.frozen { return Err(EconomyFrozen); }
    if a.max < 0 { return Err(InvalidAmount); }
    if a.sandbox && !cfg.sandboxOpen { return Err(NotEnabled); }
    var existing := FindHold(db.holds, a.key);
    if existing.Some? {
      if db.holds[existing.value].fingerprint != a.fingerprint { return Err(KeyReused); }
      return Ok(HoldAnswer(existing.value, true));
    }
    var account := HoldAccount(a.subject, a.project, a.sandbox);
    var available := ReadAvailable(db, account);
    if available < a.max { return Err(InsufficientFunds); }
    r := Ok(HoldAnswer(|db.holds|, false));
    db.holds := db.holds + [
      Hold(account, a.max, a.max, a.key, a.fingerprint, db.clock + Max(1000, Min(cfg.lease, DAY)), HoldActive)];
  }

  function Extended(s: State, h: Hold, add: int): Hold
  {
    h.(held := h.held + add, max := h.held + add, status := HoldExtended, lease := Max(h.lease, s.clock + 60000))
  }

  function ExtendHold(cfg: Config, s: State, hold: nat, add: int): Step<()>
  {
    if !cfg.creditsOpen then Fail(NotEnabled)
    else if s.frozen then Fail(EconomyFrozen)
    else if add < 0 then Fail(InvalidAmount)
    else if hold >= |s.holds| then Fail(NotFound)
    else if !IsOpen(s.holds[hold]) then Fail(HoldTerminal)
    else if Available(s, s.holds[hold].account) < add then Fail(InsufficientFunds)
    else Done(s.(holds := s.holds[hold := Extended(s, s.holds[hold], add)]), ())
  }

  method GrowHold(cfg: Config, db: Db, hold: nat, add: int) returns (r: Result<(), Error>)
    modifies db
    ensures db.Answers(old(db.View()), ExtendHold(cfg, old(db.View()), hold, add), r)
  {
    if !cfg.creditsOpen { return Err(NotEnabled); }
    if db.frozen { return Err(EconomyFrozen); }
    if add < 0 { return Err(InvalidAmount); }
    if hold >= |db.holds| { return Err(NotFound); }
    var h := db.holds[hold];
    if !IsOpen(h) { return Err(HoldTerminal); }
    var available := ReadAvailable(db, h.account);
    if available < add { return Err(InsufficientFunds); }
    var grown := h.held + add;
    db.holds := db.holds[hold := h.(held := grown, max := grown, status := HoldExtended, lease := Max(h.lease, db.clock + 60000))];
    r := Ok(());
  }

  // ------------------------------------------------------------------ the charge

  datatype Component = Component(tokens: nat, rate: nat)

  const PER_MILLION := 1000000

  /** Each component is rounded up once, then the flat price is added. */
  function ComputeCharge(cs: seq<Component>, perRequest: nat): (charge: nat)
    ensures charge >= perRequest
  {
    if cs == [] then perRequest
    else
      var c := cs[|cs| - 1];
      ComponentCost(c) + ComputeCharge(cs[..|cs| - 1], perRequest)
  }

  function ComponentCost(c: Component): (n: nat)
    ensures PER_MILLION * (n - 1) < c.tokens * c.rate <= PER_MILLION * n
  {
    assert c.tokens * c.rate >= 0;
    CeilDiv(c.tokens * c.rate, PER_MILLION)
  }

  /** The exact price in millionths. */
  function ExactCost(cs: seq<Component>, perRequest: nat): int
  {
    if cs == [] then PER_MILLION * perRequest
    else cs[|cs| - 1].tokens * cs[|cs| - 1].rate + ExactCost(cs[..|cs| - 1], perRequest)
  }

  /** computeCharge: the loop over the components, in whole nano-USD. */
  method Charge(cs: seq<Component>, perRequest: nat) returns (charge: nat)
    ensures charge == ComputeCharge(cs, perRequest)
  {
    charge := 0;
    for i := 0 to |cs|
      invariant charge + perRequest == ComputeCharge(cs[..i], perRequest)
    {
      assert cs[..i + 1][..i] == cs[..i];
      var c := cs[i];
      if c.tokens != 0 && c.rate != 0 {
        var num := c.tokens * c.rate;
        var div := num / PER_MILLION;
        assert num >= 0;
        charge := charge + (if num % PER_MILLION == 0 then div else div + 1);
      } else {
        assert c.tokens * c.rate == 0;
      }
    }
    assert cs[..|cs|] == cs;
    charge := charge + perRequest;
  }

  /** The charge is never below the exact price, and above it by less than one nano a component. */
  lemma {:induction false} ChargeIsClose(cs: seq<Component>, perRequest: nat)
    ensures ExactCost(cs, perRequest) <= PER_MILLION * ComputeCharge(cs, perRequest)
    ensures PER_MILLION * ComputeCharge(cs, perRequest) <= ExactCost(cs, perRequest) + (PER_MILLION - 1) * |cs|
  {
    if cs != [] { ChargeIsClose(cs[..|cs| - 1], perRequest); }
  }

  // ------------------------------------------------------------------ settling

  datatype SettleHoldArgs = SettleHoldArgs(hold: nat, key: nat, byok: bool, components: seq<Component>, perRequest: nat)
  datatype SettleAnswer = SettleAnswer(settlement: nat, replay: bool)

  function FindSettlement(ss: seq<Settlement>, key: nat): (r: Option<nat>)
    ensures r.Some? ==> r.value < |ss| && ss[r.value].key == key
    ensures r.None? ==> forall i :: 0 <= i < |ss| ==> ss[i].key != key
  {
    FindFirst(ss, (x: Settlement) => x.key == key)
  }

  function ChargeOf(a: SettleHoldArgs): nat { if a.byok then 0 else ComputeCharge(a.components, a.perRequest) }

  /** What a charge beyond the hold can still take: the hold and the account's other room. */
  function Room(s: State, h: Hold): int { h.held + Available(s, h.account) }

  function CollectedOf(s: State, h: Hold, charge: int): int
  {
    if charge > h.held && charge > Room(s, h) then Room(s, h) else charge
  }

  function ReleasedOf(h: Hold, collected: int): int { if collected >= h.held then 0 else h.held - collected }

  function SettleTxn(h: Hold, key: nat, collected: int): Txn
  {
    Txn(Credit, SettleKey(key),
        [Entry(h.account, -collected), Entry(if h.account.kind == UsdCreditSandbox then SANDBOX_ISSUER else RevenueIn(Nano), collected)],
        None, None, None, None, None, None, NoMeta, 0)
  }

  /** The columns refuse a negative amount and one past bigint. */
  predicate Storable(n: int) { 0 <= n <= PG_MAX }

  function SettleHold(cfg: Config, s: State, a: SettleHoldArgs): Step<SettleAnswer>
  {
    if !cfg.creditsOpen then Fail(NotEnabled)
    else if s.frozen then Fail(EconomyFrozen)
    else
      var existing := FindSettlement(s.settlements, a.key);
      if existing.Some? then
        if s.settlements[existing.value].hold != a.hold then Fail(KeyReused) else Done(s, SettleAnswer(existing.value, true))
      else if a.hold >= |s.holds| then Fail(NotFound)
      else if !IsOpen(s.holds[a.hold]) then Fail(HoldTerminal)
      else
        var collected := CollectedOf(s, s.holds[a.hold], ChargeOf(a));
        BookSettlement(s, a.hold, a.key, collected, ChargeOf(a) - collected)
  }

  /** The posting, the hold closed, the settlement row. */
  function BookSettlement(s: State, hold: nat, key: nat, collected: int, shortfall: int): Step<SettleAnswer>
    requires hold < |s.holds|
  {
    var h := s.holds[hold];
    match PostOn(s, SettleTxn(h, key, collected))
    case Fail(e) => Fail(e)
    case Done(s', o) =>
      if !Storable(collected) || !Storable(shortfall) then Fail(CheckViolation)
      else
        Done(s'.(holds := s.holds[hold := h.(status := HoldSettled, held := 0)],
                 settlements := s.settlements
                   + [Settlement(hold, key, collected + shortfall, collected, ReleasedOf(h, collected), shortfall, o.txn)]),
             SettleAnswer(|s.settlements|, false))
  }

  /** Usage beyond the hold is taken from what the account still has; the rest is a shortfall. */
  method SplitCharge(db: Db, h: Hold, charge: int) returns (collected: int, shortfall: int)
    ensures collected == CollectedOf(db.View(), h, charge) && shortfall == charge - collected
  {
    collected, shortfall := charge, 0;
    if charge > h.held {
      var available := ReadAvailable(db, h.account);
      var room := h.held + available;
      if charge > room { collected, shortfall := room, charge - room; }
    }
  }

  method CloseHold(cfg: Config, db: Db, a: SettleHoldArgs) returns (r: Result<SettleAnswer, Error>)
    modifies db`holds, db`settlements, db`journal, db`balances
    ensures db.Answers(old(db.View()), SettleHold(cfg, old(db.View()), a), r)
  {
    hide BookSettlement, CollectedOf, ComputeCharge, FindSettlement;
    if !cfg.creditsOpen { return Err(NotEnabled); }
    if db.frozen { return Err(EconomyFrozen); }
    var charge := 0;
    if !a.byok { charge := Charge(a.components, a.perRequest); }
    var existing := FindSettlement(db.settlements, a.key);
    if existing.Some? {
      if db.settlements[existing.value].hold != a.hold { return Err(KeyReused); }
      return Ok(SettleAnswer(existing.value, true));
    }
    if a.hold >= |db.holds| { return Err(NotFound); }
    var h := db.holds[a.hold];
    if !IsOpen(h) { return Err(HoldTerminal); }
    var collected, shortfall := SplitCharge(db, h, charge);
    r := Book(db, a.hold, a.key, collected, shortfall);
  }

  method Book(db: Db, hold: nat, key: nat, collected: int, shortfall: int) returns (r: Result<SettleAnswer, Error>)
    requires hold < |db.holds|
    modifies db`holds, db`settlements, db`journal, db`balances
    ensures db.Answers(old(db.View()), BookSettlement(old(db.View()), hold, key, collected, shortfall), r)
  {
    hide Post, SettleTxn;
    var h := db.holds[hold];
    var released := if collected >= h.held then 0 else h.held - collected;
    var journal, balances := db.journal, db.balances;
    var posted := db.Post(SettleTxn(h, key, collected));
    if posted.Err? { return Err(posted.error); }
    if !Storable(collected) || !Storable(shortfall) {
      db.journal, db.balances := journal, balances;
      return Err(CheckViolation);
    }
    db.holds := db.holds[hold := h.(status := HoldSettled, held := 0)];
    db.settlements := db.settlements + [Settlement(hold, key, collected + shortfall, collected, released, shortfall, posted.value.txn)];
    r := Ok(SettleAnswer(|db.settlements| - 1, false));
  }

  // ------------------------------------------------------------------ releasing and expiring

  /** A released hold answers what it held, every time it is asked. */
  function ReleaseHold(cfg: Config, s: State, hold: nat): Step<int>
  {
    if !cfg.creditsOpen then Fail(NotEnabled)
    else if s.frozen then Fail(EconomyFrozen)
    else if hold >= |s.holds| then Fail(NotFound)
    else if s.holds[hold].status == HoldReleased then Done(s, s.holds[hold].max)
    else if !IsOpen(s.holds[hold]) then Fail(HoldTerminal)
    else Done(s.(holds := s.holds[hold := s.holds[hold].(status := HoldReleased, held := 0)]), s.holds[hold].held)
  }

  method DropHold(cfg: Config, db: Db, hold: nat) returns (r: Result<int, Error>)
    modifies db
    ensures db.Answers(old(db.View()), ReleaseHold(cfg, old(db.View()), hold), r)
  {
    if !cfg.creditsOpen { return Err(NotEnabled); }
    if db.frozen { return Err(EconomyFrozen); }
    if hold >= |db.holds| { return Err(NotFound); }
    var h := db.holds[hold];
    if h.status == HoldReleased { return Ok(h.max); }
    if !IsOpen(h) { return Err(HoldTerminal); }
    db.holds := db.holds[hold := h.(status := HoldReleased, held := 0)];
    r := Ok(h.held);
  }

  predicate IsExpired(h: Hold, now: Millis) { IsOpen(h) && h.lease <= now }

  function Expired(hs: seq<Hold>, now: Millis): (r: seq<Hold>)
    ensures |r| == |hs|
    ensures forall i :: 0 <= i < |hs| ==> r[i] == if IsExpired(hs[i], now) then hs[i].(status := HoldExpired, held := 0) else hs[i]
  {
    if hs == [] then []
    else
      var h := hs[|hs| - 1];
      Expired(hs[..|hs| - 1], now) + [if IsExpired(h, now) then h.(status := HoldExpired, held := 0) else h]
  }

  function ExpiredCount(hs: seq<Hold>, now: Millis): nat
  {
    if hs == [] then 0 else ExpiredCount(hs[..|hs| - 1], now) + (if IsExpired(hs[|hs| - 1], now) then 1 else 0)
  }

  function SweepHolds(cfg: Config, s: State): Step<nat>
  {
    if !cfg.creditsOpen || s.frozen then Done(s, 0)
    else Done(s.(holds := Expired(s.holds, s.clock)), ExpiredCount(s.holds, s.clock))
  }

  /** One more row of the sweep. */
  lemma ExpireNext(was: seq<Hold>, hs: seq<Hold>, i: nat, now: Millis)
    requires i < |was| == |hs| && hs[..i] == Expired(was[..i], now) && hs[i..] == was[i..]
    ensures var expired := IsExpired(hs[i], now);
      var next := if expired then hs[i := hs[i].(status := HoldExpired, held := 0)] else hs;
      && next[..i + 1] == Expired(was[..i + 1], now) && next[i + 1..] == was[i + 1..]
      && ExpiredCount(was[..i + 1], now) == ExpiredCount(was[..i], now) + (if expired then 1 else 0)
  {
    hide IsExpired;
    assert was[..i + 1][..i] == was[..i] && hs[i] == hs[i..][0] == was[i];
    assert hs[i + 1..] == hs[i..][1..] == was[i + 1..];
    assert hs[..i + 1] == hs[..i] + [hs[i]];
  }

  method SweepExpired(cfg: Config, db: Db) returns (r: Result<nat, Error>)
    modifies db
    ensures db.Answers(old(db.View()), SweepHolds(cfg, old(db.View())), r)
  {
    hide IsExpired;
    if !cfg.creditsOpen || db.frozen { return Ok(0); }
    ghost var was := db.holds;
    var released := 0;
    var i := 0;
    while i < |db.holds|
      invariant i <= |db.holds| == |was| && db.View() == old(db.View()).(holds := db.holds)
      invariant db.holds[..i] == Expired(was[..i], db.clock) && db.holds[i..] == was[i..]
      invariant released == ExpiredCount(was[..i], db.clock)
    {
      ExpireNext(was, db.holds, i, db.clock);
      if IsExpired(db.holds[i], db.clock) {
        db.holds := db.holds[i := db.holds[i].(status := HoldExpired, held := 0)];
        released := released + 1;
      }
      i := i + 1;
    }
    assert db.holds[..i] == db.holds && was[..i] == was;
    r := Ok(released);
  }

  // ------------------------------------------------------------------ sandbox grants

  datatype SandboxArgs = SandboxArgs(subject: Subject, project: Option<nat>, amount: int, grant: nat)

  function SandboxTxn(a: SandboxArgs): Txn
  {
    Txn(Credit, SandboxGrantKey(a.grant), [Entry(SANDBOX_ISSUER, -a.amount), Entry(SandboxBalanceOf(a.subject, a.project), a.amount)],
        None, None, Some(a.subject), None, None, None, NoMeta, 0)
  }

  function SandboxGrant(cfg: Config, s: State, a: SandboxArgs): Step<Outcome>
  {
    if !cfg.creditsOpen || !cfg.sandboxOpen then Fail(NotEnabled)
    else if s.frozen then Fail(EconomyFrozen)
    else if a.amount <= 0 then Fail(InvalidAmount)
    else PostOn(s, SandboxTxn(a))
  }

  method GrantSandbox(cfg: Config, db: Db, a: SandboxArgs) returns (r: Result<Outcome, Error>)
    modifies db
    ensures db.Answers(old(db.View()), SandboxGrant(cfg, old(db.View()), a), r)
  {
    if !cfg.creditsOpen || !cfg.sandboxOpen { return Err(NotEnabled); }
    if db.frozen { return Err(EconomyFrozen); }
    if a.amount <= 0 { return Err(InvalidAmount); }
    r := db.Post(SandboxTxn(a));
  }

  // ------------------------------------------------------------------ sums over holds

  lemma {:induction false} HoldReplaced(hs: seq<Hold>, i: nat, h: Hold, a: Account)
    requires i < |hs| && h.account == hs[i].account
    ensures HeldOn(hs[i := h], a) == HeldOn(hs, a)
      + (if h.account == a then (if IsOpen(h) then h.held else 0) - (if IsOpen(hs[i]) then hs[i].held else 0) else 0)
  {
    var n := |hs| - 1;
    if i == n {
      assert hs[i := h][..n] == hs[..n];
    } else {
      assert hs[i := h][..n] == hs[..n][i := h];
      HoldReplaced(hs[..n], i, h, a);
    }
  }

  lemma {:induction false} ExpiryFrees(hs: seq<Hold>, now: Millis, a: Account)
    requires forall i :: 0 <= i < |hs| && IsOpen(hs[i]) ==> hs[i].held >= 0
    ensures HeldOn(Expired(hs, now), a) <= HeldOn(hs, a)
  {
    if hs != [] {
      var n := |hs| - 1;
      ExpiryFrees(hs[..n], now, a);
      assert Expired(hs, now)[..n] == Expired(hs[..n], now);
    }
  }

  // ------------------------------------------------------------------ what holds keep

  lemma HoldsOnly(cfg: Config, s: State, holds: seq<Hold>)
    requires Inv(cfg, s) && HoldRowsOk(s.(holds := holds))
    ensures Inv(cfg, s.(holds := holds))
  {
    hide JournalOk, NonNegative, PayoutsOk, PeriodsCharged, RenewalsOk, PromoOk, RatingOk, TotalsOk, VibesOk, HoldRowsOk, SubsOk, IntentsOk;
    Frame(cfg, s, s.(holds := holds));
  }

  lemma CreateHoldKeeps(cfg: Config, s: State, a: HoldArgs)
    requires Inv(cfg, s) && CreateHold(cfg, s, a).Done?
    ensures Inv(cfg, CreateHold(cfg, s, a).state)
    ensures Covered(s) ==> Covered(CreateHold(cfg, s, a).state)
  {
    hide JournalOk, NonNegative, PayoutsOk, PeriodsCharged, RenewalsOk, PromoOk, RatingOk, TotalsOk, VibesOk, SubsOk, IntentsOk, HoldRowsOk, Spendable;
    if FindHold(s.holds, a.key).None? {
      var h := NewHold(cfg, s, a);
      assert (s.holds + [h])[..|s.holds|] == s.holds;
      HoldAccountSpendable(a);
      NewHoldRow(s, h);
      HoldsOnly(cfg, s, s.holds + [h]);
    }
  }

  lemma NewHoldRow(s: State, h: Hold)
    requires HoldRowsOk(s) && Spendable(h.account) && h.max >= 0 && h.held == h.max && IsOpen(h)
    ensures HoldRowsOk(s.(holds := s.holds + [h]))
  {
    hide Spendable, HasKey;
  }

  lemma HoldAccountSpendable(a: HoldArgs)
    ensures Spendable(HoldAccount(a.subject, a.project, a.sandbox))
  {
  }

  lemma ExtendHoldKeeps(cfg: Config, s: State, hold: nat, add: int)
    requires Inv(cfg, s) && ExtendHold(cfg, s, hold, add).Done?
    ensures Inv(cfg, ExtendHold(cfg, s, hold, add).state)
    ensures Covered(s) ==> Covered(ExtendHold(cfg, s, hold, add).state)
  {
    hide JournalOk, NonNegative, PayoutsOk, PeriodsCharged, RenewalsOk, PromoOk, RatingOk, TotalsOk, VibesOk, SubsOk, IntentsOk;
    var h := Extended(s, s.holds[hold], add);
    HoldsOnly(cfg, s, s.holds[hold := h]);
    forall a: Account ensures HeldOn(s.holds[hold := h], a) == HeldOn(s.holds, a) + (if h.account == a then add else 0) {
      HoldReplaced(s.holds, hold, h, a);
    }
  }

  /** Releasing frees the hold, and the answer is the amount it held, now and on every later call. */
  lemma ReleaseHoldKeeps(cfg: Config, s: State, hold: nat)
    requires Inv(cfg, s) && ReleaseHold(cfg, s, hold).Done?
    ensures Inv(cfg, ReleaseHold(cfg, s, hold).state)
    ensures Covered(s) ==> Covered(ReleaseHold(cfg, s, hold).state)
    ensures ReleaseHold(cfg, s, hold).value == s.holds[hold].max
    ensures ReleaseHold(cfg, ReleaseHold(cfg, s, hold).state, hold) == ReleaseHold(cfg, s, hold)
  {
    hide JournalOk, NonNegative, PayoutsOk, PeriodsCharged, RenewalsOk, PromoOk, RatingOk, TotalsOk, VibesOk, SubsOk, IntentsOk;
    if IsOpen(s.holds[hold]) {
      var h := s.holds[hold].(status := HoldReleased, held := 0);
      HoldsOnly(cfg, s, s.holds[hold := h]);
      forall a: Account ensures HeldOn(s.holds[hold := h], a) <= HeldOn(s.holds, a) {
        HoldReplaced(s.holds, hold, h, a);
      }
    }
  }

  lemma SweepHoldsKeeps(cfg: Config, s: State)
    requires Inv(cfg, s)
    ensures Inv(cfg, SweepHolds(cfg, s).state)
    ensures Covered(s) ==> Covered(SweepHolds(cfg, s).state)
  {
    hide JournalOk, NonNegative, PayoutsOk, PeriodsCharged, RenewalsOk, PromoOk, RatingOk, TotalsOk, VibesOk, SubsOk, IntentsOk;
    if cfg.creditsOpen && !s.frozen {
      HoldsOnly(cfg, s, Expired(s.holds, s.clock));
      forall a: Account ensures HeldOn(Expired(s.holds, s.clock), a) <= HeldOn(s.holds, a) {
        ExpiryFrees(s.holds, s.clock, a);
      }
    }
  }

  /** Only Balance accounts and nano revenue move: the parts about bits are not touched. */
  lemma NanoPairShape(cfg: Config, t: Txn, x: Account, y: Account, n: int)
    requires t.entries == [Entry(x, -n), Entry(y, n)] && x != y
    requires x.kind in {UsdCredit, UsdCreditSandbox} && y.kind in {UsdCredit, UsdCreditSandbox, PlatformRevenue} && x.currency == Nano
    requires t.ty == Credit || t.ty == BalanceTransfer
    requires t.meta == NoMeta || (t.ty == BalanceTransfer && t.meta.BalanceMeta? && t.meta.toProject.Some? && t.meta.moved > 0)
    requires t.source.None? && !t.key.Delivered? && t.receipt.None? && t.bitsPerUsd == 0
    ensures Shape(cfg, t)
    ensures forall a :: Delta(t.entries, a) == if a == x then -n else if a == y then n else 0
    ensures !Touches(t, PayoutsPending) && !Touches(t, ProjectPayable) && !Touches(t, PromoCredit) && !Touches(t, PromoReserve)
  {
    hide FxMirror, PromoIsolated, PendingOwned, Touches;
    PlainEntries(t);
    Sums2(Entry(x, -n), Entry(y, n));
    NoFxMirrors(t);
  }

  lemma SandboxGrantKeeps(cfg: Config, s: State, a: SandboxArgs)
    requires Inv(cfg, s) && SandboxGrant(cfg, s, a).Done?
    ensures Inv(cfg, SandboxGrant(cfg, s, a).state)
    ensures Covered(s) ==> Covered(SandboxGrant(cfg, s, a).state)
  {
    hide Post, Shape, Touches, JournalOk, PayoutsOk, PeriodsCharged, RenewalsOk, PromoOk, RatingOk, TotalsOk, VibesOk, SubsOk, HoldRowsOk, IntentsOk;
    var t := SandboxTxn(a);
    if Post(s.ledger, t).Posted? {
      NanoPairShape(cfg, t, SANDBOX_ISSUER, SandboxBalanceOf(a.subject, a.project), a.amount);
      PlainPost(cfg, s, t);
      BooksOf(cfg, s.ledger);
      PostEffect(s.ledger, t);
    }
  }

  /** The key of a settlement that is not recorded has never been posted. */
  lemma SettleIsFresh(s: State, key: nat)
    requires HoldRowsOk(s) && FindSettlement(s.settlements, key).None?
    ensures FindKey(s.ledger.journal, SettleKey(key)).None?
  {
    assert HasKey(s.ledger.journal, SettleKey(key)) || FindKey(s.ledger.journal, SettleKey(key)).None?;
  }

  /** The rows part of the holds' invariant, and the keys part. */
  ghost predicate SettlementRows(hs: seq<Hold>, ss: seq<Settlement>)
  {
    && (forall i :: 0 <= i < |hs| ==> Spendable(hs[i].account) && hs[i].max >= 0 && hs[i].held == (if IsOpen(hs[i]) then hs[i].max else 0))
    && (forall k :: 0 <= k < |ss| ==>
          && ss[k].hold < |hs| && hs[ss[k].hold].status == HoldSettled
          && ss[k].charge == ss[k].collected + ss[k].shortfall && ss[k].collected >= 0 && ss[k].shortfall >= 0)
    && (forall k, m :: 0 <= k < m < |ss| ==> ss[k].hold != ss[m].hold && ss[k].key != ss[m].key)
  }

  ghost predicate SettlementKeys(j: seq<Txn>, ss: seq<Settlement>)
  {
    && (forall k :: 0 <= k < |ss| ==> HasKey(j, SettleKey(ss[k].key)))
    && (forall key: nat :: HasKey(j, SettleKey(key)) ==> exists k :: 0 <= k < |ss| && ss[k].key == key)
  }

  lemma HoldRowsParts(s: State)
    ensures HoldRowsOk(s) <==> SettlementRows(s.holds, s.settlements) && SettlementKeys(s.ledger.journal, s.settlements)
  {
  }

  lemma SettledRow(hs: seq<Hold>, ss: seq<Settlement>, i: nat, row: Settlement)
    requires SettlementRows(hs, ss) && i < |hs| && IsOpen(hs[i]) && row.hold == i
    requires forall k :: 0 <= k < |ss| ==> ss[k].key != row.key
    requires row.charge == row.collected + row.shortfall && row.collected >= 0 && row.shortfall >= 0
    ensures SettlementRows(hs[i := hs[i].(status := HoldSettled, held := 0)], ss + [row])
  {
  }

  lemma SettledKey(j: seq<Txn>, t: Txn, ss: seq<Settlement>, row: Settlement)
    requires SettlementKeys(j, ss) && t.key == SettleKey(row.key)
    ensures SettlementKeys(j + [t], ss + [row])
  {
    HasKeyAppend(j, t);
    var ss' := ss + [row];
    forall key: nat | HasKey(j + [t], SettleKey(key)) ensures exists k :: 0 <= k < |ss'| && ss'[k].key == key {
      if key == row.key {
        assert ss'[|ss|].key == key;
      } else {
        var k :| 0 <= k < |ss| && ss[k].key == key;
        assert ss'[k].key == key;
      }
    }
  }

  lemma SettledRows(s: State, a: SettleHoldArgs, t: Txn, row: Settlement)
    requires HoldRowsOk(s) && a.hold < |s.holds| && IsOpen(s.holds[a.hold]) && FindSettlement(s.settlements, a.key).None?
    requires Books(s.ledger) && t.key == SettleKey(a.key) && Post(s.ledger, t).Posted?
    requires row.hold == a.hold && row.key == a.key && row.charge == row.collected + row.shortfall && row.collected >= 0 && row.shortfall >= 0
    ensures HoldRowsOk(s.(ledger := Post(s.ledger, t).ledger, settlements := s.settlements + [row],
                          holds := s.holds[a.hold := s.holds[a.hold].(status := HoldSettled, held := 0)]))
  {
    hide Post, Books, HoldRowsOk, SettlementRows, SettlementKeys;
    var stored := Appended(s.ledger, t);
    HoldRowsParts(s);
    SettledRow(s.holds, s.settlements, a.hold, row);
    SettledKey(s.ledger.journal, stored, s.settlements, row);
    HoldRowsParts(s.(ledger := Post(s.ledger, t).ledger, settlements := s.settlements + [row],
                     holds := s.holds[a.hold := s.holds[a.hold].(status := HoldSettled, held := 0)]));
  }

  /** What a settlement that is not a replay posts. */
  lemma SettlePosts(cfg: Config, s: State, a: SettleHoldArgs)
    requires SettleHold(cfg, s, a).Done? && FindSettlement(s.settlements, a.key).None? && HoldRowsOk(s)
    ensures a.hold < |s.holds| && IsOpen(s.holds[a.hold])
    ensures var h := s.holds[a.hold]; var collected := CollectedOf(s, h, ChargeOf(a));
      var t := SettleTxn(h, a.key, collected); var s' := SettleHold(cfg, s, a).state;
      && Post(s.ledger, t).Posted? && 0 <= collected <= ChargeOf(a)
      && s' == s.(ledger := Post(s.ledger, t).ledger, holds := s'.holds, settlements := s'.settlements)
      && s'.holds == s.holds[a.hold := h.(status := HoldSettled, held := 0)]
      && s'.settlements == s.settlements + [Settlement(
           a.hold, a.key, ChargeOf(a), collected, ReleasedOf(h, collected), ChargeOf(a) - collected, Post(s.ledger, t).txn)]
  {
    hide Post, HoldRowsOk, ComputeCharge, HeldOn;
    SettleIsFresh(s, a.key);
    FreshPosts(s.ledger, SettleTxn(s.holds[a.hold], a.key, CollectedOf(s, s.holds[a.hold], ChargeOf(a))));
  }

  lemma SettleHoldKeeps(cfg: Config, s: State, a: SettleHoldArgs)
    requires Inv(cfg, s) && SettleHold(cfg, s, a).Done?
    ensures Inv(cfg, SettleHold(cfg, s, a).state)
  {
    hide SettleHold, CollectedOf, Post, Shape, Touches, JournalOk, NonNegative, PayoutsOk, PeriodsCharged, RenewalsOk, PromoOk, RatingOk, TotalsOk, VibesOk, SubsOk, HoldRowsOk, IntentsOk;
    var s' := SettleHold(cfg, s, a).state;
    if FindSettlement(s.settlements, a.key).None? {
      SettlePosts(cfg, s, a);
      var h := s.holds[a.hold];
      var t := SettleTxn(h, a.key, CollectedOf(s, h, ChargeOf(a)));
      HoldIsSpendable(s, a.hold);
      NanoPairShape(cfg, t, h.account, t.entries[1].account, CollectedOf(s, h, ChargeOf(a)));
      PostKeeps(cfg, s, t);
      BooksOf(cfg, s.ledger);
      NanoFunds(s.ledger, t);
      SettledRows(s, a, t, s'.settlements[|s.settlements|]);
      Frame(cfg, s.(ledger := Post(s.ledger, t).ledger), s');
    } else {
      SettleReplays(cfg, s, a);
    }
  }

  lemma SettleReplays(cfg: Config, s: State, a: SettleHoldArgs)
    requires SettleHold(cfg, s, a).Done? && FindSettlement(s.settlements, a.key).Some?
    ensures SettleHold(cfg, s, a).state == s
  {
  }

  lemma HoldIsSpendable(s: State, i: nat)
    requires HoldRowsOk(s) && i < |s.holds|
    ensures Spendable(s.holds[i].account) && s.holds[i].held >= 0
  {
  }

  lemma NanoFunds(l: Ledger, t: Txn)
    requires Books(l) && NonNegative(l) && Post(l, t).Posted?
    requires forall a: Account :: Guarded(a.kind) ==> Delta(t.entries, a) == 0
    ensures NonNegative(Post(l, t).ledger)
  {
    FundsKept(l, t);
  }

  lemma CollectedWithin(s: State, h: Hold, charge: int)
    requires Available(s, h.account) >= 0 && charge >= 0 && h.held >= 0
    ensures 0 <= CollectedOf(s, h, charge) <= h.held + Available(s, h.account)
    ensures charge <= h.held + Available(s, h.account) ==> CollectedOf(s, h, charge) == charge
  {
    hide Available;
  }

  /**
   * What settling a covered hold does: the charge is what was collected and what was not; it
   * collects at most the hold and the account's other room, all of the charge when that is enough,
   * and what the hold reserved beyond it is free again.
   */
  lemma SettlingMoves(cfg: Config, s: State, a: SettleHoldArgs)
    requires Inv(cfg, s) && Covered(s) && FindSettlement(s.settlements, a.key).None?
    requires SettleHold(cfg, s, a).Done?
    ensures a.hold < |s.holds| && IsOpen(s.holds[a.hold]) && |SettleHold(cfg, s, a).state.settlements| == |s.settlements| + 1
    ensures var s' := SettleHold(cfg, s, a).state; var h := s.holds[a.hold]; var row := s'.settlements[|s.settlements|];
      && row.charge == ChargeOf(a) && row.charge == row.collected + row.shortfall
      && 0 <= row.collected <= h.held + Available(s, h.account)
      && (row.charge <= h.held + Available(s, h.account) ==> row.shortfall == 0)
      && row.released == Max(0, h.held - row.collected)
      && Bal(s'.ledger, h.account) == Bal(s.ledger, h.account) - row.collected
      && s'.holds[a.hold].held == 0 && s'.holds[a.hold].status == HoldSettled
    ensures Covered(SettleHold(cfg, s, a).state)
  {
    hide SettleHold, Post, Books, Shape, Touches, JournalOk, NonNegative, PayoutsOk, PeriodsCharged, RenewalsOk, PromoOk, RatingOk, TotalsOk, VibesOk, SubsOk,
         HoldRowsOk, IntentsOk, Bal, Delta, HeldOn, CollectedOf, ChargeOf;
    SettlePosts(cfg, s, a);
    var h := s.holds[a.hold];
    var t := SettleTxn(h, a.key, CollectedOf(s, h, ChargeOf(a)));
    HoldIsSpendable(s, a.hold);
    BooksOf(cfg, s.ledger);
    BalancesMove(s.ledger, t);
    NanoPairShape(cfg, t, h.account, t.entries[1].account, CollectedOf(s, h, ChargeOf(a)));
    var h' := h.(status := HoldSettled, held := 0);
    forall x: Account ensures HeldOn(s.holds[a.hold := h'], x) == HeldOn(s.holds, x) - (if x == h.account then h.held else 0) {
      HoldReplaced(s.holds, a.hold, h', x);
    }
    assert HeldOn(s.holds, h.account) <= Bal(s.ledger, h.account);
    CollectedWithin(s, h, ChargeOf(a));
  }
}
