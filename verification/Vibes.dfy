/** server/ops/vibes.js: an app sells an item for whole Vibes; a charge is paid once and refunded once. */
module Vibes {
  import opened Basics
  import opened Schema
  import opened Journal
  import opened Rates
  import opened Common
  import opened Invariants
  import opened Store
  import opened Transfers

  const MAX_VIBES := 10000000

  /** The calling app; a sandbox app only ever handles test Vibes. */
  datatype App = App(id: nat, project: nat, sandbox: bool)

  function PayerAccount(sandbox: bool, app: nat, p: Subject): Account { if sandbox then SandboxPocket(app, p) else CreditOf(p) }

  function ProjectAccount(sandbox: bool, app: nat, project: nat): Account
  {
    if sandbox then SandboxWallet(app, project) else WalletOf(project)
  }

  // ------------------------------------------------------------------ creating a charge

  datatype ChargeArgs = ChargeArgs(app: App, amount: int, reference: nat, description: nat, returnUrl: Option<nat>)
  datatype ChargeAnswer = ChargeAnswer(charge: nat, replay: bool)

  function FindReference(cs: seq<Charge>, app: nat, reference: nat): (r: Option<nat>)
    ensures r.Some? ==> r.value < |cs| && cs[r.value].app == app && cs[r.value].reference == reference
    ensures r.None? ==> forall i :: 0 <= i < |cs| ==> cs[i].app != app || cs[i].reference != reference
  {
    FindFirst(cs, (c: Charge) => c.app == app && c.reference == reference)
  }

  function CreateCharge(cfg: Config, s: State, a: ChargeArgs): Step<ChargeAnswer>
  {
    if !PositiveInt(a.amount, MAX_VIBES) then Fail(InvalidAmount)
    else if a.app.sandbox && !cfg.vibesSandbox then Fail(NotEnabled)
    else if !a.app.sandbox && !cfg.vibesPay then Fail(NotEnabled)
    else if !a.app.sandbox && (cfg.maxChargeVibes <= 0 || a.amount > cfg.maxChargeVibes) then Fail(LimitExceeded)
    else if s.frozen then Fail(EconomyFrozen)
    else
      var existing := FindReference(s.charges, a.app.id, a.reference);
      if existing.Some? then
        var row := s.charges[existing.value];
        if row.amount != a.amount || row.description != a.description || row.returnUrl != a.returnUrl then Fail(ReferenceReused)
        else Done(s, ChargeAnswer(existing.value, true))
      else
        Done(s.(charges := s.charges + [NewCharge(cfg, s.clock, a)]), ChargeAnswer(|s.charges|, false))
  }

  function NewCharge(cfg: Config, now: Millis, a: ChargeArgs): Charge
  {
    Charge(a.app.id, a.app.project, a.amount, a.reference, a.description, a.returnUrl, a.app.sandbox, now + cfg.chargeTtl, Pending, None, 0)
  }

  method OpenCharge(cfg: Config, db: Db, a: ChargeArgs) returns (r: Result<ChargeAnswer, Error>)
    modifies db
    ensures db.Answers(old(db.View()), CreateCharge(cfg, old(db.View()), a), r)
  {
    if !PositiveInt(a.amount, MAX_VIBES) { return Err(InvalidAmount); }
    if a.app.sandbox {
      if !cfg.vibesSandbox { return Err(NotEnabled); }
    } else {
      if !cfg.vibesPay { return Err(NotEnabled); }
      if cfg.maxChargeVibes <= 0 { return Err(LimitExceeded); }
      if a.amount > cfg.maxChargeVibes { return Err(LimitExceeded); }
    }
    if db.frozen { return Err(EconomyFrozen); }
    var existing := FindReference(db.charges, a.app.id, a.reference);
    if existing.Some? {
      var row := db.charges[existing.value];
      if row.amount != a.amount || row.description != a.description || row.returnUrl != a.returnUrl { return Err(ReferenceReused); }
      return Ok(ChargeAnswer(existing.value, true));
    }
    r := Ok(ChargeAnswer(|db.charges|, false));
    db.charges := db.charges + [
      Charge(a.app.id, a.app.project, a.amount, a.reference, a.description, a.returnUrl, a.app.sandbox, db.clock + cfg.chargeTtl,
             Pending, None, 0)];
  }

  // ------------------------------------------------------------------ paying it

  datatype PayAnswer = PaidNow(txn: nat) | PaidBefore | LinkExpired

  /** spentToday: paid charges of the last day, sandbox ones included. */
  function SpentToday(cs: seq<Charge>, p: Subject, now: Millis): int
  {
    if cs == [] then 0
    else
      var c := cs[|cs| - 1];
      SpentToday(cs[..|cs| - 1], p, now) + (if c.payer == Some(p) && c.status == ChargePaid && c.paidAt > now - DAY then c.amount else 0)
  }

  function PayTxn(cfg: Config, c: Charge, i: nat, p: Subject): Txn
  {
    Txn(VibesCharge, ChargePaidKey(i),
        [Entry(PayerAccount(c.sandbox, c.app, p), -c.amount), Entry(ProjectAccount(c.sandbox, c.app, c.project), c.amount)],
        None, Some(p), None, None, None, None, NoMeta, 0)
  }

  /** Whether the owner's switches and limits let this person pay this charge now. */
  function PayRefused(cfg: Config, s: State, c: Charge, p: Subject): Option<Error>
  {
    if c.sandbox then if cfg.vibesSandbox then None else Some(NotEnabled)
    else if !cfg.vibesPay || !cfg.authority then Some(NotEnabled)
    else if cfg.dailyVibes <= 0 || SpentToday(s.charges, p, s.clock) + c.amount > cfg.dailyVibes then Some(LimitExceeded)
    else None
  }

  function PaidRow(c: Charge, p: Subject, now: Millis): Charge { c.(status := ChargePaid, paidAt := now, payer := Some(p)) }

  function PayCharge(cfg: Config, s: State, i: nat, p: Subject): Step<PayAnswer>
  {
    if s.frozen then Fail(EconomyFrozen)
    else if i >= |s.charges| then Fail(NotFound)
    else
      var c := s.charges[i];
      if c.status == ChargePaid && c.payer == Some(p) then Done(s, PaidBefore)
      else if c.status != Pending then Fail(NotPending)
      else if c.expiresAt <= s.clock then Done(s.(charges := s.charges[i := c.(status := ChargeExpired)]), LinkExpired)
      else
        var refused := PayRefused(cfg, s, c, p);
        if refused.Some? then Fail(refused.value)
        else if Bal(s.ledger, PayerAccount(c.sandbox, c.app, p)) < c.amount then Fail(InsufficientFunds)
        else
          match PostOn(s, PayTxn(cfg, c, i, p))
          case Fail(e) => Fail(e)
          case Done(s', o) => Done(s'.(charges := s.charges[i := PaidRow(c, p, s.clock)]), PaidNow(o.txn))
  }

  method SumSpentToday(db: Db, p: Subject) returns (spent: int)
    ensures spent == SpentToday(db.charges, p, db.clock)
  {
    spent := 0;
    for i := 0 to |db.charges|
      invariant spent == SpentToday(db.charges[..i], p, db.clock)
    {
      assert db.charges[..i + 1][..i] == db.charges[..i];
      var c := db.charges[i];
      if c.payer == Some(p) && c.status == ChargePaid && c.paidAt > db.clock - DAY { spent := spent + c.amount; }
    }
    assert db.charges[..|db.charges|] == db.charges;
  }

  method PayVibes(cfg: Config, db: Db, i: nat, p: Subject) returns (r: Result<PayAnswer, Error>)
    modifies db
    ensures db.Answers(old(db.View()), PayCharge(cfg, old(db.View()), i, p), r)
  {
    hide Post;
    if db.frozen { return Err(EconomyFrozen); }
    if i >= |db.charges| { return Err(NotFound); }
    var c := db.charges[i];
    if c.status == ChargePaid && c.payer == Some(p) { return Ok(PaidBefore); }
    if c.status != Pending { return Err(NotPending); }
    if c.expiresAt <= db.clock {
      db.charges := db.charges[i := c.(status := ChargeExpired)];
      return Ok(LinkExpired);
    }
    if c.sandbox {
      if !cfg.vibesSandbox { return Err(NotEnabled); }
    } else {
      if !cfg.vibesPay || !cfg.authority { return Err(NotEnabled); }
      if cfg.dailyVibes <= 0 { return Err(LimitExceeded); }
      var spent := SumSpentToday(db, p);
      if spent + c.amount > cfg.dailyVibes { return Err(LimitExceeded); }
    }
    var enough := db.Holds(PayerAccount(c.sandbox, c.app, p), c.amount);
    if !enough { return Err(InsufficientFunds); }
    var posted := db.Post(PayTxn(cfg, c, i, p));
    if posted.Err? { return Err(posted.error); }
    db.charges := db.charges[i := PaidRow(c, p, db.clock)];
    r := Ok(PaidNow(posted.value.txn));
  }

  // ------------------------------------------------------------------ refunding and cancelling

  datatype RefundAnswer = RefundedNow(txn: nat) | RefundedBefore

  function RefundTxn(c: Charge, i: nat, p: Subject): Txn
  {
    Txn(VibesRefund, ChargeRefundKey(i),
        [Entry(ProjectAccount(c.sandbox, c.app, c.project), -c.amount), Entry(PayerAccount(c.sandbox, c.app, p), c.amount)],
        None, None, Some(p), None, None, None, NoMeta, 0)
  }

  function RefundCharge(cfg: Config, s: State, i: nat, app: nat): Step<RefundAnswer>
  {
    if s.frozen then Fail(EconomyFrozen)
    else if i >= |s.charges| || s.charges[i].app != app then Fail(NotFound)
    else
      var c := s.charges[i];
      if c.status == ChargeRefunded then Done(s, RefundedBefore)
      else if c.status != ChargePaid || c.payer.None? then Fail(NotPaid)
      else if !c.sandbox && !cfg.authority then Fail(NotEnabled)
      else if Bal(s.ledger, ProjectAccount(c.sandbox, c.app, c.project)) < c.amount then Fail(InsufficientFunds)
      else
        match PostOn(s, RefundTxn(c, i, c.payer.value))
        case Fail(e) => Fail(e)
        case Done(s', o) => Done(s'.(charges := s.charges[i := c.(status := ChargeRefunded)]), RefundedNow(o.txn))
  }

  method RefundVibes(cfg: Config, db: Db, i: nat, app: nat) returns (r: Result<RefundAnswer, Error>)
    modifies db
    ensures db.Answers(old(db.View()), RefundCharge(cfg, old(db.View()), i, app), r)
  {
    hide Post;
    if db.frozen { return Err(EconomyFrozen); }
    if i >= |db.charges| || db.charges[i].app != app { return Err(NotFound); }
    var c := db.charges[i];
    if c.status == ChargeRefunded { return Ok(RefundedBefore); }
    if c.status != ChargePaid { return Err(NotPaid); }
    if c.payer.None? { return Err(NotPaid); }
    if !c.sandbox && !cfg.authority { return Err(NotEnabled); }
    var enough := db.Holds(ProjectAccount(c.sandbox, c.app, c.project), c.amount);
    if !enough { return Err(InsufficientFunds); }
    var posted := db.Post(RefundTxn(c, i, c.payer.value));
    if posted.Err? { return Err(posted.error); }
    db.charges := db.charges[i := c.(status := ChargeRefunded)];
    r := Ok(RefundedNow(posted.value.txn));
  }

  datatype CancelAnswer = CancelledNow | CancelledBefore | CancelExpired

  function CancelCharge(s: State, i: nat): Step<CancelAnswer>
  {
    if s.frozen then Fail(EconomyFrozen)
    else if i >= |s.charges| then Fail(NotFound)
    else
      var c := s.charges[i];
      if c.status == Cancelled then Done(s, CancelledBefore)
      else if c.status != Pending then Fail(NotPending)
      else if c.expiresAt <= s.clock then Done(s.(charges := s.charges[i := c.(status := ChargeExpired)]), CancelExpired)
      else Done(s.(charges := s.charges[i := c.(status := Cancelled)]), CancelledNow)
  }

  method CancelVibes(db: Db, i: nat) returns (r: Result<CancelAnswer, Error>)
    modifies db
    ensures db.Answers(old(db.View()), CancelCharge(old(db.View()), i), r)
  {
    if db.frozen { return Err(EconomyFrozen); }
    if i >= |db.charges| { return Err(NotFound); }
    var c := db.charges[i];
    if c.status == Cancelled { return Ok(CancelledBefore); }
    if c.status != Pending { return Err(NotPending); }
    if c.expiresAt <= db.clock {
      db.charges := db.charges[i := c.(status := ChargeExpired)];
      return Ok(CancelExpired);
    }
    db.charges := db.charges[i := c.(status := Cancelled)];
    r := Ok(CancelledNow);
  }

  // ------------------------------------------------------------------ test Vibes

  datatype TestVibesArgs = TestVibesArgs(app: App, subject: Subject, amount: int, grant: nat)

  function TestVibesTxn(a: TestVibesArgs): Txn
  {
    Txn(VibesGrant, VibesGrantKey(a.grant), [Entry(VIBES_ISSUER, -a.amount), Entry(SandboxPocket(a.app.id, a.subject), a.amount)],
        None, None, Some(a.subject), None, None, None, NoMeta, 0)
  }

  function TestVibes(cfg: Config, s: State, a: TestVibesArgs): Step<Outcome>
  {
    if !a.app.sandbox then Fail(InvalidInput)
    else if !cfg.vibesSandbox then Fail(NotEnabled)
    else if s.frozen then Fail(EconomyFrozen)
    else if !PositiveInt(a.amount, MAX_VIBES) then Fail(InvalidAmount)
    else PostOn(s, TestVibesTxn(a))
  }

  method GrantTestVibes(cfg: Config, db: Db, a: TestVibesArgs) returns (r: Result<Outcome, Error>)
    modifies db
    ensures db.Answers(old(db.View()), TestVibes(cfg, old(db.View()), a), r)
  {
    if !a.app.sandbox { return Err(InvalidInput); }
    if !cfg.vibesSandbox { return Err(NotEnabled); }
    if db.frozen { return Err(EconomyFrozen); }
    if !PositiveInt(a.amount, MAX_VIBES) { return Err(InvalidAmount); }
    r := db.Post(TestVibesTxn(a));
  }

  // ------------------------------------------------------------------ sums over charges

  function PaidAmount(c: Charge, project: nat): int { if c.project == project && !c.sandbox && c.status == ChargePaid then c.amount else 0 }

  lemma {:induction false} PaidIntoReplaced(cs: seq<Charge>, i: nat, c: Charge, project: nat)
    requires i < |cs|
    ensures PaidInto(cs[i := c], project) == PaidInto(cs, project) + PaidAmount(c, project) - PaidAmount(cs[i], project)
  {
    var n := |cs| - 1;
    if i == n {
      assert cs[i := c][..n] == cs[..n];
    } else {
      assert cs[i := c][..n] == cs[..n][i := c];
      PaidIntoReplaced(cs[..n], i, c, project);
    }
  }

  function SpentAmount(c: Charge, p: Subject, after: Millis, upto: Millis, sandboxToo: bool): int
  {
    if c.payer == Some(p) && c.status == ChargePaid && (sandboxToo || !c.sandbox) && after < c.paidAt <= upto then c.amount else 0
  }

  lemma {:induction false} SpentReplaced(cs: seq<Charge>, i: nat, c: Charge, p: Subject, after: Millis, upto: Millis, sandboxToo: bool)
    requires i < |cs|
    ensures SpentIn(cs[i := c], p, after, upto, sandboxToo)
      == SpentIn(cs, p, after, upto, sandboxToo) + SpentAmount(c, p, after, upto, sandboxToo) - SpentAmount(cs[i], p, after, upto, sandboxToo)
  {
    var n := |cs| - 1;
    if i == n {
      assert cs[i := c][..n] == cs[..n];
    } else {
      assert cs[i := c][..n] == cs[..n][i := c];
      SpentReplaced(cs[..n], i, c, p, after, upto, sandboxToo);
    }
  }

  /** A window that reaches now holds no more than spentToday counts. */
  lemma {:induction false} WindowWithinToday(cs: seq<Charge>, p: Subject, now: Millis, after: Millis, upto: Millis)
    requires after >= now - DAY
    requires forall i :: 0 <= i < |cs| ==> cs[i].amount > 0
    ensures SpentIn(cs, p, after, upto, false) <= SpentToday(cs, p, now)
  {
    if cs != [] { WindowWithinToday(cs[..|cs| - 1], p, now, after, upto); }
  }

  // ------------------------------------------------------------------ what a payment looks like

  lemma VibesAccounts(t: Txn)
    requires forall i :: 0 <= i < |t.entries| ==> t.entries[i].account.kind != PayoutsPending && !IsPromo(t.entries[i].account.kind)
    ensures PromoIsolated(t) && PendingOwned(t)
    ensures !Touches(t, PayoutsPending) && !Touches(t, PromoCredit) && !Touches(t, PromoReserve)
    ensures (forall i :: 0 <= i < |t.entries| ==> t.entries[i].account.kind != ProjectPayable) ==> !Touches(t, ProjectPayable)
  {
  }

  lemma VibesPairShape(cfg: Config, t: Txn, x: Account, y: Account, n: int)
    requires t.entries == [Entry(x, -n), Entry(y, n)] && x != y && x.currency == Bits && y.currency == Bits
    requires x.kind in {UserCredit, ProjectPayable, VibesCreditSandbox, ProjectPayableSandbox, VibesSandbox}
    requires y.kind in {UserCredit, ProjectPayable, VibesCreditSandbox, ProjectPayableSandbox}
    requires t.ty == VibesCharge || t.ty == VibesRefund || t.ty == VibesGrant
    requires t.meta == NoMeta && t.source.None? && !t.key.Delivered? && t.receipt.None? && t.bitsPerUsd == 0
    ensures Shape(cfg, t)
    ensures forall a :: Delta(t.entries, a) == if a == x then -n else if a == y then n else 0
    ensures !Touches(t, PayoutsPending) && !Touches(t, PromoCredit) && !Touches(t, PromoReserve)
    ensures x.kind != ProjectPayable && y.kind != ProjectPayable ==> !Touches(t, ProjectPayable)
  {
    hide FxMirror, PromoIsolated, PendingOwned, Touches, Delta, SumOf;
    VibesAccounts(t);
    Sums2(Entry(x, -n), Entry(y, n));
    NoFxMirrors(t);
  }

  lemma TestVibesKeeps(cfg: Config, s: State, a: TestVibesArgs)
    requires Inv(cfg, s) && TestVibes(cfg, s, a).Done?
    ensures Inv(cfg, TestVibes(cfg, s, a).state)
  {
    hide Post, Shape, Touches, JournalOk, PayoutsOk, PeriodsCharged, RenewalsOk, PromoOk, RatingOk, TotalsOk, VibesOk, SubsOk, HoldRowsOk, IntentsOk;
    var t := TestVibesTxn(a);
    if Post(s.ledger, t).Posted? {
      VibesPairShape(cfg, t, VIBES_ISSUER, SandboxPocket(a.app.id, a.subject), a.amount);
      PlainPost(cfg, s, t);
    }
  }

  /** What the wallets and the charges need of a step on charge `i`. */
  lemma ChargeStepped(cfg: Config, s: State, s': State, i: nat)
    requires VibesOk(cfg, s) && i < |s.charges| && s'.clock == s.clock && s'.cashouts == s.cashouts
    requires |s'.charges| == |s.charges| && s'.charges == s.charges[i := s'.charges[i]]
    requires ChargeOk(s', i)
    requires forall k: nat :: k != i ==>
      && (HasKey(s'.ledger.journal, ChargePaidKey(k)) <==> HasKey(s.ledger.journal, ChargePaidKey(k)))
      && (HasKey(s'.ledger.journal, ChargeRefundKey(k)) <==> HasKey(s.ledger.journal, ChargeRefundKey(k)))
    requires forall project: nat ::
      (Bal(s'.ledger, WalletOf(project))
       == Bal(s.ledger, WalletOf(project)) + PaidAmount(s'.charges[i], project) - PaidAmount(s.charges[i], project))
    requires LimitKept(cfg, s'.charges)
    ensures VibesOk(cfg, s')
  {
    forall project: nat
      ensures Bal(s'.ledger, WalletOf(project)) == PaidInto(s'.charges, project) - CashedOut(s'.cashouts, project)
    {
      PaidIntoReplaced(s.charges, i, s'.charges[i], project);
    }
    forall k | 0 <= k < |s'.charges| ensures ChargeOk(s', k) {
      if k != i { assert ChargeOk(s, k); }
    }
  }

  /** A charge that leaves the paid state, or never reached it, spends nothing more. */
  lemma SpentLess(cfg: Config, s: State, i: nat, c: Charge)
    requires VibesOk(cfg, s) && i < |s.charges| && c.status != ChargePaid
    ensures LimitKept(cfg, s.charges[i := c])
  {
    assert ChargeOk(s, i);
    var cs := s.charges[i := c];
    forall p: Subject, after: Millis, upto: Millis | upto <= after + DAY
      ensures SpentIn(cs, p, after, upto, false) <= Max(0, cfg.dailyVibes)
    {
      SpentReplaced(s.charges, i, c, p, after, upto, false);
    }
  }

  /** The rolling limit: the check against the last day is enough for every window of a day. */
  lemma LimitHolds(cfg: Config, s: State, i: nat, p: Subject)
    requires VibesOk(cfg, s) && i < |s.charges| && s.charges[i].status == Pending
    requires PayRefused(cfg, s, s.charges[i], p).None?
    ensures LimitKept(cfg, s.charges[i := PaidRow(s.charges[i], p, s.clock)])
  {
    var c := s.charges[i];
    var c' := PaidRow(c, p, s.clock);
    var cs := s.charges[i := c'];
    forall q: Subject, after: Millis, upto: Millis | upto <= after + DAY
      ensures SpentIn(cs, q, after, upto, false) <= Max(0, cfg.dailyVibes)
    {
      SpentReplaced(s.charges, i, c', q, after, upto, false);
      if SpentAmount(c', q, after, upto, false) != 0 {
        forall k | 0 <= k < |s.charges| ensures s.charges[k].amount > 0 { assert ChargeOk(s, k); }
        WindowWithinToday(s.charges, p, s.clock, after, upto);
      }
    }
  }

  lemma ChargeKeys(cfg: Config, s: State, i: nat)
    requires VibesOk(cfg, s) && i < |s.charges|
    ensures s.charges[i].amount > 0
    ensures s.charges[i].status == Pending ==> FindKey(s.ledger.journal, ChargePaidKey(i)).None?
    ensures s.charges[i].status != ChargeRefunded ==> FindKey(s.ledger.journal, ChargeRefundKey(i)).None?
  {
    assert ChargeOk(s, i);
    assert HasKey(s.ledger.journal, ChargePaidKey(i)) || FindKey(s.ledger.journal, ChargePaidKey(i)).None?;
    assert HasKey(s.ledger.journal, ChargeRefundKey(i)) || FindKey(s.ledger.journal, ChargeRefundKey(i)).None?;
  }

  /** A row that changes with no money: expired or cancelled while pending. */
  lemma ClosedKeeps(cfg: Config, s: State, i: nat, status: ChargeStatus)
    requires Inv(cfg, s) && i < |s.charges| && s.charges[i].status == Pending
    requires status == ChargeExpired || status == Cancelled
    ensures Inv(cfg, s.(charges := s.charges[i := s.charges[i].(status := status)]))
  {
    hide JournalOk, NonNegative, PayoutsOk, PeriodsCharged, SubsOk, RenewalsOk, PromoOk, RatingOk, TotalsOk, VibesOk, HoldRowsOk, IntentsOk;
    var c := s.charges[i].(status := status);
    var s' := s.(charges := s.charges[i := c]);
    Frame(cfg, s, s');
    SpentLess(cfg, s, i, c);
    ClosedOk(cfg, s, i, c);
    ChargeStepped(cfg, s, s', i);
  }

  lemma ClosedOk(cfg: Config, s: State, i: nat, c: Charge)
    requires VibesOk(cfg, s) && i < |s.charges| && s.charges[i].status == Pending
    requires c == s.charges[i].(status := c.status) && (c.status == ChargeExpired || c.status == Cancelled)
    ensures ChargeOk(s.(charges := s.charges[i := c]), i)
  {
    assert ChargeOk(s, i);
  }

  lemma CreateChargeKeeps(cfg: Config, s: State, a: ChargeArgs)
    requires Inv(cfg, s) && CreateCharge(cfg, s, a).Done?
    ensures Inv(cfg, CreateCharge(cfg, s, a).state)
  {
    hide JournalOk, NonNegative, PayoutsOk, PeriodsCharged, SubsOk, RenewalsOk, PromoOk, RatingOk, TotalsOk, VibesOk, HoldRowsOk, IntentsOk;
    if FindReference(s.charges, a.app.id, a.reference).None? {
      Frame(cfg, s, CreateCharge(cfg, s, a).state);
      ChargeAppended(cfg, s, NewCharge(cfg, s.clock, a));
    }
  }

  lemma ChargeAppended(cfg: Config, s: State, c: Charge)
    requires VibesOk(cfg, s) && c.status == Pending && c.amount > 0
    ensures VibesOk(cfg, s.(charges := s.charges + [c]))
  {
    var s' := s.(charges := s.charges + [c]);
    assert s'.charges[..|s.charges|] == s.charges;
    forall k | 0 <= k < |s'.charges| ensures ChargeOk(s', k) {
      if k < |s.charges| { assert ChargeOk(s, k); }
    }
  }

  // ------------------------------------------------------------------ paying and refunding keep the books

  lemma PayPosts(cfg: Config, s: State, i: nat, p: Subject)
    requires PayCharge(cfg, s, i, p).Done? && PayCharge(cfg, s, i, p).value.PaidNow? && VibesOk(cfg, s)
    ensures i < |s.charges| && s.charges[i].status == Pending && PayRefused(cfg, s, s.charges[i], p).None?
    ensures var c := s.charges[i]; var t := PayTxn(cfg, c, i, p);
      && c.amount > 0 && c.amount <= Bal(s.ledger, PayerAccount(c.sandbox, c.app, p))
      && FindKey(s.ledger.journal, ChargePaidKey(i)).None?
      && Post(s.ledger, t).Posted?
      && PayCharge(cfg, s, i, p).state == s.(ledger := Post(s.ledger, t).ledger, charges := s.charges[i := PaidRow(c, p, s.clock)])
  {
    hide Post, VibesOk, SpentToday;
    ChargeKeys(cfg, s, i);
    FreshPosts(s.ledger, PayTxn(cfg, s.charges[i], i, p));
  }

  lemma KeysApart(l: Ledger, t: Txn)
    requires Books(l) && Post(l, t).Posted?
    ensures forall k: Key :: HasKey(Post(l, t).ledger.journal, k) <==> HasKey(l.journal, k) || t.key == k
  {
    hide Post, Books;
    var stored := Appended(l, t);
    HasKeyAppend(l.journal, stored);
  }

  lemma PaidVibes(cfg: Config, s: State, i: nat, p: Subject)
    requires Books(s.ledger) && VibesOk(cfg, s) && i < |s.charges| && s.charges[i].status == Pending
    requires PayRefused(cfg, s, s.charges[i], p).None?
    requires Post(s.ledger, PayTxn(cfg, s.charges[i], i, p)).Posted?
    ensures VibesOk(cfg, s.(ledger := Post(s.ledger, PayTxn(cfg, s.charges[i], i, p)).ledger,
                            charges := s.charges[i := PaidRow(s.charges[i], p, s.clock)]))
  {
    var c := s.charges[i];
    var t := PayTxn(cfg, c, i, p);
    assert ChargeOk(s, i);
    PayMoves(cfg, s, i, p);
    KeysApart(s.ledger, t);
    LimitHolds(cfg, s, i, p);
    hide Post, Books, PayRefused, VibesOk, PayTxn;
    var s' := s.(ledger := Post(s.ledger, t).ledger, charges := s.charges[i := PaidRow(c, p, s.clock)]);
    ChargeStepped(cfg, s, s', i);
  }

  lemma PayMoves(cfg: Config, s: State, i: nat, p: Subject)
    requires Books(s.ledger) && i < |s.charges| && s.charges[i].status == Pending
    requires Post(s.ledger, PayTxn(cfg, s.charges[i], i, p)).Posted?
    ensures var c := s.charges[i]; var t := PayTxn(cfg, c, i, p);
      && t.key == ChargePaidKey(i)
      && forall project: nat :: Bal(Post(s.ledger, t).ledger, WalletOf(project))
           == Bal(s.ledger, WalletOf(project)) + PaidAmount(PaidRow(c, p, s.clock), project) - PaidAmount(c, project)
  {
    hide Post, Books;
    var c := s.charges[i];
    var t := PayTxn(cfg, c, i, p);
    Sums2(t.entries[0], t.entries[1]);
    assert t.entries == [t.entries[0], t.entries[1]];
    PostEffect(s.ledger, t);
  }

  /** Paying keeps every check: the money moves once, the wallet follows the charges, and the limit holds. */
  lemma PayChargeKeeps(cfg: Config, s: State, i: nat, p: Subject)
    requires Inv(cfg, s) && PayCharge(cfg, s, i, p).Done?
    ensures Inv(cfg, PayCharge(cfg, s, i, p).state)
  {
    hide Post, Books, Bal, Delta, PayRefused, Shape, Touches, JournalOk, NonNegative, PayoutsOk, PeriodsCharged, RenewalsOk, PromoOk, RatingOk, TotalsOk, VibesOk, SubsOk, HoldRowsOk, IntentsOk;
    var r := PayCharge(cfg, s, i, p);
    if r.value.LinkExpired? {
      ClosedKeeps(cfg, s, i, ChargeExpired);
    } else if r.value.PaidNow? {
      PayPosts(cfg, s, i, p);
      var c := s.charges[i];
      var t := PayTxn(cfg, c, i, p);
      VibesPairShape(cfg, t, PayerAccount(c.sandbox, c.app, p), ProjectAccount(c.sandbox, c.app, c.project), c.amount);
      PostKeeps(cfg, s, t);
      BooksOf(cfg, s.ledger);
      DebitKept(s.ledger, t, PayerAccount(c.sandbox, c.app, p), c.amount);
      PaidVibes(cfg, s, i, p);
      Frame(cfg, s.(ledger := Post(s.ledger, t).ledger), r.state);
    }
  }

  /** One covered debit leaves nothing guarded below zero. */
  lemma DebitKept(l: Ledger, t: Txn, x: Account, n: int)
    requires Books(l) && NonNegative(l) && Post(l, t).Posted? && 0 <= n <= Bal(l, x)
    requires forall a :: a != x ==> Delta(t.entries, a) >= 0
    requires Delta(t.entries, x) == -n
    ensures NonNegative(Post(l, t).ledger)
  {
    FundsKept(l, t);
  }

  lemma RefundPosts(cfg: Config, s: State, i: nat, app: nat)
    requires RefundCharge(cfg, s, i, app).Done? && RefundCharge(cfg, s, i, app).value.RefundedNow? && VibesOk(cfg, s)
    ensures i < |s.charges| && s.charges[i].status == ChargePaid && s.charges[i].payer.Some?
    ensures var c := s.charges[i]; var t := RefundTxn(c, i, c.payer.value);
      && 0 < c.amount <= Bal(s.ledger, ProjectAccount(c.sandbox, c.app, c.project))
      && FindKey(s.ledger.journal, ChargeRefundKey(i)).None?
      && Post(s.ledger, t).Posted?
      && RefundCharge(cfg, s, i, app).state == s.(ledger := Post(s.ledger, t).ledger, charges := s.charges[i := c.(status := ChargeRefunded)])
  {
    hide Post, VibesOk;
    ChargeKeys(cfg, s, i);
    FreshPosts(s.ledger, RefundTxn(s.charges[i], i, s.charges[i].payer.value));
  }

  lemma RefundMoves(cfg: Config, s: State, i: nat)
    requires Books(s.ledger) && i < |s.charges| && s.charges[i].status == ChargePaid && s.charges[i].payer.Some?
    requires Post(s.ledger, RefundTxn(s.charges[i], i, s.charges[i].payer.value)).Posted?
    ensures var c := s.charges[i]; var t := RefundTxn(c, i, c.payer.value);
      && t.key == ChargeRefundKey(i)
      && forall project: nat :: Bal(Post(s.ledger, t).ledger, WalletOf(project))
           == Bal(s.ledger, WalletOf(project)) + PaidAmount(c.(status := ChargeRefunded), project) - PaidAmount(c, project)
  {
    hide Post, Books;
    var c := s.charges[i];
    var t := RefundTxn(c, i, c.payer.value);
    Sums2(t.entries[0], t.entries[1]);
    assert t.entries == [t.entries[0], t.entries[1]];
    PostEffect(s.ledger, t);
  }

  lemma RefundedVibes(cfg: Config, s: State, i: nat)
    requires Books(s.ledger) && VibesOk(cfg, s) && i < |s.charges| && s.charges[i].status == ChargePaid
    requires s.charges[i].payer.Some?
    requires Post(s.ledger, RefundTxn(s.charges[i], i, s.charges[i].payer.value)).Posted?
    ensures VibesOk(cfg, s.(ledger := Post(s.ledger, RefundTxn(s.charges[i], i, s.charges[i].payer.value)).ledger,
                            charges := s.charges[i := s.charges[i].(status := ChargeRefunded)]))
  {
    var c := s.charges[i];
    var t := RefundTxn(c, i, c.payer.value);
    assert ChargeOk(s, i);
    RefundMoves(cfg, s, i);
    KeysApart(s.ledger, t);
    SpentLess(cfg, s, i, c.(status := ChargeRefunded));
    hide Post, Books, VibesOk, RefundTxn;
    var s' := s.(ledger := Post(s.ledger, t).ledger, charges := s.charges[i := c.(status := ChargeRefunded)]);
    ChargeStepped(cfg, s, s', i);
  }

  lemma RefundChargeKeeps(cfg: Config, s: State, i: nat, app: nat)
    requires Inv(cfg, s) && RefundCharge(cfg, s, i, app).Done?
    ensures Inv(cfg, RefundCharge(cfg, s, i, app).state)
  {
    hide Post, Books, Bal, Delta, Shape, Touches, JournalOk, NonNegative, PayoutsOk, PeriodsCharged, RenewalsOk, PromoOk, RatingOk, TotalsOk, VibesOk, SubsOk,
         HoldRowsOk, IntentsOk;
    var r := RefundCharge(cfg, s, i, app);
    if r.value.RefundedNow? {
      RefundPosts(cfg, s, i, app);
      var c := s.charges[i];
      var t := RefundTxn(c, i, c.payer.value);
      VibesPairShape(cfg, t, ProjectAccount(c.sandbox, c.app, c.project), PayerAccount(c.sandbox, c.app, c.payer.value), c.amount);
      PostKeeps(cfg, s, t);
      BooksOf(cfg, s.ledger);
      DebitKept(s.ledger, t, ProjectAccount(c.sandbox, c.app, c.project), c.amount);
      RefundedVibes(cfg, s, i);
      Frame(cfg, s.(ledger := Post(s.ledger, t).ledger), r.state);
    }
  }

  lemma CancelChargeKeeps(cfg: Config, s: State, i: nat)
    requires Inv(cfg, s) && CancelCharge(s, i).Done?
    ensures Inv(cfg, CancelCharge(s, i).state)
  {
    hide Inv;
    if CancelCharge(s, i).value.CancelExpired? { ClosedKeeps(cfg, s, i, ChargeExpired); }
    if CancelCharge(s, i).value.CancelledNow? { ClosedKeeps(cfg, s, i, Cancelled); }
  }

  /** A charge paid by one person moves its amount once; paying again, by anyone, moves nothing. */
  lemma PaidOnce(cfg: Config, s: State, i: nat, p: Subject, q: Subject)
    requires Inv(cfg, s) && PayCharge(cfg, s, i, p).Done? && PayCharge(cfg, s, i, p).value.PaidNow?
    ensures var s' := PayCharge(cfg, s, i, p).state; var c := s.charges[i];
      && Bal(s'.ledger, PayerAccount(c.sandbox, c.app, p)) == Bal(s.ledger, PayerAccount(c.sandbox, c.app, p)) - c.amount
      && Bal(s'.ledger, ProjectAccount(c.sandbox, c.app, c.project)) == Bal(s.ledger, ProjectAccount(c.sandbox, c.app, c.project)) + c.amount
      && (PayCharge(cfg, s', i, q).Done? <==> q == p && !s.frozen)
      && (PayCharge(cfg, s', i, q).Done? ==> PayCharge(cfg, s', i, q).state == s')
  {
    hide Inv, PayRefused, Post;
    InvVibes(cfg, s);
    PayPosts(cfg, s, i, p);
    InvBooks(cfg, s);
    var c := s.charges[i];
    var t := PayTxn(cfg, c, i, p);
    Sums2(t.entries[0], t.entries[1]);
    assert t.entries == [t.entries[0], t.entries[1]];
    PostEffect(s.ledger, t);
  }

  lemma InvVibes(cfg: Config, s: State)
    requires Inv(cfg, s)
    ensures VibesOk(cfg, s)
  {
  }
}
