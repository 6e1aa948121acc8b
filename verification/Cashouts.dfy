/** server/ops/cashouts.js: money leaving through an escrow, and payable turned back into credit. */
module Cashouts {
  import opened Basics
  import opened Schema
  import opened Journal
  import opened Rates
  import opened Common
  import opened Invariants
  import opened Store
  import opened Transfers

  datatype CashoutArgs = CashoutArgs(subject: Subject, project: Option<nat>, amount: int, ownsProject: bool, key: Key)
  datatype ApproveArgs = ApproveArgs(cashout: nat, through: Provider, reference: nat, key: Key)
  datatype DenyArgs = DenyArgs(cashout: nat, key: Key)
  datatype RecycleArgs = RecycleArgs(subject: Subject, amount: int, key: Key)

  function RequestEntries(a: CashoutArgs): seq<Entry>
  {
    if a.project.Some? then
      [ Entry(WalletOf(a.project.value), -a.amount), Entry(PayableOf(a.subject), a.amount),
        Entry(PayableOf(a.subject), -a.amount), Entry(PendingOf(a.subject), a.amount) ]
    else [ Entry(PayableOf(a.subject), -a.amount), Entry(PendingOf(a.subject), a.amount) ]
  }

  function RequestTxn(cfg: Config, a: CashoutArgs): Txn
  {
    Txn(CashoutRequest, a.key, RequestEntries(a), None, Some(a.subject), None, None, None, None,
        CashoutMeta(a.amount, a.project), cfg.bitsPerUsd)
  }

  function RequestedRow(cfg: Config, s: State, a: CashoutArgs, txn: nat): Cashout
  {
    Cashout(a.subject, a.project, a.amount, ValueCents(cfg, a.amount), Requested, s.clock + cfg.escrow, txn, None, None)
  }

  function Source(a: CashoutArgs): Account { if a.project.Some? then WalletOf(a.project.value) else PayableOf(a.subject) }

  function Request(cfg: Config, s: State, a: CashoutArgs): Step<Outcome>
  {
    if !PositiveInt(a.amount, cfg.maxBits) || a.amount < cfg.minCashoutBits then Fail(InvalidAmount)
    else if a.project.Some? && !a.ownsProject then Fail(InvalidInput)
    else
      var existing := FindKey(s.ledger.journal, a.key);
      if existing.Some? then
        var was := s.ledger.journal[existing.value];
        if was.from != Some(a.subject) || was.meta != CashoutMeta(a.amount, a.project) then Fail(KeyReused)
        else Done(s, Outcome(existing.value, true))
      else if Bal(s.ledger, Source(a)) < a.amount then Fail(InsufficientFunds)
      else
        match PostOn(s, RequestTxn(cfg, a))
        case Fail(e) => Fail(e)
        case Done(s', o) => Done(s'.(cashouts := s'.cashouts + [RequestedRow(cfg, s, a, o.txn)]), Outcome(o.txn, false))
  }

  method RequestCashout(cfg: Config, db: Db, a: CashoutArgs) returns (r: Result<Outcome, Error>)
    modifies db
    ensures db.Answers(old(db.View()), Request(cfg, old(db.View()), a), r)
  {
    hide Post, FindKey, RequestTxn, Source, ValueCents;
    if !PositiveInt(a.amount, cfg.maxBits) || a.amount < cfg.minCashoutBits { return Err(InvalidAmount); }
    if a.project.Some? && !a.ownsProject { return Err(InvalidInput); }
    var existing := FindKey(db.journal, a.key);
    if existing.Some? {
      var was := db.journal[existing.value];
      if was.from != Some(a.subject) || was.meta != CashoutMeta(a.amount, a.project) { return Err(KeyReused); }
      return Ok(Outcome(existing.value, true));
    }
    var enough := db.Holds(Source(a), a.amount);
    if !enough { return Err(InsufficientFunds); }
    var posted := db.Post(RequestTxn(cfg, a));
    if posted.Err? { return posted; }
    db.cashouts := db.cashouts + [
      Cashout(a.subject, a.project, a.amount, ValueCents(cfg, a.amount), Requested, db.clock + cfg.escrow, posted.value.txn, None, None)];
    r := Ok(Outcome(posted.value.txn, false));
  }

  function PaidTxn(cfg: Config, c: Cashout, a: ApproveArgs): Txn
  {
    Txn(CashoutPaid, a.key,
        [ Entry(PendingOf(c.subject), -c.amount), Entry(FX_BITS, c.amount),
          Entry(FX_CENTS, -c.valueCents), Entry(PayoutsThrough(a.through), c.valueCents) ],
        None, Some(c.subject), None, Some(PayoutsOf(a.through)), Some(Payout(a.through, a.reference)), None,
        CashoutMeta(c.amount, c.project), cfg.bitsPerUsd)
  }

  function Approve(cfg: Config, s: State, a: ApproveArgs): Step<Outcome>
  {
    if a.cashout >= |s.cashouts| then Fail(NotFound)
    else
      var c := s.cashouts[a.cashout];
      if c.status == Paid && c.payoutRef == Some(a.reference) then Done(s, Outcome(c.requestTxn, true))
      else if c.status != Requested then Fail(NotPending)
      else if s.clock < c.escrowUntil then Fail(EscrowActive)
      else
        match PostOn(s, PaidTxn(cfg, c, a))
        case Fail(e) => Fail(e)
        case Done(s', o) =>
          Done(s'.(cashouts := s'.cashouts[a.cashout := c.(status := Paid, settleTxn := Some(o.txn), payoutRef := Some(a.reference))]),
               Outcome(o.txn, false))
  }

  method ApproveCashout(cfg: Config, db: Db, a: ApproveArgs) returns (r: Result<Outcome, Error>)
    modifies db
    ensures db.Answers(old(db.View()), Approve(cfg, old(db.View()), a), r)
  {
    if a.cashout >= |db.cashouts| { return Err(NotFound); }
    var c := db.cashouts[a.cashout];
    if c.status == Paid && c.payoutRef == Some(a.reference) { return Ok(Outcome(c.requestTxn, true)); }
    if c.status != Requested { return Err(NotPending); }
    if db.clock < c.escrowUntil { return Err(EscrowActive); }
    var posted := db.Post(PaidTxn(cfg, c, a));
    if posted.Err? { return posted; }
    db.cashouts := db.cashouts[a.cashout := c.(status := Paid, settleTxn := Some(posted.value.txn), payoutRef := Some(a.reference))];
    r := Ok(Outcome(posted.value.txn, false));
  }

  function DeniedTxn(c: Cashout, a: DenyArgs): Txn
  {
    Txn(CashoutDenied, a.key, [Entry(PendingOf(c.subject), -c.amount), Entry(PayableOf(c.subject), c.amount)],
        Some(c.requestTxn), None, Some(c.subject), None, None, None, CashoutMeta(c.amount, c.project), 0)
  }

  function Deny(s: State, a: DenyArgs): Step<Outcome>
  {
    if a.cashout >= |s.cashouts| then Fail(NotFound)
    else
      var c := s.cashouts[a.cashout];
      if c.status == Denied then Done(s, Outcome(c.requestTxn, true))
      else if c.status != Requested then Fail(NotPending)
      else
        match PostOn(s, DeniedTxn(c, a))
        case Fail(e) => Fail(e)
        case Done(s', o) =>
          Done(s'.(cashouts := s'.cashouts[a.cashout := c.(status := Denied, settleTxn := Some(o.txn))]), Outcome(o.txn, false))
  }

  method DenyCashout(db: Db, a: DenyArgs) returns (r: Result<Outcome, Error>)
    modifies db
    ensures db.Answers(old(db.View()), Deny(old(db.View()), a), r)
  {
    if a.cashout >= |db.cashouts| { return Err(NotFound); }
    var c := db.cashouts[a.cashout];
    if c.status == Denied { return Ok(Outcome(c.requestTxn, true)); }
    if c.status != Requested { return Err(NotPending); }
    var posted := db.Post(DeniedTxn(c, a));
    if posted.Err? { return posted; }
    db.cashouts := db.cashouts[a.cashout := c.(status := Denied, settleTxn := Some(posted.value.txn))];
    r := Ok(Outcome(posted.value.txn, false));
  }

  function RecycleTxn(a: RecycleArgs): Txn
  {
    Txn(Recycle, a.key, [Entry(PayableOf(a.subject), -a.amount), Entry(CreditOf(a.subject), a.amount)], None,
        Some(a.subject), Some(a.subject), None, None, None, NoMeta, 0)
  }

  function RecyclePayable(cfg: Config, s: State, a: RecycleArgs): Step<Outcome>
  {
    if !PositiveInt(a.amount, cfg.maxBits) then Fail(InvalidAmount)
    else
      var existing := FindKey(s.ledger.journal, a.key);
      if existing.Some? then Done(s, Outcome(existing.value, true))
      else if Bal(s.ledger, PayableOf(a.subject)) < a.amount then Fail(InsufficientFunds)
      else PostOn(s, RecycleTxn(a))
  }

  method RecycleToCredit(cfg: Config, db: Db, a: RecycleArgs) returns (r: Result<Outcome, Error>)
    modifies db
    ensures db.Answers(old(db.View()), RecyclePayable(cfg, old(db.View()), a), r)
  {
    if !PositiveInt(a.amount, cfg.maxBits) { return Err(InvalidAmount); }
    var existing := FindKey(db.journal, a.key);
    if existing.Some? { return Ok(Outcome(existing.value, true)); }
    var enough := db.Holds(PayableOf(a.subject), a.amount);
    if !enough { return Err(InsufficientFunds); }
    r := db.Post(RecycleTxn(a));
  }

  // ------------------------------------------------------------------ what they keep

  lemma RecycleKeeps(cfg: Config, s: State, a: RecycleArgs)
    requires Inv(cfg, s) && PlainKey(a.key) && !a.key.Delivered? && RecyclePayable(cfg, s, a).Done?
    ensures Inv(cfg, RecyclePayable(cfg, s, a).state)
  {
    hide JournalOk, PayoutsOk, PeriodsCharged, RenewalsOk, PromoOk, RatingOk, TotalsOk, VibesOk, HoldRowsOk, SubsOk, Touches, Post, Shape, NonNegative;
    if FindKey(s.ledger.journal, a.key).None? {
      FreshPosts(s.ledger, RecycleTxn(a));
      RecycleShape(cfg, a);
      RecycleFunds(s.ledger, a);
      PlainPost(cfg, s, RecycleTxn(a));
    }
  }

  lemma RecycleShape(cfg: Config, a: RecycleArgs)
    requires !a.key.Delivered?
    ensures var t := RecycleTxn(a);
      && Shape(cfg, t)
      && !Touches(t, PayoutsPending) && !Touches(t, ProjectPayable) && !Touches(t, PromoCredit) && !Touches(t, PromoReserve)
      && (forall x: Account :: Guarded(x.kind) && x != PayableOf(a.subject) ==> Delta(t.entries, x) == if x == CreditOf(a.subject) then a.amount else 0)
      && Delta(t.entries, PayableOf(a.subject)) == -a.amount
  {
    hide FxMirror;
    PairShape(RecycleTxn(a), PayableOf(a.subject), CreditOf(a.subject), a.amount);
  }

  lemma RecycleFunds(l: Ledger, a: RecycleArgs)
    requires NonNegative(l) && Bal(l, PayableOf(a.subject)) >= a.amount > 0
    requires forall x: Account :: Guarded(x.kind) && x != PayableOf(a.subject) ==>
      Delta(RecycleTxn(a).entries, x) == if x == CreditOf(a.subject) then a.amount else 0
    requires Delta(RecycleTxn(a).entries, PayableOf(a.subject)) == -a.amount
    ensures forall x: Account :: Guarded(x.kind) ==> Bal(l, x) + Delta(RecycleTxn(a).entries, x) >= 0
  {
    hide Delta, Bal;
  }

  lemma {:induction false} RequestedSumUpdate(cs: seq<Cashout>, i: nat, c: Cashout, p: Subject)
    requires i < |cs| && c.subject == cs[i].subject
    ensures RequestedSum(cs[i := c], p) == RequestedSum(cs, p)
      + (if c.subject == p && c.status == Requested then c.amount else 0)
      - (if c.subject == p && cs[i].status == Requested then cs[i].amount else 0)
  {
    var n := |cs| - 1;
    if i == n {
      assert cs[i := c][..n] == cs[..n];
    } else {
      assert cs[i := c][..n] == cs[..n][i := c];
      RequestedSumUpdate(cs[..n], i, c, p);
    }
  }

  lemma {:induction false} CashedOutUpdate(cs: seq<Cashout>, i: nat, c: Cashout, project: nat)
    requires i < |cs| && c.project == cs[i].project && c.amount == cs[i].amount
    ensures CashedOut(cs[i := c], project) == CashedOut(cs, project)
  {
    var n := |cs| - 1;
    if i == n {
      assert cs[i := c][..n] == cs[..n];
    } else {
      assert cs[i := c][..n] == cs[..n][i := c];
      CashedOutUpdate(cs[..n], i, c, project);
    }
  }

  /** A pending cashout's amount is part of what its subject has pending. */
  lemma {:induction false} RequestedCovers(cs: seq<Cashout>, i: nat)
    requires forall k :: 0 <= k < |cs| ==> cs[k].amount > 0
    ensures forall p :: RequestedSum(cs, p) >= 0
    ensures i < |cs| && cs[i].status == Requested ==> RequestedSum(cs, cs[i].subject) >= cs[i].amount
  {
    if cs != [] { RequestedCovers(cs[..|cs| - 1], i); }
  }

  lemma RequestAccounts(cfg: Config, a: CashoutArgs)
    ensures var t := RequestTxn(cfg, a);
      && PromoIsolated(t) && PendingOwned(t)
      && !Touches(t, PromoCredit) && !Touches(t, PromoReserve)
      && (a.project.None? ==> !Touches(t, ProjectPayable))
  {
  }

  lemma RequestShape(cfg: Config, a: CashoutArgs)
    requires !a.key.Delivered?
    ensures var t := RequestTxn(cfg, a);
      && Shape(cfg, t)
      && (forall x :: Delta(t.entries, x) == if x == Source(a) then -a.amount else if x == PendingOf(a.subject) then a.amount else 0)
      && !Touches(t, PromoCredit) && !Touches(t, PromoReserve)
      && (a.project.None? ==> !Touches(t, ProjectPayable))
  {
    hide FxMirror, Touches, Delta, SumOf, PromoIsolated, PendingOwned;
    var t := RequestTxn(cfg, a);
    RequestAccounts(cfg, a);
    if a.project.Some? {
      Sums4(Entry(WalletOf(a.project.value), -a.amount), Entry(PayableOf(a.subject), a.amount),
            Entry(PayableOf(a.subject), -a.amount), Entry(PendingOf(a.subject), a.amount));
    } else {
      Sums2(Entry(PayableOf(a.subject), -a.amount), Entry(PendingOf(a.subject), a.amount));
    }
    NoFxMirrors(t);
  }

  lemma RequestPayouts(cfg: Config, s: State, a: CashoutArgs)
    requires JournalOk(cfg, s.ledger) && PayoutsOk(cfg, s) && !a.key.Delivered? && a.amount > 0
    requires Post(s.ledger, RequestTxn(cfg, a)).Posted?
    ensures var p := Post(s.ledger, RequestTxn(cfg, a));
      PayoutsOk(cfg, s.(ledger := p.ledger, cashouts := s.cashouts + [RequestedRow(cfg, s, a, p.txn)]))
  {
    hide Shape, Post, Books, FxMirror, Touches;
    var t := RequestTxn(cfg, a);
    var stored := Appended(s.ledger, t);
    RequestShape(cfg, a);
    PostEffect(s.ledger, t);
    var row := RequestedRow(cfg, s, a, Post(s.ledger, t).txn);
    assert (s.cashouts + [row])[..|s.cashouts|] == s.cashouts;
  }

  lemma RequestVibes(cfg: Config, s: State, a: CashoutArgs)
    requires JournalOk(cfg, s.ledger) && VibesOk(cfg, s) && PlainKey(a.key) && !a.key.Delivered?
    requires Post(s.ledger, RequestTxn(cfg, a)).Posted?
    ensures var p := Post(s.ledger, RequestTxn(cfg, a));
      VibesOk(cfg, s.(ledger := p.ledger, cashouts := s.cashouts + [RequestedRow(cfg, s, a, p.txn)]))
  {
    hide Shape, ChargesOk;
    var t := RequestTxn(cfg, a);
    RequestShape(cfg, a);
    ChargesKept(cfg, s, t);
    PostEffect(s.ledger, t);
    var row := RequestedRow(cfg, s, a, Post(s.ledger, t).txn);
    assert (s.cashouts + [row])[..|s.cashouts|] == s.cashouts;
    var s1 := s.(ledger := Post(s.ledger, t).ledger);
    ChargesFrame(cfg, s1, s1.(cashouts := s.cashouts + [row]));
  }

  lemma RequestKeeps(cfg: Config, s: State, a: CashoutArgs)
    requires Inv(cfg, s) && PlainKey(a.key) && !a.key.Delivered? && Request(cfg, s, a).Done?
    ensures Inv(cfg, Request(cfg, s, a).state)
  {
    hide JournalOk, NonNegative, PayoutsOk, PeriodsCharged, RenewalsOk, PromoOk, RatingOk, TotalsOk, VibesOk, HoldRowsOk, SubsOk, Touches, Shape,
         Post, IntentsOk, ValueCents;
    RequestPath(cfg, s, a);
    if FindKey(s.ledger.journal, a.key).None? {
      var t := RequestTxn(cfg, a);
      FreshPosts(s.ledger, t);
      RequestShape(cfg, a);
      PostKeeps(cfg, s, t);
      RequestFunds(cfg, s, a);
      RequestPayouts(cfg, s, a);
      RequestVibes(cfg, s, a);
      CashoutsApart(cfg, s.(ledger := Post(s.ledger, t).ledger), Request(cfg, s, a).state);
    }
  }

  /** A request that goes through under a fresh key posts its entries and appends its row. */
  lemma RequestPath(cfg: Config, s: State, a: CashoutArgs)
    requires Request(cfg, s, a).Done?
    ensures var p, r := Post(s.ledger, RequestTxn(cfg, a)), Request(cfg, s, a).state;
      if FindKey(s.ledger.journal, a.key).Some? then r == s
      else
        && a.amount > 0 && Bal(s.ledger, Source(a)) >= a.amount && p.Posted?
        && r == s.(ledger := p.ledger, cashouts := s.cashouts + [RequestedRow(cfg, s, a, p.txn)])
  {
    hide Post;
    if FindKey(s.ledger.journal, a.key).None? { FreshPosts(s.ledger, RequestTxn(cfg, a)); }
  }

  lemma RequestFunds(cfg: Config, s: State, a: CashoutArgs)
    requires JournalOk(cfg, s.ledger) && NonNegative(s.ledger) && !a.key.Delivered? && a.amount > 0
    requires Bal(s.ledger, Source(a)) >= a.amount && Post(s.ledger, RequestTxn(cfg, a)).Posted?
    ensures NonNegative(Post(s.ledger, RequestTxn(cfg, a)).ledger)
  {
    hide JournalOk, Shape, Touches, Post;
    BooksOf(cfg, s.ledger);
    RequestShape(cfg, a);
    FundsKept(s.ledger, RequestTxn(cfg, a));
  }

  /** The other parts of the invariant do not read the cashouts. */
  lemma CashoutsApart(cfg: Config, s: State, s': State)
    requires s' == s.(cashouts := s'.cashouts)
    ensures PeriodsCharged(s) ==> PeriodsCharged(s')
    ensures RenewalsOk(s) ==> RenewalsOk(s')
    ensures PromoOk(cfg, s) ==> PromoOk(cfg, s')
    ensures RatingOk(s) ==> RatingOk(s')
    ensures HoldRowsOk(s) ==> HoldRowsOk(s')
    ensures SubsOk(cfg, s) ==> SubsOk(cfg, s')
    ensures IntentsOk(s) ==> IntentsOk(s')
  {
  }

  /** Settling a cashout row, paid or denied, with entries that take its amount out of pending. */
  lemma SettledPayouts(cfg: Config, s: State, t: Txn, i: nat, c: Cashout)
    requires JournalOk(cfg, s.ledger) && PayoutsOk(cfg, s) && Post(s.ledger, t).Posted?
    requires i < |s.cashouts| && s.cashouts[i].status == Requested && c.status != Requested
    requires c == s.cashouts[i].(status := c.status, settleTxn := c.settleTxn, payoutRef := c.payoutRef)
    requires c.status == Paid ==> c.payoutRef.Some? && c.settleTxn.Some?
    requires forall p: Subject :: Delta(t.entries, PendingOf(p)) == if p == c.subject then -c.amount else 0
    ensures PayoutsOk(cfg, s.(ledger := Post(s.ledger, t).ledger, cashouts := s.cashouts[i := c]))
  {
    hide Shape;
    var stored := Appended(s.ledger, t);
    PostEffect(s.ledger, t);
    forall p: Subject ensures Bal(Post(s.ledger, t).ledger, PendingOf(p)) == RequestedSum(s.cashouts[i := c], p) {
      RequestedSumUpdate(s.cashouts, i, c, p);
    }
  }

  lemma CashedVibes(cfg: Config, s: State, i: nat, c: Cashout)
    requires VibesOk(cfg, s) && i < |s.cashouts| && c.project == s.cashouts[i].project && c.amount == s.cashouts[i].amount
    ensures VibesOk(cfg, s.(cashouts := s.cashouts[i := c]))
  {
    hide ChargesOk;
    forall project: nat { CashedOutUpdate(s.cashouts, i, c, project); }
    ChargesFrame(cfg, s, s.(cashouts := s.cashouts[i := c]));
  }

  /** What a settling transaction of a cashout row looks like. */
  ghost predicate Settles(cfg: Config, t: Txn, c: Cashout)
  {
    && Shape(cfg, t) && !IsReversal(t) && !t.meta.GiftMeta?
    && !Touches(t, ProjectPayable) && !Touches(t, PromoCredit) && !Touches(t, PromoReserve)
    && (forall p: Subject :: Delta(t.entries, PendingOf(p)) == if p == c.subject then -c.amount else 0)
    && (forall x: Account :: Guarded(x.kind) && x != PendingOf(c.subject) ==> Delta(t.entries, x) >= 0)
  }

  /** What approving and denying share. */
  lemma SettledKeeps(cfg: Config, s: State, t: Txn, i: nat, c: Cashout)
    requires Inv(cfg, s) && Post(s.ledger, t).Posted? && PlainKey(t.key) && Settles(cfg, t, c)
    requires t.reverses.Some? ==> t.reverses.value < |s.ledger.journal|
    requires i < |s.cashouts| && s.cashouts[i].status == Requested && c.status != Requested
    requires c == s.cashouts[i].(status := c.status, settleTxn := c.settleTxn, payoutRef := c.payoutRef)
    requires c.status == Paid ==> c.payoutRef.Some? && c.settleTxn.Some?
    ensures Inv(cfg, s.(ledger := Post(s.ledger, t).ledger, cashouts := s.cashouts[i := c]))
  {
    hide JournalOk, PeriodsCharged, RenewalsOk, PromoOk, RatingOk, TotalsOk, VibesOk, HoldRowsOk, SubsOk, Touches, Shape;
    PostKeeps(cfg, s, t);
    BooksOf(cfg, s.ledger);
    RequestedCovers(s.cashouts, i);
    FundsKept(s.ledger, t);
    SettledPayouts(cfg, s, t, i, c);
    var s1 := s.(ledger := Post(s.ledger, t).ledger);
    CashedVibes(cfg, s1, i, c);
    CashoutsApart(cfg, s1, s1.(cashouts := s.cashouts[i := c]));
  }

  lemma PaidShape(cfg: Config, c: Cashout, a: ApproveArgs)
    requires !a.key.Delivered? && c.amount > 0 && c.valueCents == ValueCents(cfg, c.amount)
    ensures Settles(cfg, PaidTxn(cfg, c, a), c)
  {
    hide FxMirror, ValueCents;
    Sums4(Entry(PendingOf(c.subject), -c.amount), Entry(FX_BITS, c.amount),
          Entry(FX_CENTS, -c.valueCents), Entry(PayoutsThrough(a.through), c.valueCents));
    FxMirrors(cfg, PaidTxn(cfg, c, a), c.amount);
  }

  lemma DeniedShape(cfg: Config, c: Cashout, a: DenyArgs)
    requires !a.key.Delivered? && c.amount > 0
    ensures Settles(cfg, DeniedTxn(c, a), c)
  {
    hide FxMirror;
    Sums2(Entry(PendingOf(c.subject), -c.amount), Entry(PayableOf(c.subject), c.amount));
    NoFxMirrors(DeniedTxn(c, a));
  }

  lemma RowOf(cfg: Config, s: State, i: nat)
    requires PayoutsOk(cfg, s) && i < |s.cashouts|
    ensures var c := s.cashouts[i];
      c.amount > 0 && c.valueCents == ValueCents(cfg, c.amount) && c.requestTxn < |s.ledger.journal|
  {
  }

  /** The row is still to be paid or denied; a retry comes when it no longer is, and changes nothing. */
  predicate Awaits(s: State, i: nat) { i < |s.cashouts| && s.cashouts[i].status == Requested }

  lemma ApproveKeeps(cfg: Config, s: State, a: ApproveArgs)
    requires Inv(cfg, s) && PlainKey(a.key) && !a.key.Delivered?
    requires FindKey(s.ledger.journal, a.key).None? || !Awaits(s, a.cashout)
    requires Approve(cfg, s, a).Done?
    ensures Inv(cfg, Approve(cfg, s, a).state)
  {
    hide Post, JournalOk, PayoutsOk, PeriodsCharged, RenewalsOk, PromoOk, RatingOk, TotalsOk, VibesOk, HoldRowsOk, SubsOk, Shape, Touches;
    var c := s.cashouts[a.cashout];
    if c.status == Requested {
      RowOf(cfg, s, a.cashout);
      PaidShape(cfg, c, a);
      var p := Post(s.ledger, PaidTxn(cfg, c, a));
      FreshPosts(s.ledger, PaidTxn(cfg, c, a));
      SettledKeeps(cfg, s, PaidTxn(cfg, c, a), a.cashout, c.(status := Paid, settleTxn := Some(p.txn), payoutRef := Some(a.reference)));
    }
  }

  lemma DenyKeeps(cfg: Config, s: State, a: DenyArgs)
    requires Inv(cfg, s) && PlainKey(a.key) && !a.key.Delivered?
    requires FindKey(s.ledger.journal, a.key).None? || !Awaits(s, a.cashout)
    requires Deny(s, a).Done?
    ensures Inv(cfg, Deny(s, a).state)
  {
    hide Post, JournalOk, PayoutsOk, PeriodsCharged, RenewalsOk, PromoOk, RatingOk, TotalsOk, VibesOk, HoldRowsOk, SubsOk, Shape, Touches;
    var c := s.cashouts[a.cashout];
    if c.status == Requested {
      RowOf(cfg, s, a.cashout);
      DeniedShape(cfg, c, a);
      var p := Post(s.ledger, DeniedTxn(c, a));
      FreshPosts(s.ledger, DeniedTxn(c, a));
      SettledKeeps(cfg, s, DeniedTxn(c, a), a.cashout, c.(status := Denied, settleTxn := Some(p.txn)));
    }
  }

  /**
   * Why approve needs a key of its own: under a key already in the journal the payout is
   * marked paid while nothing leaves payouts_pending, and payouts.pending no longer holds.
   */
  lemma ApproveUnderUsedKey(cfg: Config, s: State, a: ApproveArgs)
    requires Inv(cfg, s)
    requires a.cashout < |s.cashouts| && s.cashouts[a.cashout].status == Requested && s.clock >= s.cashouts[a.cashout].escrowUntil
    requires FindKey(s.ledger.journal, a.key).Some?
    ensures Approve(cfg, s, a).Done? && !PayoutsOk(cfg, Approve(cfg, s, a).state)
  {
    hide JournalOk, PeriodsCharged, RenewalsOk, PromoOk, RatingOk, TotalsOk, VibesOk, HoldRowsOk, SubsOk;
    var c := s.cashouts[a.cashout];
    var s' := Approve(cfg, s, a).state;
    RequestedSumUpdate(s.cashouts, a.cashout, s'.cashouts[a.cashout], c.subject);
    assert Bal(s'.ledger, PendingOf(c.subject)) != RequestedSum(s'.cashouts, c.subject);
  }

  /** And so does deny: the row is marked denied, its amount stays in escrow and never returns to its owner. */
  lemma DenyUnderUsedKey(cfg: Config, s: State, a: DenyArgs)
    requires Inv(cfg, s) && Awaits(s, a.cashout) && FindKey(s.ledger.journal, a.key).Some?
    ensures Deny(s, a).Done? && !PayoutsOk(cfg, Deny(s, a).state)
  {
    hide JournalOk, PeriodsCharged, RenewalsOk, PromoOk, RatingOk, TotalsOk, VibesOk, HoldRowsOk, SubsOk;
    var c := s.cashouts[a.cashout];
    var s' := Deny(s, a).state;
    RequestedSumUpdate(s.cashouts, a.cashout, s'.cashouts[a.cashout], c.subject);
    assert Bal(s'.ledger, PendingOf(c.subject)) != RequestedSum(s'.cashouts, c.subject);
  }
}
