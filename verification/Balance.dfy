/** server/ops/balance.js: the two ways a person moves a Balance, from what no hold has reserved. */
module Balance {
  import opened Basics
  import opened Schema
  import opened Journal
  import opened Rates
  import opened Common
  import opened Invariants
  import opened Store
  import opened Transfers
  import opened Credits

  const NANO_PER_USD := 1000000000

  datatype MoveArgs = MoveArgs(subject: Subject, project: nat, admin: bool, amount: int, key: nat)

  function MoveTxn(a: MoveArgs): Txn
  {
    Txn(BalanceTransfer, BalanceTransferKey(a.key),
        [Entry(BalanceOf(a.subject, None), -a.amount), Entry(BalanceOf(0, Some(a.project)), a.amount)],
        None, Some(a.subject), None, None, None, None, BalanceMeta(a.amount, Some(a.project)), 0)
  }

  function Move(cfg: Config, s: State, a: MoveArgs): Step<Outcome>
  {
    if !cfg.creditsOpen then Fail(NotEnabled)
    else if s.frozen then Fail(EconomyFrozen)
    else if a.amount <= 0 then Fail(InvalidAmount)
    else if !a.admin then Fail(InvalidInput)
    else
      var first := FindKey(s.ledger.journal, BalanceTransferKey(a.key));
      if first.Some? then
        var was := s.ledger.journal[first.value];
        if was.from != Some(a.subject) || was.meta != BalanceMeta(a.amount, Some(a.project)) then Fail(KeyReused)
        else Done(s, Outcome(first.value, true))
      else if Available(s, BalanceOf(a.subject, None)) < a.amount then Fail(InsufficientFunds)
      else PostOn(s, MoveTxn(a))
  }

  method Transfer(cfg: Config, db: Db, a: MoveArgs) returns (r: Result<Outcome, Error>)
    modifies db
    ensures db.Answers(old(db.View()), Move(cfg, old(db.View()), a), r)
  {
    hide Post;
    if !cfg.creditsOpen { return Err(NotEnabled); }
    if db.frozen { return Err(EconomyFrozen); }
    if a.amount <= 0 { return Err(InvalidAmount); }
    if !a.admin { return Err(InvalidInput); }
    var first := FindKey(db.journal, BalanceTransferKey(a.key));
    if first.Some? {
      var was := db.journal[first.value];
      if was.from != Some(a.subject) || was.meta != BalanceMeta(a.amount, Some(a.project)) { return Err(KeyReused); }
      return Ok(Outcome(first.value, true));
    }
    var available := ReadAvailable(db, BalanceOf(a.subject, None));
    if available < a.amount { return Err(InsufficientFunds); }
    r := db.Post(MoveTxn(a));
  }

  datatype BuyArgs = BuyArgs(subject: Subject, vibes: int, key: nat)

  /** The least nano-USD not below the value of the Vibes. */
  function PriceNano(cfg: Config, vibes: int): int
  {
    CeilDiv(vibes * NANO_PER_USD, cfg.bitsPerUsd)
  }

  function BuyTxn(cfg: Config, a: BuyArgs): Txn
  {
    var price := PriceNano(cfg, a.vibes);
    Txn(Purchase, BalanceVibesKey(a.key),
        [ Entry(BalanceOf(a.subject, None), -price), Entry(RevenueIn(Nano), price), Entry(FX_BITS, -a.vibes), Entry(CreditOf(a.subject), a.vibes) ],
        None, Some(a.subject), Some(a.subject), None, None, None, BalanceMeta(a.vibes, None), 0)
  }

  function BuyVibes(cfg: Config, s: State, a: BuyArgs): Step<Outcome>
  {
    if !cfg.creditsOpen || !cfg.vibesFromBalance then Fail(NotEnabled)
    else if s.frozen then Fail(EconomyFrozen)
    else if !PositiveInt(a.vibes, cfg.maxBits) || a.vibes < cfg.minPurchaseBits then Fail(InvalidAmount)
    else
      var first := FindKey(s.ledger.journal, BalanceVibesKey(a.key));
      if first.Some? then
        var was := s.ledger.journal[first.value];
        if was.from != Some(a.subject) || was.meta != BalanceMeta(a.vibes, None) then Fail(KeyReused)
        else Done(s, Outcome(first.value, true))
      else if Available(s, BalanceOf(a.subject, None)) < PriceNano(cfg, a.vibes) then Fail(InsufficientFunds)
      else PostOn(s, BuyTxn(cfg, a))
  }

  method PurchaseVibes(cfg: Config, db: Db, a: BuyArgs) returns (r: Result<Outcome, Error>)
    modifies db
    ensures db.Answers(old(db.View()), BuyVibes(cfg, old(db.View()), a), r)
  {
    hide Post;
    if !cfg.creditsOpen || !cfg.vibesFromBalance { return Err(NotEnabled); }
    if db.frozen { return Err(EconomyFrozen); }
    if !PositiveInt(a.vibes, cfg.maxBits) || a.vibes < cfg.minPurchaseBits { return Err(InvalidAmount); }
    var price := PriceNano(cfg, a.vibes);
    var first := FindKey(db.journal, BalanceVibesKey(a.key));
    if first.Some? {
      var was := db.journal[first.value];
      if was.from != Some(a.subject) || was.meta != BalanceMeta(a.vibes, None) { return Err(KeyReused); }
      return Ok(Outcome(first.value, true));
    }
    var available := ReadAvailable(db, BalanceOf(a.subject, None));
    if available < price { return Err(InsufficientFunds); }
    r := db.Post(BuyTxn(cfg, a));
  }

  // ------------------------------------------------------------------ what they keep

  /** Moving Balance keeps every check, and never spends what a hold has reserved. */
  lemma MoveKeeps(cfg: Config, s: State, a: MoveArgs)
    requires Inv(cfg, s) && Move(cfg, s, a).Done?
    ensures Inv(cfg, Move(cfg, s, a).state)
    ensures Covered(s) ==> Covered(Move(cfg, s, a).state)
  {
    hide Post, Books, Shape, Touches, JournalOk, PayoutsOk, PeriodsCharged, RenewalsOk, PromoOk, RatingOk, TotalsOk, VibesOk, SubsOk, HoldRowsOk, IntentsOk,
         Bal, Delta, HeldOn;
    if FindKey(s.ledger.journal, BalanceTransferKey(a.key)).None? {
      var t := MoveTxn(a);
      FreshPosts(s.ledger, t);
      NanoPairShape(cfg, t, BalanceOf(a.subject, None), BalanceOf(0, Some(a.project)), a.amount);
      PlainPost(cfg, s, t);
      BooksOf(cfg, s.ledger);
      BalancesMove(s.ledger, t);
    }
  }

  lemma BuyShape(cfg: Config, a: BuyArgs)
    requires a.vibes > 0
    ensures var t := BuyTxn(cfg, a); var price := PriceNano(cfg, a.vibes);
      && Shape(cfg, t)
      && Delta(t.entries, FX_BITS) == -a.vibes && Delta(t.entries, FX_CENTS) == 0
      && (forall x: Account :: Guarded(x.kind) ==> Delta(t.entries, x) == if x == CreditOf(a.subject) then a.vibes else 0)
      && (forall x: Account :: Spendable(x) ==> Delta(t.entries, x) == if x == BalanceOf(a.subject, None) then -price else 0)
      && !Touches(t, PayoutsPending) && !Touches(t, ProjectPayable) && !Touches(t, PromoCredit) && !Touches(t, PromoReserve)
  {
    hide PriceNano, FxMirror, PromoIsolated, PendingOwned, Touches;
    var t := BuyTxn(cfg, a);
    PlainEntries(t);
    Sums4(t.entries[0], t.entries[1], t.entries[2], t.entries[3]);
  }

  lemma BuyVibesKeeps(cfg: Config, s: State, a: BuyArgs)
    requires Inv(cfg, s) && BuyVibes(cfg, s, a).Done?
    ensures Inv(cfg, BuyVibes(cfg, s, a).state)
    ensures Covered(s) ==> Covered(BuyVibes(cfg, s, a).state)
  {
    hide BuyTxn, PriceNano, Post, Books, Bal, Delta, HeldOn, Shape, Touches, JournalOk, PayoutsOk, PeriodsCharged, RenewalsOk, PromoOk, RatingOk, TotalsOk, VibesOk, SubsOk, HoldRowsOk, IntentsOk;
    if FindKey(s.ledger.journal, BalanceVibesKey(a.key)).None? {
      var t := BuyTxn(cfg, a);
      BuyFields(cfg, a);
      FreshPosts(s.ledger, t);
      BuyShape(cfg, a);
      PlainPost(cfg, s, t);
      BooksOf(cfg, s.ledger);
      BalancesMove(s.ledger, t);
    }
  }

  lemma BuyFields(cfg: Config, a: BuyArgs)
    ensures var t := BuyTxn(cfg, a);
      t.key == BalanceVibesKey(a.key) && t.ty == Purchase && t.meta == BalanceMeta(a.vibes, None) && t.reverses.None?
  {
  }

  /** The bits leg has no cents leg: no purchase of Vibes from Balance passes the fx.mirror check. */
  lemma BuyVibesMirror(cfg: Config, t: Txn)
    requires Shape(cfg, t)
    ensures FxMirror(t) <==> !(t.meta.BalanceMeta? && t.meta.toProject.None?)
  {
    if t.meta.BalanceMeta? {
      RoundExact(t.meta.moved, 100);
      RoundExact(0, 100);
    }
  }
}
