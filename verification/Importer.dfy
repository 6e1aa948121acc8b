/**
 * server/importer/live.js, the history and opening-balance steps: the imported part of every
 * account is brought to the columns of a snapshot of Live, and a second run finds nothing to do.
 */
module Importer {
  import opened Basics
  import opened Schema
  import opened Journal
  import opened Rates
  import opened Common
  import opened Store

  // ------------------------------------------------------------------ the snapshot

  /** A numeric column of Live, num / den; den 0 stands for a value that is not a number. */
  datatype LiveNumber = LiveNumber(num: int, den: nat)

  /** Math.round(Number(raw) || 0): the nearest whole number, halves upwards, and 0 for what is not a number. */
  function Rounded(n: LiveNumber): (r: int)
    ensures if n.den == 0 then r == 0 else 2 * n.den * r <= 2 * n.num + n.den < 2 * n.den * r + 2 * n.den
  {
    if n.den == 0 then 0 else RoundDiv(n.num, n.den)
  }

  datatype LiveUser = LiveUser(id: nat, credit: LiveNumber, payable: LiveNumber)
  datatype LiveType = LivePurchase | LiveDonation | LiveCashout | LiveRefund | LiveBonus | LiveRecycle | LiveOther
  datatype LiveStatus = LiveCompleted | LiveEscrow | LiveRefunded | LiveUnmoved
  datatype LiveTxn = LiveTxn(id: nat, ty: LiveType, status: LiveStatus, amount: LiveNumber, from: Option<nat>, to: Option<nat>)

  /** `named`: the user ids that orders, subscriptions and unresolved holds mention. */
  datatype Snapshot = Snapshot(users: seq<LiveUser>, txns: seq<LiveTxn>, named: set<nat>)

  /** The Network subject of each Live user that has one. */
  type Mapping = map<nat, Subject>

  function OwnerOf(m: Mapping, live: nat): Owner { if live in m then Person(m[live]) else LiveHold(live) }

  function KindOf(c: ImportColumn): Kind
  {
    match c
    case CreditColumn => UserCredit
    case PayableColumn => CreatorPayable
    case PendingColumn => PayoutsPending
  }

  function AcctOf(c: ImportColumn, o: Owner): Account { Account(KindOf(c), o, Bits) }

  const ADJUSTMENT := Account(ImportAdjustment, Platform, Bits)
  const LEGACY := Account(ProviderClearing, LiveLegacy, Cents)

  // ------------------------------------------------------------------ history

  function ImportTxn(cfg: Config, key: Key, entries: seq<Entry>): Txn
  {
    Txn(Import, key, entries, None, None, None, None, None, None, NoMeta, cfg.bitsPerUsd)
  }

  function MoneyIn(cfg: Config, bits: int): seq<Entry>
  {
    [Entry(FX_BITS, -bits), Entry(FX_CENTS, ValueCents(cfg, bits)), Entry(LEGACY, -ValueCents(cfg, bits))]
  }

  predicate Moved(t: LiveTxn) { t.status == LiveCompleted || (t.ty == LiveCashout && t.status == LiveEscrow) }

  /** What a row of Live's own journal moved; nothing when it cannot be replayed. */
  function HistoryEntries(cfg: Config, m: Mapping, t: LiveTxn): seq<Entry>
  {
    var a := Rounded(t.amount);
    if a <= 0 || !Moved(t) then []
    else if t.ty == LivePurchase && t.to.Some? then
      MoneyIn(cfg, a) + [Entry(AcctOf(CreditColumn, OwnerOf(m, t.to.value)), a)]
    else if t.ty == LiveDonation && t.to.Some? then
      if t.from.Some? then
        [Entry(AcctOf(CreditColumn, OwnerOf(m, t.from.value)), -a), Entry(AcctOf(PayableColumn, OwnerOf(m, t.to.value)), a)]
      else MoneyIn(cfg, a) + [Entry(AcctOf(PayableColumn, OwnerOf(m, t.to.value)), a)]
    else if t.ty == LiveCashout && t.from.Some? then
      var from := OwnerOf(m, t.from.value);
      if t.status == LiveEscrow then [Entry(AcctOf(PayableColumn, from), -a), Entry(AcctOf(PendingColumn, from), a)]
      else
        [ Entry(AcctOf(PayableColumn, from), -a), Entry(FX_BITS, a), Entry(FX_CENTS, -ValueCents(cfg, a)),
          Entry(PayoutsThrough(Paypal), ValueCents(cfg, a)) ]
    else if t.ty == LiveRefund && t.from.Some? && t.to.Some? then
      [Entry(AcctOf(PayableColumn, OwnerOf(m, t.from.value)), -a), Entry(AcctOf(CreditColumn, OwnerOf(m, t.to.value)), a)]
    else if t.ty == LiveBonus && t.to.Some? then
      [Entry(RevenueIn(Bits), -a), Entry(AcctOf(CreditColumn, OwnerOf(m, t.to.value)), a)]
    else if t.ty == LiveRecycle && t.from.Some? then
      [Entry(AcctOf(PayableColumn, OwnerOf(m, t.from.value)), -a), Entry(AcctOf(CreditColumn, OwnerOf(m, t.from.value)), a)]
    else []
  }

  /** One import posting: a known key moves nothing. */
  function PostImport(l: Ledger, t: Txn): Result<Ledger, Error>
  {
    match Post(l, t)
    case Posted(l', _) => Ok(l')
    case Replayed(_) => Ok(l)
    case Failed(e) => Err(e)
  }

  function HistoryTxn(cfg: Config, m: Mapping, t: LiveTxn): Txn
  {
    ImportTxn(cfg, LiveTxnKey(t.id), HistoryEntries(cfg, m, t))
  }

  function ImportHistory(cfg: Config, m: Mapping, l: Ledger, txns: seq<LiveTxn>): Result<Ledger, Error>
    decreases |txns|
  {
    if txns == [] then Ok(l)
    else
      match PostImport(l, HistoryTxn(cfg, m, txns[0]))
      case Err(e) => Err(e)
      case Ok(l') => ImportHistory(cfg, m, l', txns[1..])
  }

  // ------------------------------------------------------------------ opening balances

  /** What import transactions themselves put in an account. */
  function Imported(j: seq<Txn>, a: Account): int
  {
    if j == [] then 0
    else Imported(j[..|j| - 1], a) + (if j[|j| - 1].ty == Import then Delta(j[|j| - 1].entries, a) else 0)
  }

  /** What everything else put there: Billing's own part of the balance. */
  function Native(l: Ledger, a: Account): int { Bal(l, a) - Imported(l.journal, a) }

  /** Move `n` from x to y, when it is not zero. */
  function Shift(cfg: Config, l: Ledger, key: Key, x: Account, y: Account, n: int): Result<Ledger, Error>
  {
    if n == 0 then Ok(l) else PostImport(l, ImportTxn(cfg, key, [Entry(x, -n), Entry(y, n)]))
  }

  const RELEASED: seq<ImportColumn> := [CreditColumn, PayableColumn, PendingColumn]
  const OPENED: seq<ImportColumn> := [CreditColumn, PayableColumn]

  /** What an earlier run parked on the hold goes to the subject. */
  function Release(cfg: Config, m: Mapping, l: Ledger, u: LiveUser, run: nat, cols: seq<ImportColumn>): Result<Ledger, Error>
    decreases |cols|
  {
    if cols == [] then Ok(l)
    else
      var hold := AcctOf(cols[0], LiveHold(u.id));
      match Shift(cfg, l, ReleaseKey(run, u.id, cols[0]), hold, AcctOf(cols[0], OwnerOf(m, u.id)), Bal(l, hold))
      case Err(e) => Err(e)
      case Ok(l') => Release(cfg, m, l', u, run, cols[1..])
  }

  function Target(u: LiveUser, c: ImportColumn): int { if c == CreditColumn then Rounded(u.credit) else Rounded(u.payable) }

  /** The imported part of the account is made equal to the column. */
  function Adjust(cfg: Config, m: Mapping, l: Ledger, u: LiveUser, run: nat, cols: seq<ImportColumn>): Result<Ledger, Error>
    decreases |cols|
  {
    if cols == [] then Ok(l)
    else
      var own := AcctOf(cols[0], OwnerOf(m, u.id));
      match Shift(cfg, l, OpeningKey(run, OwnerOf(m, u.id), cols[0]), own, ADJUSTMENT, Imported(l.journal, own) - Target(u, cols[0]))
      case Err(e) => Err(e)
      case Ok(l') => Adjust(cfg, m, l', u, run, cols[1..])
  }

  function OpenUser(cfg: Config, m: Mapping, l: Ledger, u: LiveUser, run: nat): Result<Ledger, Error>
  {
    match (if u.id in m then Release(cfg, m, l, u, run, RELEASED) else Ok(l))
    case Err(e) => Err(e)
    case Ok(l') => Adjust(cfg, m, l', u, run, OPENED)
  }

  function OpenAll(cfg: Config, m: Mapping, l: Ledger, us: seq<LiveUser>, run: nat): Result<Ledger, Error>
    decreases |us|
  {
    if us == [] then Ok(l)
    else
      match OpenUser(cfg, m, l, us[0], run)
      case Err(e) => Err(e)
      case Ok(l') => OpenAll(cfg, m, l', us[1..], run)
  }

  predicate Mentioned(s: Snapshot, id: nat)
  {
    id in s.named || exists k :: 0 <= k < |s.txns| && (s.txns[k].from == Some(id) || s.txns[k].to == Some(id))
  }

  /** The users whose balances are opened: those that hold something and those a row mentions. */
  function Opening(s: Snapshot, us: seq<LiveUser>): (r: seq<LiveUser>)
    ensures forall u :: u in r <==> u in us && (Rounded(u.credit) != 0 || Rounded(u.payable) != 0 || Mentioned(s, u.id))
  {
    if us == [] then []
    else
      var u := us[|us| - 1];
      var r := Opening(s, us[..|us| - 1]);
      assert us == us[..|us| - 1] + [u];
      if Rounded(u.credit) != 0 || Rounded(u.payable) != 0 || Mentioned(s, u.id) then r + [u] else r
  }

  function ImportLive(cfg: Config, m: Mapping, l: Ledger, s: Snapshot, run: nat): Result<Ledger, Error>
  {
    match ImportHistory(cfg, m, l, s.txns)
    case Err(e) => Err(e)
    case Ok(l') => OpenAll(cfg, m, l', Opening(s, s.users), run)
  }

  // ------------------------------------------------------------------ as the loops of importLive

  /** importTxn. On a failure the whole run is rolled back by its caller. */
  method PostOne(db: Db, t: Txn) returns (r: Result<(), Error>)
    modifies db`journal, db`balances
    ensures match PostImport(old(db.View().ledger), t)
      case Ok(l) => r.Ok? && db.View() == old(db.View()).(ledger := l)
      case Err(e) => r == Err(e)
  {
    var posted := db.Post(t);
    r := if posted.Ok? then Ok(()) else Err(posted.error);
  }

  /** What was held for a Live user who now has an account here goes to that account. */
  method ReleaseHeld(cfg: Config, m: Mapping, db: Db, u: LiveUser, run: nat) returns (r: Result<(), Error>)
    modifies db`journal, db`balances
    ensures match Release(cfg, m, old(db.View().ledger), u, run, RELEASED)
      case Ok(l) => r.Ok? && db.View() == old(db.View()).(ledger := l)
      case Err(e) => r == Err(e)
  {
    hide Post, PostImport;
    var own := OwnerOf(m, u.id);
    var k := 0;
    while k < |RELEASED|
      invariant k <= |RELEASED| && db.View() == old(db.View()).(ledger := db.View().ledger)
      invariant Release(cfg, m, db.View().ledger, u, run, RELEASED[k..]) == Release(cfg, m, old(db.View().ledger), u, run, RELEASED)
    {
      assert RELEASED[k..][0] == RELEASED[k] && RELEASED[k..][1..] == RELEASED[k + 1..];
      var hold := AcctOf(RELEASED[k], LiveHold(u.id));
      var held := db.Balance(hold);
      if held != 0 {
        r := PostOne(db, ImportTxn(cfg, ReleaseKey(run, u.id, RELEASED[k]), [Entry(hold, -held), Entry(AcctOf(RELEASED[k], own), held)]));
        if r.Err? { return; }
      }
      k := k + 1;
    }
    r := Ok(());
  }

  /** Each account is adjusted to Live's column. */
  method AdjustAccounts(cfg: Config, m: Mapping, db: Db, u: LiveUser, run: nat) returns (r: Result<(), Error>)
    modifies db`journal, db`balances
    ensures match Adjust(cfg, m, old(db.View().ledger), u, run, OPENED)
      case Ok(l) => r.Ok? && db.View() == old(db.View()).(ledger := l)
      case Err(e) => r == Err(e)
  {
    hide Post, PostImport;
    var own := OwnerOf(m, u.id);
    var k := 0;
    while k < |OPENED|
      invariant k <= |OPENED| && db.View() == old(db.View()).(ledger := db.View().ledger)
      invariant Adjust(cfg, m, db.View().ledger, u, run, OPENED[k..]) == Adjust(cfg, m, old(db.View().ledger), u, run, OPENED)
    {
      assert OPENED[k..][0] == OPENED[k] && OPENED[k..][1..] == OPENED[k + 1..];
      var account := AcctOf(OPENED[k], own);
      var d := Target(u, OPENED[k]) - Imported(db.journal, account);
      if d != 0 {
        assert [Entry(account, d), Entry(ADJUSTMENT, -d)] == [Entry(account, -(-d)), Entry(ADJUSTMENT, -d)];
        r := PostOne(db, ImportTxn(cfg, OpeningKey(run, own, OPENED[k]), [Entry(account, d), Entry(ADJUSTMENT, -d)]));
        if r.Err? { return; }
      }
      k := k + 1;
    }
    r := Ok(());
  }

  method OpenOne(cfg: Config, m: Mapping, db: Db, u: LiveUser, run: nat) returns (r: Result<(), Error>)
    modifies db`journal, db`balances
    ensures match OpenUser(cfg, m, old(db.View().ledger), u, run)
      case Ok(l) => r.Ok? && db.View() == old(db.View()).(ledger := l)
      case Err(e) => r == Err(e)
  {
    hide Release, Adjust;
    if u.id in m {
      r := ReleaseHeld(cfg, m, db, u, run);
      if r.Err? { return; }
    }
    r := AdjustAccounts(cfg, m, db, u, run);
  }

  method RunImport(cfg: Config, m: Mapping, db: Db, s: Snapshot, run: nat) returns (r: Result<(), Error>)
    modifies db
    ensures match ImportLive(cfg, m, old(db.View().ledger), s, run)
      case Ok(l) => r.Ok? && db.View() == old(db.View()).(ledger := l)
      case Err(e) => r == Err(e) && db.View() == old(db.View())
  {
    hide Post, PostImport, OpenUser, HistoryEntries, HistoryTxn, Opening, Mentioned, Rounded;
    var journal, balances := db.journal, db.balances;
    var k := 0;
    assert s.txns[0..] == s.txns;
    while k < |s.txns|
      invariant k <= |s.txns| && db.View() == old(db.View()).(ledger := db.View().ledger)
      invariant ImportHistory(cfg, m, db.View().ledger, s.txns[k..]) == ImportHistory(cfg, m, old(db.View().ledger), s.txns)
    {
      assert s.txns[k..][0] == s.txns[k] && s.txns[k..][1..] == s.txns[k + 1..];
      r := PostOne(db, HistoryTxn(cfg, m, s.txns[k]));
      if r.Err? {
        db.journal, db.balances := journal, balances;
        return;
      }
      k := k + 1;
    }
    var us := Opening(s, s.users);
    ghost var replayed := db.View().ledger;
    k := 0;
    assert us[0..] == us;
    while k < |us|
      invariant k <= |us| && db.View() == old(db.View()).(ledger := db.View().ledger)
      invariant OpenAll(cfg, m, db.View().ledger, us[k..], run) == OpenAll(cfg, m, replayed, us, run)
    {
      assert us[k..][0] == us[k] && us[k..][1..] == us[k + 1..];
      r := OpenOne(cfg, m, db, us[k], run);
      if r.Err? {
        db.journal, db.balances := journal, balances;
        return;
      }
      k := k + 1;
    }
    r := Ok(());
  }

  // ------------------------------------------------------------------ one posting

  ghost predicate Has(l: Ledger, k: Key) { FindKey(l.journal, k).Some? }

  lemma HasStored(l: Ledger, l': Ledger, stored: Txn)
    requires l'.journal == l.journal + [stored]
    ensures forall k :: Has(l', k) <==> Has(l, k) || stored.key == k
  {
    forall k ensures Has(l', k) <==> Has(l, k) || stored.key == k {
      if Has(l, k) { assert l'.journal[FindKey(l.journal, k).value].key == k; }
      if stored.key == k { assert l'.journal[|l.journal|].key == k; }
    }
  }

  /** An import posting moves the imported part and the balance of each account alike. */
  lemma ImportEffect(cfg: Config, l: Ledger, t: Txn)
    requires Books(l) && t.ty == Import && !Has(l, t.key) && PostImport(l, t).Ok?
    ensures var l' := PostImport(l, t).value;
      && Books(l')
      && (forall a :: Bal(l', a) == Bal(l, a) + Delta(t.entries, a))
      && (forall a :: Imported(l'.journal, a) == Imported(l.journal, a) + Delta(t.entries, a))
      && (forall k :: Has(l', k) <==> Has(l, k) || t.key == k)
  {
    FreshPosts(l, t);
    PostEffect(l, t);
    var l' := PostImport(l, t).value;
    var stored := l'.journal[|l.journal|];
    assert l'.journal == l.journal + [stored];
    HasStored(l, l', stored);
    assert l'.journal[..|l.journal|] == l.journal;
  }

  /** What `after` may differ in from `before`: only the accounts in `touched`, and never in the native part. */
  ghost predicate ChangesOnly(before: Ledger, after: Ledger, touched: set<Account>)
  {
    && Books(after)
    && (forall a :: Native(after, a) == Native(before, a))
    && (forall a :: a !in touched ==> Bal(after, a) == Bal(before, a) && Imported(after.journal, a) == Imported(before.journal, a))
    && (forall k :: Has(before, k) ==> Has(after, k))
  }

  lemma ShiftEffect(cfg: Config, l: Ledger, key: Key, x: Account, y: Account, n: int)
    requires Books(l) && !Has(l, key) && x != y && Shift(cfg, l, key, x, y, n).Ok?
    ensures var l' := Shift(cfg, l, key, x, y, n).value;
      && ChangesOnly(l, l', {x, y})
      && Bal(l', x) == Bal(l, x) - n && Bal(l', y) == Bal(l, y) + n
      && Imported(l'.journal, x) == Imported(l.journal, x) - n && Imported(l'.journal, y) == Imported(l.journal, y) + n
      && (forall k :: Has(l', k) ==> Has(l, k) || k == key)
  {
    if n != 0 {
      ImportEffect(cfg, l, ImportTxn(cfg, key, [Entry(x, -n), Entry(y, n)]));
      Sums2(Entry(x, -n), Entry(y, n));
    }
  }

  // ------------------------------------------------------------------ one user

  ghost predicate UserFresh(l: Ledger, m: Mapping, u: LiveUser, run: nat)
  {
    forall c: ImportColumn :: !Has(l, ReleaseKey(run, u.id, c)) && !Has(l, OpeningKey(run, OwnerOf(m, u.id), c))
  }

  /** The accounts of a user that a run may touch. */
  ghost function Touched(m: Mapping, u: LiveUser): set<Account>
  {
    {AcctOf(CreditColumn, OwnerOf(m, u.id)), AcctOf(PayableColumn, OwnerOf(m, u.id)), AcctOf(PendingColumn, OwnerOf(m, u.id)),
     AcctOf(CreditColumn, LiveHold(u.id)), AcctOf(PayableColumn, LiveHold(u.id)), AcctOf(PendingColumn, LiveHold(u.id)), ADJUSTMENT}
  }

  ghost predicate OnlyKeysOf(before: Ledger, after: Ledger, m: Mapping, u: LiveUser, run: nat)
  {
    forall k :: Has(after, k) && !Has(before, k) ==>
      (k.ReleaseKey? && k.run == run && k.liveUser == u.id) || (k.OpeningKey? && k.importRun == run && k.owner == OwnerOf(m, u.id))
  }

  lemma ChangesNothing(l: Ledger, touched: set<Account>)
    requires Books(l)
    ensures ChangesOnly(l, l, touched)
  {
  }

  lemma ChangesAt(l: Ledger, l': Ledger, touched: set<Account>, a: Account)
    requires ChangesOnly(l, l', touched)
    ensures Books(l')
    ensures a !in touched ==> Bal(l', a) == Bal(l, a) && Imported(l'.journal, a) == Imported(l.journal, a)
  {
  }

  lemma ChangesChain(l: Ledger, l1: Ledger, l2: Ledger, few: set<Account>, touched: set<Account>)
    requires ChangesOnly(l, l1, few) && ChangesOnly(l1, l2, touched) && few <= touched
    ensures ChangesOnly(l, l2, touched)
  {
    hide Books, Native, Has;
  }

  lemma TouchedHas(m: Mapping, u: LiveUser, c: ImportColumn)
    ensures AcctOf(c, OwnerOf(m, u.id)) in Touched(m, u) && AcctOf(c, LiveHold(u.id)) in Touched(m, u) && ADJUSTMENT in Touched(m, u)
  {
  }

  /** One column released: the hold is empty, and only these two accounts moved. */
  lemma ReleaseStep(cfg: Config, m: Mapping, l: Ledger, u: LiveUser, run: nat, c: ImportColumn)
    requires Books(l) && u.id in m && !Has(l, ReleaseKey(run, u.id, c))
    requires var hold := AcctOf(c, LiveHold(u.id));
      Shift(cfg, l, ReleaseKey(run, u.id, c), hold, AcctOf(c, OwnerOf(m, u.id)), Bal(l, hold)).Ok?
    ensures var hold := AcctOf(c, LiveHold(u.id));
      var l1 := Shift(cfg, l, ReleaseKey(run, u.id, c), hold, AcctOf(c, OwnerOf(m, u.id)), Bal(l, hold)).value;
      && Books(l1) && ChangesOnly(l, l1, {hold, AcctOf(c, OwnerOf(m, u.id))})
      && Bal(l1, hold) == 0
      && (forall d :: d != c ==> Bal(l1, AcctOf(d, LiveHold(u.id))) == Bal(l, AcctOf(d, LiveHold(u.id))))
      && (forall k :: Has(l1, k) ==> Has(l, k) || k == ReleaseKey(run, u.id, c))
  {
    hide Books, Shift, Native, Has;
    var hold, own := AcctOf(c, LiveHold(u.id)), AcctOf(c, OwnerOf(m, u.id));
    ShiftEffect(cfg, l, ReleaseKey(run, u.id, c), hold, own, Bal(l, hold));
  }

  lemma {:induction false} ReleaseEffect(cfg: Config, m: Mapping, l: Ledger, u: LiveUser, run: nat, cols: seq<ImportColumn>)
    requires Books(l) && u.id in m && Release(cfg, m, l, u, run, cols).Ok?
    requires forall i, k :: 0 <= i < k < |cols| ==> cols[i] != cols[k]
    requires forall c :: c in cols ==> !Has(l, ReleaseKey(run, u.id, c))
    ensures var l' := Release(cfg, m, l, u, run, cols).value;
      && ChangesOnly(l, l', Touched(m, u))
      && (forall c :: c in cols ==> Bal(l', AcctOf(c, LiveHold(u.id))) == 0)
      && (forall c :: c !in cols ==> Bal(l', AcctOf(c, LiveHold(u.id))) == Bal(l, AcctOf(c, LiveHold(u.id))))
      && (forall k :: Has(l', k) && !Has(l, k) ==> k.ReleaseKey? && k.run == run && k.liveUser == u.id)
    decreases |cols|
  {
    hide Books, Shift, Native, Has, ChangesOnly, Touched;
    if cols == [] {
      ChangesNothing(l, Touched(m, u));
    } else {
      assert cols == [cols[0]] + cols[1..];
      assert cols[0] !in cols[1..];
      var hold, own := AcctOf(cols[0], LiveHold(u.id)), AcctOf(cols[0], OwnerOf(m, u.id));
      ReleaseStep(cfg, m, l, u, run, cols[0]);
      var l1 := Shift(cfg, l, ReleaseKey(run, u.id, cols[0]), hold, own, Bal(l, hold)).value;
      ReleaseEffect(cfg, m, l1, u, run, cols[1..]);
      TouchedHas(m, u, cols[0]);
      ChangesChain(l, l1, Release(cfg, m, l1, u, run, cols[1..]).value, {hold, own}, Touched(m, u));
    }
  }

  /** One column adjusted: its imported part is the target, and no hold of a mapped user moved. */
  lemma AdjustStep(cfg: Config, m: Mapping, l: Ledger, u: LiveUser, c: ImportColumn, key: Key, own: Account, target: int, l1: Ledger)
    requires Books(l) && !Has(l, key) && own == AcctOf(c, OwnerOf(m, u.id))
    requires Shift(cfg, l, key, own, ADJUSTMENT, Imported(l.journal, own) - target) == Ok(l1)
    ensures Books(l1) && ChangesOnly(l, l1, {own, ADJUSTMENT}) && Imported(l1.journal, own) == target
    ensures forall d :: d != c ==> Imported(l1.journal, AcctOf(d, OwnerOf(m, u.id))) == Imported(l.journal, AcctOf(d, OwnerOf(m, u.id)))
    ensures u.id in m ==> forall d :: Bal(l1, AcctOf(d, LiveHold(u.id))) == Bal(l, AcctOf(d, LiveHold(u.id)))
    ensures forall k :: Has(l1, k) ==> Has(l, k) || k == key
  {
    hide Books, Shift, Native, Has, Imported, ChangesOnly, Bal;
    ShiftEffect(cfg, l, key, own, ADJUSTMENT, Imported(l.journal, own) - target);
    ChangesAt(l, l1, {own, ADJUSTMENT}, own);
    forall d | d != c ensures Imported(l1.journal, AcctOf(d, OwnerOf(m, u.id))) == Imported(l.journal, AcctOf(d, OwnerOf(m, u.id))) {
      ChangesAt(l, l1, {own, ADJUSTMENT}, AcctOf(d, OwnerOf(m, u.id)));
    }
    if u.id in m {
      forall d ensures Bal(l1, AcctOf(d, LiveHold(u.id))) == Bal(l, AcctOf(d, LiveHold(u.id))) {
        ChangesAt(l, l1, {own, ADJUSTMENT}, AcctOf(d, LiveHold(u.id)));
      }
    }
  }

  lemma {:induction false} AdjustEffect(cfg: Config, m: Mapping, l: Ledger, u: LiveUser, run: nat, cols: seq<ImportColumn>)
    requires Books(l) && Adjust(cfg, m, l, u, run, cols).Ok?
    requires forall i, k :: 0 <= i < k < |cols| ==> cols[i] != cols[k]
    requires forall c :: c in cols ==> !Has(l, OpeningKey(run, OwnerOf(m, u.id), c))
    ensures var l' := Adjust(cfg, m, l, u, run, cols).value;
      && ChangesOnly(l, l', Touched(m, u))
      && (forall c :: c in cols ==> Imported(l'.journal, AcctOf(c, OwnerOf(m, u.id))) == Target(u, c))
      && (forall c :: c !in cols ==> Imported(l'.journal, AcctOf(c, OwnerOf(m, u.id))) == Imported(l.journal, AcctOf(c, OwnerOf(m, u.id))))
      && (u.id in m ==> forall c :: Bal(l', AcctOf(c, LiveHold(u.id))) == Bal(l, AcctOf(c, LiveHold(u.id))))
      && (forall k :: Has(l', k) && !Has(l, k) ==> k.OpeningKey? && k.importRun == run && k.owner == OwnerOf(m, u.id))
    decreases |cols|
  {
    hide Books, Shift, Native, Has, ChangesOnly, Touched, Imported, Target, OwnerOf;
    if cols == [] {
      ChangesNothing(l, Touched(m, u));
    } else {
      assert cols == [cols[0]] + cols[1..];
      assert cols[0] !in cols[1..];
      var own := AcctOf(cols[0], OwnerOf(m, u.id));
      var n := Imported(l.journal, own) - Target(u, cols[0]);
      var l1 := Shift(cfg, l, OpeningKey(run, OwnerOf(m, u.id), cols[0]), own, ADJUSTMENT, n).value;
      AdjustStep(cfg, m, l, u, cols[0], OpeningKey(run, OwnerOf(m, u.id), cols[0]), own, Target(u, cols[0]), l1);
      AdjustEffect(cfg, m, l1, u, run, cols[1..]);
      TouchedHas(m, u, cols[0]);
      ChangesChain(l, l1, Adjust(cfg, m, l1, u, run, cols[1..]).value, {own, ADJUSTMENT}, Touched(m, u));
    }
  }

  /** The user is where the snapshot says: the imported part equals the columns, the hold is empty. */
  ghost predicate Converged(m: Mapping, l: Ledger, u: LiveUser)
  {
    && Imported(l.journal, AcctOf(CreditColumn, OwnerOf(m, u.id))) == Rounded(u.credit)
    && Imported(l.journal, AcctOf(PayableColumn, OwnerOf(m, u.id))) == Rounded(u.payable)
    && (u.id in m ==> forall c :: Bal(l, AcctOf(c, LiveHold(u.id))) == 0)
  }

  lemma OpenUserEffect(cfg: Config, m: Mapping, l: Ledger, u: LiveUser, run: nat)
    requires Books(l) && UserFresh(l, m, u, run) && OpenUser(cfg, m, l, u, run).Ok?
    ensures var l' := OpenUser(cfg, m, l, u, run).value;
      && ChangesOnly(l, l', Touched(m, u)) && Converged(m, l', u) && OnlyKeysOf(l, l', m, u, run)
  {
    hide Books, Release, Adjust, Native;
    ChangesNothing(l, Touched(m, u));
    if u.id in m { ReleaseEffect(cfg, m, l, u, run, RELEASED); }
    var l1 := if u.id in m then Release(cfg, m, l, u, run, RELEASED).value else l;
    AdjustEffect(cfg, m, l1, u, run, OPENED);
    assert CreditColumn in OPENED && PayableColumn in OPENED;
    if u.id in m {
      var l' := OpenUser(cfg, m, l, u, run).value;
      forall c ensures Bal(l', AcctOf(c, LiveHold(u.id))) == 0 { assert c in RELEASED; }
    }
  }

  // ------------------------------------------------------------------ the whole run

  ghost predicate Injective(m: Mapping)
  {
    forall x, y :: x in m && y in m && m[x] == m[y] ==> x == y
  }

  ghost predicate DistinctUsers(us: seq<LiveUser>)
  {
    forall i, k :: 0 <= i < k < |us| ==> us[i].id != us[k].id
  }

  /** Opening one user does not disturb another. */
  lemma Elsewhere(m: Mapping, l: Ledger, l': Ledger, u: LiveUser, v: LiveUser, run: nat)
    requires Injective(m) && u.id != v.id && ChangesOnly(l, l', Touched(m, u)) && OnlyKeysOf(l, l', m, u, run)
    ensures Converged(m, l, v) ==> Converged(m, l', v)
    ensures UserFresh(l, m, v, run) ==> UserFresh(l', m, v, run)
  {
    hide Native, Books, Has;
    assert OwnerOf(m, u.id) != OwnerOf(m, v.id);
    forall c: ImportColumn
      ensures AcctOf(c, OwnerOf(m, v.id)) !in Touched(m, u) && AcctOf(c, LiveHold(v.id)) !in Touched(m, u)
    {
    }
  }

  lemma {:induction false} OpenAllConverges(cfg: Config, m: Mapping, l: Ledger, us: seq<LiveUser>, run: nat, done: set<LiveUser>)
    requires Books(l) && Injective(m) && DistinctUsers(us) && OpenAll(cfg, m, l, us, run).Ok?
    requires forall u :: u in us ==> UserFresh(l, m, u, run)
    requires forall v :: v in done ==> Converged(m, l, v) && forall u :: u in us ==> u.id != v.id
    ensures var l' := OpenAll(cfg, m, l, us, run).value;
      && Books(l') && (forall a :: Native(l', a) == Native(l, a))
      && (forall u :: u in us || u in done ==> Converged(m, l', u))
      && (forall k :: Has(l, k) ==> Has(l', k))
    decreases |us|
  {
    hide Books, OpenUser, Converged, UserFresh, Native, Has, Injective;
    if us != [] {
      var u := us[0];
      assert us == [u] + us[1..];
      OpenUserEffect(cfg, m, l, u, run);
      var l1 := OpenUser(cfg, m, l, u, run).value;
      forall v | v in us[1..] || v in done
        ensures v.id != u.id && (Converged(m, l, v) ==> Converged(m, l1, v)) && (UserFresh(l, m, v, run) ==> UserFresh(l1, m, v, run))
      {
        Elsewhere(m, l, l1, u, v, run);
      }
      OpenAllConverges(cfg, m, l1, us[1..], run, done + {u});
    }
  }

  lemma {:induction false} HistoryEffect(cfg: Config, m: Mapping, l: Ledger, txns: seq<LiveTxn>)
    requires Books(l) && ImportHistory(cfg, m, l, txns).Ok?
    ensures var l' := ImportHistory(cfg, m, l, txns).value;
      && Books(l') && (forall a :: Native(l', a) == Native(l, a))
      && (forall k :: Has(l, k) ==> Has(l', k))
      && (forall k :: Has(l', k) && !Has(l, k) ==> k.LiveTxnKey?)
      && (forall i :: 0 <= i < |txns| ==> Has(l', LiveTxnKey(txns[i].id)))
    decreases |txns|
  {
    hide Books, Post, HistoryEntries, Native, Has;
    if txns != [] {
      var t := HistoryTxn(cfg, m, txns[0]);
      HistoryStep(cfg, l, t);
      var l1 := PostImport(l, t).value;
      HistoryEffect(cfg, m, l1, txns[1..]);
      assert forall i :: 0 < i < |txns| ==> txns[i] == txns[1..][i - 1];
    }
  }

  lemma HistoryStep(cfg: Config, l: Ledger, t: Txn)
    requires Books(l) && t.ty == Import && PostImport(l, t).Ok?
    ensures var l' := PostImport(l, t).value;
      && Books(l') && (forall a :: Native(l', a) == Native(l, a))
      && (forall k :: Has(l', k) <==> Has(l, k) || k == t.key)
  {
    if !Has(l, t.key) { ImportEffect(cfg, l, t); }
  }

  ghost predicate FreshRun(l: Ledger, run: nat)
  {
    forall k :: Has(l, k) ==> !(k.ReleaseKey? && k.run == run) && !(k.OpeningKey? && k.importRun == run)
  }

  lemma {:induction false} OpeningDistinct(s: Snapshot, us: seq<LiveUser>)
    requires DistinctUsers(us)
    ensures DistinctUsers(Opening(s, us))
  {
    if us != [] {
      OpeningDistinct(s, us[..|us| - 1]);
      var r := Opening(s, us[..|us| - 1]);
      forall i | 0 <= i < |r| ensures r[i].id != us[|us| - 1].id {
        assert r[i] in r && r[i] in us[..|us| - 1];
      }
    }
  }

  /**
   * Convergence: after a run every opened user's imported credit and payable equal Live's rounded
   * columns, released holds are empty, and no account's native part has changed.
   */
  lemma ImportConverges(cfg: Config, m: Mapping, l: Ledger, s: Snapshot, run: nat)
    requires Books(l) && Injective(m) && DistinctUsers(s.users) && FreshRun(l, run)
    requires ImportLive(cfg, m, l, s, run).Ok?
    ensures var l' := ImportLive(cfg, m, l, s, run).value;
      && Books(l')
      && (forall u :: u in Opening(s, s.users) ==> Converged(m, l', u))
      && (forall a :: Native(l', a) == Native(l, a))
      && (forall i :: 0 <= i < |s.txns| ==> Has(l', LiveTxnKey(s.txns[i].id)))
  {
    hide Books, ImportHistory, OpenAll, Converged, Native, Has, Injective, Opening;
    HistoryEffect(cfg, m, l, s.txns);
    OpeningDistinct(s, s.users);
    OpenAllConverges(cfg, m, ImportHistory(cfg, m, l, s.txns).value, Opening(s, s.users), run, {});
  }

  lemma {:induction false} HistoryReplays(cfg: Config, m: Mapping, l: Ledger, txns: seq<LiveTxn>)
    requires forall i :: 0 <= i < |txns| ==> Has(l, LiveTxnKey(txns[i].id))
    ensures ImportHistory(cfg, m, l, txns) == Ok(l)
    decreases |txns|
  {
    if txns != [] {
      assert Has(l, LiveTxnKey(txns[0].id));
      HistoryReplays(cfg, m, l, txns[1..]);
    }
  }

  lemma {:induction false} ReleaseNothing(cfg: Config, m: Mapping, l: Ledger, u: LiveUser, run: nat, cols: seq<ImportColumn>)
    requires forall c :: Bal(l, AcctOf(c, LiveHold(u.id))) == 0
    ensures Release(cfg, m, l, u, run, cols) == Ok(l)
    decreases |cols|
  {
    if cols != [] {
      assert Bal(l, AcctOf(cols[0], LiveHold(u.id))) == 0;
      ReleaseNothing(cfg, m, l, u, run, cols[1..]);
    }
  }

  lemma OpenNothing(cfg: Config, m: Mapping, l: Ledger, u: LiveUser, run: nat)
    requires Converged(m, l, u)
    ensures OpenUser(cfg, m, l, u, run) == Ok(l)
  {
    if u.id in m { ReleaseNothing(cfg, m, l, u, run, RELEASED); }
    assert OPENED[1..] == [PayableColumn];
    assert Adjust(cfg, m, l, u, run, []) == Ok(l);
    assert Adjust(cfg, m, l, u, run, [PayableColumn]) == Ok(l);
  }

  lemma {:induction false} OpenAllNothing(cfg: Config, m: Mapping, l: Ledger, us: seq<LiveUser>, run: nat)
    requires forall u :: u in us ==> Converged(m, l, u)
    ensures OpenAll(cfg, m, l, us, run) == Ok(l)
    decreases |us|
  {
    hide Converged, OpenUser;
    if us != [] {
      OpenNothing(cfg, m, l, us[0], run);
      OpenAllNothing(cfg, m, l, us[1..], run);
    }
  }

  /** A second run over the same snapshot and mapping posts nothing. */
  lemma SecondRunIsIdle(cfg: Config, m: Mapping, l: Ledger, s: Snapshot, run: nat, again: nat)
    requires Books(l) && Injective(m) && DistinctUsers(s.users) && FreshRun(l, run)
    requires ImportLive(cfg, m, l, s, run).Ok?
    ensures ImportLive(cfg, m, ImportLive(cfg, m, l, s, run).value, s, again) == ImportLive(cfg, m, l, s, run)
  {
    hide Books, Converged, Native, Has, Injective, Opening, FreshRun, HistoryEntries;
    ImportConverges(cfg, m, l, s, run);
    var l' := ImportLive(cfg, m, l, s, run).value;
    HistoryReplays(cfg, m, l', s.txns);
    OpenAllNothing(cfg, m, l', Opening(s, s.users), again);
  }

  /**
   * What a mapped user has after a run, hold and account together, is Live's column and Billing's
   * own part of both exactly when the hold carried only imported value; native value on a hold is lost to them.
   */
  lemma HoldsCarryImportedOnly(cfg: Config, m: Mapping, l: Ledger, s: Snapshot, run: nat, u: LiveUser, c: ImportColumn)
    requires Books(l) && Injective(m) && DistinctUsers(s.users) && FreshRun(l, run)
    requires ImportLive(cfg, m, l, s, run).Ok? && u in Opening(s, s.users) && u.id in m && c != PendingColumn
    ensures var l' := ImportLive(cfg, m, l, s, run).value;
      var own, hold := AcctOf(c, Person(m[u.id])), AcctOf(c, LiveHold(u.id));
      && Bal(l', own) == Target(u, c) + Native(l, own)
      && (Bal(l', own) + Bal(l', hold) == Target(u, c) + Native(l, own) + Native(l, hold) <==> Bal(l, hold) == Imported(l.journal, hold))
  {
    hide Books, Has, Injective, Opening, ImportLive;
    ImportConverges(cfg, m, l, s, run);
  }

  // ------------------------------------------------------------------ native value on a hold

  lemma PairFits(l: Ledger, e0: Entry, e1: Entry)
    requires e0.account != e1.account && e0.account.currency == Bits && e1.account.currency == Bits
    requires -SAFE <= e0.amount <= SAFE && InRange(Bits, Bal(l, e0.account) + e0.amount)
    requires -SAFE <= e1.amount <= SAFE && InRange(Bits, Bal(l, e1.account) + e1.amount)
    ensures forall i :: 0 <= i < |Merge([e0, e1])| ==> RowFits(l, Merge([e0, e1])[i])
  {
    hide Merge;
    var m := Merge([e0, e1]);
    MergeDistinct([e0, e1]);
    forall i | 0 <= i < |m| ensures RowFits(l, m[i]) { assert m[i] in m && m[i] in [e0, e1]; }
  }

  /** A shift between two accounts in Bits that stays in range is posted. */
  lemma ShiftPosts(cfg: Config, l: Ledger, key: Key, x: Account, y: Account, n: int)
    requires Books(l) && !Has(l, key) && x != y && x.currency == Bits && y.currency == Bits && -SAFE <= n <= SAFE
    requires InRange(Bits, Bal(l, x) - n) && InRange(Bits, Bal(l, y) + n)
    ensures Shift(cfg, l, key, x, y, n).Ok?
  {
    if n != 0 {
      var t := ImportTxn(cfg, key, [Entry(x, -n), Entry(y, n)]);
      Sums2(Entry(x, -n), Entry(y, n));
      PairFits(l, Entry(x, -n), Entry(y, n));
      PostAccepts(l, t);
    }
  }

  /** One adjustment of Billing's own: `n` Bits of credit to the hold of a Live user. */
  function NativeCredit(cfg: Config, id: nat, n: int): Txn
  {
    Txn(Adjustment, Api(0), [Entry(RevenueIn(Bits), -n), Entry(AcctOf(CreditColumn, LiveHold(id)), n)],
        None, None, None, None, None, None, NoMeta, cfg.bitsPerUsd)
  }

  function NativeHold(cfg: Config, id: nat, n: int): Ledger
  {
    match Post(BLANK, NativeCredit(cfg, id, n)) case Posted(l, _) => l case _ => BLANK
  }

  lemma NativeHoldBooks(cfg: Config, id: nat, n: int)
    requires 0 < n <= SAFE
    ensures var l := NativeHold(cfg, id, n);
      && Books(l) && |l.journal| == 1 && l.journal[0].key == Api(0) && l.journal[0].ty == Adjustment
      && (forall a :: Bal(l, a) == if a == RevenueIn(Bits) then -n else if a == AcctOf(CreditColumn, LiveHold(id)) then n else 0)
  {
    hide Merge, Post;
    var t := NativeCredit(cfg, id, n);
    Sums2(t.entries[0], t.entries[1]);
    PairFits(BLANK, t.entries[0], t.entries[1]);
    PostAccepts(BLANK, t);
    PostEffect(BLANK, t);
  }

  lemma NativeHoldImports(cfg: Config, id: nat, n: int)
    requires 0 < n <= SAFE
    ensures var l := NativeHold(cfg, id, n);
      && (forall a :: Imported(l.journal, a) == 0)
      && Native(l, AcctOf(CreditColumn, LiveHold(id))) == n
      && (forall k :: Has(l, k) ==> k == Api(0))
  {
    hide Books, Bal, NativeHold;
    NativeHoldBooks(cfg, id, n);
    var l := NativeHold(cfg, id, n);
    forall a ensures Imported(l.journal, a) == 0 {
      assert l.journal[..|l.journal| - 1] == [] && Imported([], a) == 0;
    }
    forall k | Has(l, k) ensures k == Api(0) {
      assert FindKey(l.journal, k).value == 0;
    }
  }

  /** Of the three columns only the credit is moved. */
  lemma OneColumnReleased(cfg: Config, m: Mapping, l: Ledger, u: LiveUser, run: nat, l1: Ledger)
    requires var hold := AcctOf(CreditColumn, LiveHold(u.id));
      Shift(cfg, l, ReleaseKey(run, u.id, CreditColumn), hold, AcctOf(CreditColumn, OwnerOf(m, u.id)), Bal(l, hold)) == Ok(l1)
    requires Bal(l1, AcctOf(PayableColumn, LiveHold(u.id))) == 0 && Bal(l1, AcctOf(PendingColumn, LiveHold(u.id))) == 0
    ensures Release(cfg, m, l, u, run, RELEASED) == Ok(l1)
  {
    hide PostImport;
    assert RELEASED[1..] == [PayableColumn, PendingColumn] && [PayableColumn, PendingColumn][1..] == [PendingColumn];
    assert Release(cfg, m, l1, u, run, []) == Ok(l1);
    assert Release(cfg, m, l1, u, run, [PendingColumn]) == Ok(l1);
    assert Release(cfg, m, l1, u, run, [PayableColumn, PendingColumn]) == Ok(l1);
  }

  lemma OneColumnAdjusted(cfg: Config, m: Mapping, l: Ledger, u: LiveUser, run: nat, l1: Ledger)
    requires var own := AcctOf(CreditColumn, OwnerOf(m, u.id));
      Shift(cfg, l, OpeningKey(run, OwnerOf(m, u.id), CreditColumn), own, ADJUSTMENT, Imported(l.journal, own) - Rounded(u.credit)) == Ok(l1)
    requires Imported(l1.journal, AcctOf(PayableColumn, OwnerOf(m, u.id))) == Rounded(u.payable)
    ensures Adjust(cfg, m, l, u, run, OPENED) == Ok(l1)
  {
    hide PostImport;
    assert OPENED[1..] == [PayableColumn];
    assert Adjust(cfg, m, l1, u, run, []) == Ok(l1);
    assert Adjust(cfg, m, l1, u, run, [PayableColumn]) == Ok(l1);
  }

  /** A run empties the hold of a mapped user, and what Billing itself had put there does not reach the user. */
  lemma NativeOnHoldIsLost(cfg: Config, id: nat, p: Subject, n: int)
    requires 0 < n <= SAFE
    ensures var l, m, zero := NativeHold(cfg, id, n), map[id := p], LiveNumber(0, 1);
      var own, hold := AcctOf(CreditColumn, Person(p)), AcctOf(CreditColumn, LiveHold(id));
      var r := ImportLive(cfg, m, l, Snapshot([LiveUser(id, zero, zero)], [], {id}), 0);
      && Books(l) && Native(l, hold) == n && Bal(l, own) == 0
      && r.Ok? && Bal(r.value, hold) == 0 && Bal(r.value, own) == 0 && Bal(r.value, ADJUSTMENT) == n
  {
    hide Books, Shift, Native, Imported, Bal, ChangesOnly, Has, Release, Adjust, OpenUser, ImportLive, NativeHold;
    var l, m, u := NativeHold(cfg, id, n), map[id := p], LiveUser(id, LiveNumber(0, 1), LiveNumber(0, 1));
    var own, hold := AcctOf(CreditColumn, Person(p)), AcctOf(CreditColumn, LiveHold(id));
    NativeHoldBooks(cfg, id, n);
    NativeHoldImports(cfg, id, n);
    var k1, k2 := ReleaseKey(0, id, CreditColumn), OpeningKey(0, Person(p), CreditColumn);
    ShiftPosts(cfg, l, k1, hold, own, n);
    ShiftEffect(cfg, l, k1, hold, own, n);
    var l1 := Shift(cfg, l, k1, hold, own, n).value;
    forall a: Account | a != hold && a != own ensures Bal(l1, a) == Bal(l, a) && Imported(l1.journal, a) == 0 {
      ChangesAt(l, l1, {hold, own}, a);
    }
    BooksAfter(l, l1, {hold, own});
    OneColumnReleased(cfg, m, l, u, 0, l1);
    ShiftPosts(cfg, l1, k2, own, ADJUSTMENT, n);
    ShiftEffect(cfg, l1, k2, own, ADJUSTMENT, n);
    var l2 := Shift(cfg, l1, k2, own, ADJUSTMENT, n).value;
    ChangesAt(l1, l2, {own, ADJUSTMENT}, hold);
    ChangesAt(l1, l2, {own, ADJUSTMENT}, AcctOf(PayableColumn, Person(p)));
    OneColumnAdjusted(cfg, m, l1, u, 0, l2);
    OneUserOpened(cfg, m, l, u, 0, l1, l2);
  }

  lemma BooksAfter(l: Ledger, l': Ledger, touched: set<Account>)
    requires ChangesOnly(l, l', touched)
    ensures Books(l')
  {
  }

  /** A run over one user that a row mentions, and no history. */
  lemma OneUserOpened(cfg: Config, m: Mapping, l: Ledger, u: LiveUser, run: nat, l1: Ledger, l2: Ledger)
    requires u.id in m && Release(cfg, m, l, u, run, RELEASED) == Ok(l1) && Adjust(cfg, m, l1, u, run, OPENED) == Ok(l2)
    ensures ImportLive(cfg, m, l, Snapshot([u], [], {u.id}), run) == Ok(l2)
  {
    hide Release, Adjust;
    var s := Snapshot([u], [], {u.id});
    assert [u][..0] == [] && [u][1..] == [];
    assert Opening(s, []) == [];
    assert Opening(s, [u]) == [u];
    assert OpenAll(cfg, m, l2, [], run) == Ok(l2);
    assert OpenAll(cfg, m, l, [u], run) == Ok(l2);
  }

  // ------------------------------------------------------------------ what a row of history moves

  /** Value that came into Live's economy from outside. */
  function FromOutside(cfg: Config, a: int): seq<Entry>
  {
    [Entry(Account(FxConversion, Platform, Bits), -a), Entry(Account(FxConversion, Platform, Cents), ValueCents(cfg, a)), Entry(LEGACY, -ValueCents(cfg, a))]
  }

  /** What a row that is replayed did in Live: who paid and who got the rounded amount. */
  ghost predicate Replays(cfg: Config, m: Mapping, t: LiveTxn, es: seq<Entry>)
  {
    var a := Rounded(t.amount);
    var credit := (id: nat) => Account(UserCredit, OwnerOf(m, id), Bits);
    var payable := (id: nat) => Account(CreatorPayable, OwnerOf(m, id), Bits);
    match t.ty
    case LivePurchase => t.to.Some? && es == FromOutside(cfg, a) + [Entry(credit(t.to.value), a)]
    case LiveDonation =>
      t.to.Some? && es == (if t.from.Some? then [Entry(credit(t.from.value), -a)] else FromOutside(cfg, a)) + [Entry(payable(t.to.value), a)]
    case LiveCashout =>
      t.from.Some?
      && (if t.status == LiveEscrow then es == [Entry(payable(t.from.value), -a), Entry(Account(PayoutsPending, OwnerOf(m, t.from.value), Bits), a)]
          else es == [ Entry(payable(t.from.value), -a), Entry(FX_BITS, a), Entry(FX_CENTS, -ValueCents(cfg, a)),
                       Entry(PayoutsThrough(Paypal), ValueCents(cfg, a)) ])
    case LiveRefund => t.from.Some? && t.to.Some? && es == [Entry(payable(t.from.value), -a), Entry(credit(t.to.value), a)]
    case LiveBonus => t.to.Some? && es == [Entry(RevenueIn(Bits), -a), Entry(credit(t.to.value), a)]
    case LiveRecycle => t.from.Some? && es == [Entry(payable(t.from.value), -a), Entry(credit(t.from.value), a)]
    case LiveOther => false
  }

  /** A completed row, or a cashout in escrow, of a positive amount is replayed as it moved in Live; every other row moves nothing. */
  lemma HistoryReplaysLive(cfg: Config, m: Mapping, t: LiveTxn)
    ensures HistoryEntries(cfg, m, t) != [] ==>
      && Rounded(t.amount) > 0 && (t.status == LiveCompleted || (t.ty == LiveCashout && t.status == LiveEscrow))
      && Replays(cfg, m, t, HistoryEntries(cfg, m, t))
    ensures HistoryEntries(cfg, m, t) == [] ==>
      Rounded(t.amount) <= 0 || !(t.status == LiveCompleted || (t.ty == LiveCashout && t.status == LiveEscrow)) || !exists es :: Replays(cfg, m, t, es)
  {
    hide ValueCents, OwnerOf;
    var es := HistoryEntries(cfg, m, t);
    if es != [] && t.ty == LiveDonation {
      assert t.from.Some? ==> es == [es[0]] + [es[1]];
    }
  }
}
