/** server/ops/rating.js: a usage reading becomes a charge, all or nothing, within the hard budgets. */
module Rating {
  import opened Basics
  import opened Schema
  import opened Journal
  import opened Rates
  import opened Common
  import opened Invariants
  import opened Store
  import opened Transfers
  import opened Promo

  // ------------------------------------------------------------------ the charge

  function Pow10(n: nat): (r: nat)
    ensures r > 0
  {
    if n == 0 then 1 else 10 * Pow10(n - 1)
  }

  datatype Fraction = Fraction(num: nat, den: nat)

  /** frac: a decimal as a numerator and a denominator. */
  function Frac(d: Decimal): (f: Fraction)
    ensures f.den > 0
  {
    if d.exp >= 0 then Fraction(d.digits * Pow10(d.exp), 1) else Fraction(d.digits, Pow10(-d.exp))
  }

  /** Vibes-bits for a quantity under a card: one division, rounded up once. */
  function ChargeFor(cfg: Config, card: Card, quantity: Decimal): Result<int, Error>
  {
    var q, p, u := Frac(quantity), Frac(card.unitPrice), Frac(card.unitSize);
    if u.num == 0 then Err(InvalidInput)
    else
      Positive(q.den, p.den, u.num);
      var bits := CeilDiv(q.num * p.num * cfg.bitsPerUsd * u.den, q.den * p.den * u.num);
      if bits > SAFE then Err(AmountOverflow) else Ok(bits)
  }

  lemma Positive(a: int, b: int, c: int)
    requires a > 0 && b > 0 && c > 0
    ensures a * b * c > 0
  {
  }

  /** The number a decimal writes. */
  ghost function Value(d: Decimal): real
  {
    if d.exp >= 0 then d.digits as real * Pow10(d.exp) as real else d.digits as real / Pow10(-d.exp) as real
  }

  lemma FracIsValue(d: Decimal)
    ensures Value(d) * Frac(d).den as real == Frac(d).num as real
  {
  }

  lemma CrossProduct(q: real, p: real, u: real, qd: real, pd: real, ud: real, b: real, g: real)
    requires qd > 0.0 && pd > 0.0 && ud > 0.0
    ensures (g * (qd * pd * (u * ud)) >= (q * qd) * (p * pd) * b * ud) <==> (g * u >= q * p * b)
  {
    var k := qd * pd * ud;
    assert k > 0.0;
    assert g * (qd * pd * (u * ud)) == (g * u) * k;
    assert (q * qd) * (p * pd) * b * ud == (q * p * b) * k;
    if g * u >= q * p * b {
      assert (g * u - q * p * b) * k >= 0.0;
    } else {
      assert (q * p * b - g * u) * k > 0.0;
    }
  }

  lemma RealProduct(a: int, b: int, c: int, d: int)
    ensures (a * b * c * d) as real == a as real * b as real * c as real * d as real
  {
    IntsAsReals(a, b);
    IntsAsReals(a * b, c);
    IntsAsReals(a * b * c, d);
  }

  lemma IntsAsReals(a: int, b: int)
    ensures (a * b) as real == a as real * b as real
  {
  }

  lemma AtLeastCeil(n: int, num: int, den: int)
    requires den > 0
    ensures n >= CeilDiv(num, den) <==> n * den >= num
  {
    var r := CeilDiv(num, den);
    if n >= r { MulMono(r, n, den); } else { MulMono(n, r - 1, den); }
  }

  /** A whole charge covers the exact product quantity x price x rate / unit size exactly when it is at least `gross`. */
  lemma ChargeIsLeast(cfg: Config, card: Card, quantity: Decimal, n: int)
    requires ChargeFor(cfg, card, quantity).Ok?
    ensures n >= ChargeFor(cfg, card, quantity).value <==>
      n as real * Value(card.unitSize) >= Value(quantity) * Value(card.unitPrice) * cfg.bitsPerUsd as real
  {
    hide Value, Frac, CeilDiv;
    var q, p, u := Frac(quantity), Frac(card.unitPrice), Frac(card.unitSize);
    ChargeUnfold(cfg, card, quantity, n);
    FracIsValue(quantity);
    FracIsValue(card.unitPrice);
    FracIsValue(card.unitSize);
    hide ChargeFor;
    CrossedInts(n, q, p, u, cfg.bitsPerUsd, Value(quantity), Value(card.unitPrice), Value(card.unitSize));
  }

  lemma ChargeUnfold(cfg: Config, card: Card, quantity: Decimal, n: int)
    requires ChargeFor(cfg, card, quantity).Ok?
    ensures var q, p, u := Frac(quantity), Frac(card.unitPrice), Frac(card.unitSize);
      n >= ChargeFor(cfg, card, quantity).value <==> n * (q.den * p.den * u.num) >= q.num * p.num * cfg.bitsPerUsd * u.den
  {
    hide Frac;
    var q, p, u := Frac(quantity), Frac(card.unitPrice), Frac(card.unitSize);
    Positive(q.den, p.den, u.num);
    AtLeastCeil(n, q.num * p.num * cfg.bitsPerUsd * u.den, q.den * p.den * u.num);
  }

  lemma CrossedInts(n: int, q: Fraction, p: Fraction, u: Fraction, b: int, qv: real, pv: real, uv: real)
    requires q.den > 0 && p.den > 0 && u.den > 0
    requires qv * q.den as real == q.num as real && pv * p.den as real == p.num as real && uv * u.den as real == u.num as real
    ensures n * (q.den * p.den * u.num) >= q.num * p.num * b * u.den <==> n as real * uv >= qv * pv * b as real
  {
    RealProduct(q.num, p.num, b, u.den);
    RealProduct(q.den, p.den, u.num, 1);
    IntsAsReals(n, q.den * p.den * u.num);
    CrossProduct(qv, pv, uv, q.den as real, p.den as real, u.den as real, b as real, n as real);
  }

  // ------------------------------------------------------------------ the card

  predicate Fits(c: Card, r: Reading)
  {
    && c.provider == r.provider && c.metric == r.resource && (c.region.None? || c.region == r.region)
    && c.from <= r.day && (c.until.None? || r.day < c.until.value)
  }

  /** The order fit.sort puts cards in: region-specific first, then the latest, then the id. */
  predicate Before(a: Card, b: Card)
  {
    if a.region.Some? != b.region.Some? then a.region.Some?
    else if a.from != b.from then a.from > b.from
    else a.id < b.id
  }

  function PickCard(cards: seq<Card>, r: Reading): (best: Option<Card>)
    ensures best.None? <==> forall c :: c in cards ==> !Fits(c, r)
    ensures best.Some? ==> best.value in cards && Fits(best.value, r)
    ensures best.Some? ==> forall c :: c in cards && Fits(c, r) ==> !Before(c, best.value)
  {
    if cards == [] then None
    else
      var best := PickCard(cards[..|cards| - 1], r);
      var c := cards[|cards| - 1];
      assert forall x :: x in cards <==> x in cards[..|cards| - 1] || x == c;
      if !Fits(c, r) then best
      else if best.None? || Before(c, best.value) then Some(c) else best
  }

  /**
   * The card is of the reading's provider and resource, for its region or for every region, and in force
   * on its day; of those a card for the region wins over a general one, then the latest, then the least id.
   */
  lemma CardPicked(cards: seq<Card>, r: Reading, c: Card)
    requires c in cards && c.provider == r.provider && c.metric == r.resource && (c.region.Some? ==> r.region == c.region)
    requires c.from <= r.day && (c.until.Some? ==> r.day < c.until.value)
    ensures PickCard(cards, r).Some?
    ensures var b := PickCard(cards, r).value;
      && b.provider == r.provider && b.metric == r.resource && (b.region.Some? ==> r.region == b.region)
      && b.from <= r.day && (b.until.Some? ==> r.day < b.until.value)
      && (c.region.Some? ==> b.region.Some?)
      && (c.region.Some? == b.region.Some? ==> c.from <= b.from && (c.from == b.from ==> b.id <= c.id))
  {
    assert Fits(c, r);
    var b := PickCard(cards, r).value;
    assert !Before(c, b);
  }

  // ------------------------------------------------------------------ hard budgets

  /** The newest row is the policy (ORDER BY updated_at DESC, window_start DESC). */
  predicate Newer(a: Budget, b: Budget) { a.updated > b.updated || (a.updated == b.updated && a.start > b.start) }

  predicate IsFor(b: Budget, p: Subject, service: nat) { b.subject == p && b.service == service }

  function Policy(rows: seq<Budget>, p: Subject, service: nat): (r: Option<nat>)
    ensures r.None? <==> forall k :: 0 <= k < |rows| ==> !IsFor(rows[k], p, service)
    ensures r.Some? ==> r.value < |rows| && IsFor(rows[r.value], p, service)
    ensures r.Some? ==> forall k :: 0 <= k < |rows| && IsFor(rows[k], p, service) ==> !Newer(rows[k], rows[r.value])
  {
    if rows == [] then None
    else
      var r := Policy(rows[..|rows| - 1], p, service);
      var b := rows[|rows| - 1];
      if !IsFor(b, p, service) then r
      else if r.None? || Newer(b, rows[r.value]) then Some(|rows| - 1) else r
  }

  function AtWindow(rows: seq<Budget>, p: Subject, service: nat, start: Millis): (r: Option<nat>)
    ensures r.Some? ==> r.value < |rows| && IsFor(rows[r.value], p, service) && rows[r.value].start == start
    ensures r.None? ==> forall k :: 0 <= k < |rows| && IsFor(rows[k], p, service) ==> rows[k].start != start
  {
    if rows == [] then None
    else
      var r := AtWindow(rows[..|rows| - 1], p, service, start);
      var b := rows[|rows| - 1];
      if r.Some? then r else if IsFor(b, p, service) && b.start == start then Some(|rows| - 1) else None
  }

  /** The rows, and the place of the window open now when there is a budget for the service. */
  datatype Opened = Opened(rows: seq<Budget>, at: Option<nat>)

  /** An ended policy rolls over to the window open now, with nothing spent. */
  function OpenBudget(cfg: Config, rows: seq<Budget>, now: Millis, p: Subject, service: nat): (r: Opened)
    ensures |r.rows| >= |rows|
    ensures r.at.Some? ==> r.at.value < |r.rows| && IsFor(r.rows[r.at.value], p, service)
  {
    var policy := Policy(rows, p, service);
    if policy.None? then Opened(rows, None)
    else
      var row := rows[policy.value];
      if row.end > now then Opened(rows, policy)
      else
        var w := cfg.windowOf(row.reset, now);
        var found := AtWindow(rows, p, service, w.start);
        if found.Some? then Opened(rows[found.value := rows[found.value].(updated := now)], found)
        else Opened(rows + [Budget(p, service, row.reset, row.budget, 0, w.start, w.end, now)], Some(|rows|))
  }

  function Services(service: nat): seq<nat> { if service == ANY_SERVICE then [ANY_SERVICE] else [service, ANY_SERVICE] }

  /** The rows the charge counts against, or a refusal when one of them has too little left. */
  function CheckBudgets(cfg: Config, rows: seq<Budget>, now: Millis, p: Subject, services: seq<nat>, bits: int):
      (r: Result<(seq<Budget>, seq<nat>), Error>)
    ensures r.Ok? ==> Within(r.value.1, |r.value.0|) && |r.value.0| >= |rows|
    decreases |services|
  {
    if services == [] then Ok((rows, []))
    else
      var o := OpenBudget(cfg, rows, now, p, services[0]);
      if o.at.None? || o.rows[o.at.value].start > now then CheckBudgets(cfg, o.rows, now, p, services[1..], bits)
      else
        var b := o.rows[o.at.value];
        if b.spent + bits > b.budget then Err(BudgetExceeded)
        else
          var rest := CheckBudgets(cfg, o.rows, now, p, services[1..], bits);
          if rest.Err? then rest else Ok((rest.value.0, [o.at.value] + rest.value.1))
  }

  function AddSpent(rows: seq<Budget>, ids: seq<nat>, bits: int, now: Millis): (r: seq<Budget>)
    requires Within(ids, |rows|)
    ensures |r| == |rows|
    decreases |ids|
  {
    if ids == [] then rows
    else AddSpent(rows[ids[0] := rows[ids[0]].(spent := rows[ids[0]].spent + bits, updated := now)], ids[1..], bits, now)
  }

  function SpendBudgets(cfg: Config, rows: seq<Budget>, now: Millis, p: Subject, service: nat, bits: int): Result<seq<Budget>, Error>
  {
    match CheckBudgets(cfg, rows, now, p, Services(service), bits)
    case Err(e) => Err(e)
    case Ok(c) => Ok(AddSpent(c.0, c.1, bits, now))
  }

  /** The first loop of spendBudgets: open each window and check it. On a refusal the caller rolls back. */
  method OpenBudgets(cfg: Config, db: Db, p: Subject, services: seq<nat>, bits: int) returns (r: Result<seq<nat>, Error>)
    modifies db`budgets
    ensures match CheckBudgets(cfg, old(db.budgets), db.clock, p, services, bits)
      case Ok(c) => r == Ok(c.1) && db.budgets == c.0
      case Err(e) => r == Err(e)
  {
    hide OpenBudget;
    var touched: seq<nat> := [];
    ghost var before := db.budgets;
    var k := 0;
    assert services[0..] == services;
    PrefixedNone(CheckBudgets(cfg, before, db.clock, p, services, bits));
    while k < |services|
      invariant k <= |services| && Within(touched, |db.budgets|)
      invariant CheckBudgets(cfg, before, db.clock, p, services, bits)
        == Prefixed(touched, CheckBudgets(cfg, db.budgets, db.clock, p, services[k..], bits))
    {
      assert services[k..][0] == services[k] && services[k..][1..] == services[k + 1..];
      ghost var was := touched;
      var o := OpenBudget(cfg, db.budgets, db.clock, p, services[k]);
      db.budgets := o.rows;
      if o.at.Some? && o.rows[o.at.value].start <= db.clock {
        var b := o.rows[o.at.value];
        if b.spent + bits > b.budget { return Err(BudgetExceeded); }
        touched := touched + [o.at.value];
        PrefixedOnce(was, o.at.value, CheckBudgets(cfg, o.rows, db.clock, p, services[k + 1..], bits));
      }
      k := k + 1;
    }
    assert Prefixed(touched, Ok((db.budgets, []))) == Ok((db.budgets, touched)) by { assert touched + [] == touched; }
    r := Ok(touched);
  }

  /** The second loop: add the charge to every window found. */
  method AddToBudgets(db: Db, touched: seq<nat>, bits: int)
    requires Within(touched, |db.budgets|)
    modifies db`budgets
    ensures db.budgets == AddSpent(old(db.budgets), touched, bits, db.clock)
  {
    ghost var rows := db.budgets;
    for i := 0 to |touched|
      invariant |db.budgets| == |rows|
      invariant AddSpent(rows, touched, bits, db.clock) == AddSpent(db.budgets, touched[i..], bits, db.clock)
    {
      assert touched[i..][0] == touched[i] && touched[i..][1..] == touched[i + 1..];
      var at := touched[i];
      db.budgets := db.budgets[at := db.budgets[at].(spent := db.budgets[at].spent + bits, updated := db.clock)];
    }
  }

  /** spendBudgets. On a refusal the caller rolls back. */
  method ChargeBudgets(cfg: Config, db: Db, p: Subject, service: nat, bits: int) returns (r: Result<(), Error>)
    modifies db`budgets
    ensures match SpendBudgets(cfg, old(db.budgets), db.clock, p, service, bits)
      case Ok(rows) => r.Ok? && db.budgets == rows
      case Err(e) => r == Err(e)
  {
    var touched := OpenBudgets(cfg, db, p, Services(service), bits);
    if touched.Err? { return Err(touched.error); }
    AddToBudgets(db, touched.value, bits);
    r := Ok(());
  }

  ghost function Prefixed(ids: seq<nat>, r: Result<(seq<Budget>, seq<nat>), Error>): Result<(seq<Budget>, seq<nat>), Error>
  {
    if r.Err? then r else Ok((r.value.0, ids + r.value.1))
  }

  lemma PrefixedNone(r: Result<(seq<Budget>, seq<nat>), Error>)
    ensures Prefixed([], r) == r
  {
    if r.Ok? { assert [] + r.value.1 == r.value.1; }
  }

  lemma PrefixedOnce(ids: seq<nat>, id: nat, r: Result<(seq<Budget>, seq<nat>), Error>)
    ensures Prefixed(ids, Prefixed([id], r)) == Prefixed(ids + [id], r)
  {
    if r.Ok? { assert ids + ([id] + r.value.1) == ids + [id] + r.value.1; }
  }

  // ------------------------------------------------------------------ setting a budget

  datatype BudgetArgs = BudgetArgs(subject: Subject, service: nat, reset: ResetPeriod, bits: int)

  function SetBudget(cfg: Config, s: State, a: BudgetArgs): Step<Budget>
  {
    if !(0 <= a.bits <= SAFE) then Fail(InvalidAmount)
    else
      var w := cfg.windowOf(a.reset, s.clock);
      var found := AtWindow(s.budgets, a.subject, a.service, w.start);
      if found.Some? then
        var row := s.budgets[found.value].(reset := a.reset, budget := a.bits, end := w.end, updated := s.clock);
        Done(s.(budgets := s.budgets[found.value := row]), row)
      else
        var row := Budget(a.subject, a.service, a.reset, a.bits, 0, w.start, w.end, s.clock);
        Done(s.(budgets := s.budgets + [row]), row)
  }

  method PutBudget(cfg: Config, db: Db, a: BudgetArgs) returns (r: Result<Budget, Error>)
    modifies db
    ensures db.Answers(old(db.View()), SetBudget(cfg, old(db.View()), a), r)
  {
    if !(0 <= a.bits <= SAFE) { return Err(InvalidAmount); }
    var w := cfg.windowOf(a.reset, db.clock);
    var found := AtWindow(db.budgets, a.subject, a.service, w.start);
    var row: Budget;
    if found.Some? {
      row := db.budgets[found.value].(reset := a.reset, budget := a.bits, end := w.end, updated := db.clock);
      db.budgets := db.budgets[found.value := row];
    } else {
      row := Budget(a.subject, a.service, a.reset, a.bits, 0, w.start, w.end, db.clock);
      db.budgets := db.budgets + [row];
    }
    r := Ok(row);
  }

  // ------------------------------------------------------------------ rating one reading

  datatype RateOutcome = Missing | RatedBefore(Rated) | RatedNow(rated: Rated, txn: Option<nat>) | Unrated(why: Error)

  /** leave: why the reading stays unrated and when the sweep may try again; a rated row is not touched. */
  function Leave(cfg: Config, s: State, id: nat, why: Error, retry: bool): State
  {
    if id >= |s.readings| || s.readings[id].rated.Some? then s
    else s.(readings := s.readings[id := s.readings[id].(error := Some(why), due := if retry then Some(s.clock + cfg.ratingRetry) else None)])
  }

  function UsageTxn(cfg: Config, id: nat, p: Subject, charge: int): Txn
  {
    Txn(Usage, UsageKey(id), [Entry(CreditOf(p), -charge), Entry(RevenueIn(Bits), charge)], None,
        Some(p), None, None, None, None, NoMeta, 0)
  }

  function Marked(row: Reading, r: Rated): Reading { row.(rated := Some(r), error := None, due := None) }

  /** What the allowance left is charged: funds, budgets, then the posting. */
  function ChargeRest(cfg: Config, s: State, id: nat, p: Subject, service: nat, charge: int): Step<Option<nat>>
  {
    if charge <= 0 then Done(s, None)
    else if Bal(s.ledger, CreditOf(p)) < charge then Fail(InsufficientFunds)
    else
      match SpendBudgets(cfg, s.budgets, s.clock, p, service, charge)
      case Err(e) => Fail(e)
      case Ok(rows) =>
        match PostOn(s.(budgets := rows), UsageTxn(cfg, id, p, charge))
        case Fail(e) => Fail(e)
        case Done(s', o) => Done(s', Some(o.txn))
  }

  function DrawFor(s: State, p: Subject, service: nat, gross: int, id: nat): Step<Draw>
  {
    if gross > 0 then Consume(s, DrawArgs(p, service, gross, id)) else Done(s, Draw(0, None))
  }

  /** Draw the allowance, charge the rest, mark the row. */
  function Collect(cfg: Config, s: State, id: nat, p: Subject, gross: int): (r: Step<RateOutcome>)
    requires id < |s.readings|
    ensures r.Done? ==> r.value.RatedNow?
  {
    match DrawFor(s, p, s.readings[id].service, gross, id)
    case Fail(e) => Fail(e)
    case Done(s1, drawn) =>
      match ChargeRest(cfg, s1, id, p, s.readings[id].service, gross - drawn.bits)
      case Fail(e) => Fail(e)
      case Done(s2, txn) =>
        var r := Rated(drawn.bits, gross - drawn.bits, gross);
        Done(s2.(readings := s.readings[id := Marked(s.readings[id], r)]),
             RatedNow(r, if txn.Some? then txn else drawn.txn))
  }

  /** The attempt inside the transaction. */
  function Attempted(cfg: Config, s: State, cards: seq<Card>, id: nat): Step<RateOutcome>
  {
    if id >= |s.readings| then Done(s, Missing)
    else
      var row := s.readings[id];
      if row.rated.Some? then Done(s, RatedBefore(row.rated.value))
      else if s.frozen then Fail(EconomyFrozen)
      else if row.subject.None? then Done(Leave(cfg, s, id, NoSubject, false), Unrated(NoSubject))
      else
        var card := PickCard(cards, row);
        if card.None? then Done(Leave(cfg, s, id, NoRateCard, false), Unrated(NoRateCard))
        else if !cfg.unitFits(card.value.metric, row.unit) then Done(Leave(cfg, s, id, UnitMismatch, false), Unrated(UnitMismatch))
        else
          match ChargeFor(cfg, card.value, row.quantity)
          case Err(e) => Fail(e)
          case Ok(gross) => Collect(cfg, s, id, row.subject.value, gross)
  }

  predicate Retried(e: Error) { e == InsufficientFunds || e == BudgetExceeded }

  /** rate: a refused attempt is rolled back and then recorded on the row; a freeze or a failure is thrown. */
  function Rate(cfg: Config, s: State, cards: seq<Card>, id: nat): Step<RateOutcome>
  {
    match Attempted(cfg, s, cards, id)
    case Done(s', o) => Done(s', o)
    case Fail(e) =>
      if e == EconomyFrozen || !IsRefusal(e) then Fail(e)
      else Done(Leave(cfg, s, id, e, Retried(e)), Unrated(e))
  }

  /** Everything between the claim of the row and its mark. On a refusal the caller rolls back. */
  method CollectCharge(cfg: Config, db: Db, id: nat, p: Subject, gross: int) returns (r: Result<RateOutcome, Error>)
    requires id < |db.readings|
    modifies db`allowances, db`journal, db`balances, db`budgets, db`readings
    ensures match Collect(cfg, old(db.View()), id, p, gross)
      case Done(s, o) => r == Ok(o) && db.View() == s
      case Fail(e) => r == Err(e) && db.readings == old(db.readings)
  {
    hide Post, Consume, SpendBudgets, UsageTxn, Marked;
    var service := db.readings[id].service;
    var drawn := Draw(0, None);
    if gross > 0 {
      var got := ConsumeAllowance(db, DrawArgs(p, service, gross, id));
      if got.Err? { return Err(got.error); }
      drawn := got.value;
    }
    var charge := gross - drawn.bits;
    var txn: Option<nat> := None;
    if charge > 0 {
      var enough := db.Holds(CreditOf(p), charge);
      if !enough { return Err(InsufficientFunds); }
      var within := ChargeBudgets(cfg, db, p, service, charge);
      if within.Err? { return Err(within.error); }
      var posted := db.Post(UsageTxn(cfg, id, p, charge));
      if posted.Err? { return Err(posted.error); }
      txn := Some(posted.value.txn);
    }
    var rated := Rated(drawn.bits, charge, gross);
    db.readings := db.readings[id := Marked(db.readings[id], rated)];
    r := Ok(RatedNow(rated, if txn.Some? then txn else drawn.txn));
  }

  method LeaveUnrated(cfg: Config, db: Db, id: nat, why: Error, retry: bool)
    modifies db`readings
    ensures db.View() == Leave(cfg, old(db.View()), id, why, retry)
  {
    if id < |db.readings| && db.readings[id].rated.None? {
      db.readings := db.readings[id := db.readings[id].(
        error := Some(why), due := if retry then Some(db.clock + cfg.ratingRetry) else None)];
    }
  }

  /** The attempt inside the transaction; on a failure the caller rolls back. */
  method AttemptReading(cfg: Config, db: Db, cards: seq<Card>, id: nat) returns (r: Result<RateOutcome, Error>)
    modifies db`allowances, db`journal, db`balances, db`budgets, db`readings
    ensures match Attempted(cfg, old(db.View()), cards, id)
      case Done(s, o) => r == Ok(o) && db.View() == s
      case Fail(e) => r == Err(e) && db.readings == old(db.readings)
  {
    hide Collect, ChargeFor, PickCard, Leave;
    if id >= |db.readings| { return Ok(Missing); }
    var row := db.readings[id];
    if row.rated.Some? { return Ok(RatedBefore(row.rated.value)); }
    if db.frozen { return Err(EconomyFrozen); }
    if row.subject.None? {
      LeaveUnrated(cfg, db, id, NoSubject, false);
      return Ok(Unrated(NoSubject));
    }
    var card := PickCard(cards, row);
    if card.None? {
      LeaveUnrated(cfg, db, id, NoRateCard, false);
      return Ok(Unrated(NoRateCard));
    }
    if !cfg.unitFits(card.value.metric, row.unit) {
      LeaveUnrated(cfg, db, id, UnitMismatch, false);
      return Ok(Unrated(UnitMismatch));
    }
    var gross := ChargeFor(cfg, card.value, row.quantity);
    if gross.Err? { return Err(gross.error); }
    r := CollectCharge(cfg, db, id, row.subject.value, gross.value);
  }

  method RateReading(cfg: Config, db: Db, cards: seq<Card>, id: nat) returns (r: Result<RateOutcome, Error>)
    modifies db
    ensures db.Answers(old(db.View()), Rate(cfg, old(db.View()), cards, id), r)
  {
    hide Attempted, Leave;
    var allowances, journal, balances, budgets := db.allowances, db.journal, db.balances, db.budgets;
    r := AttemptReading(cfg, db, cards, id);
    if r.Ok? { return; }
    db.allowances, db.journal, db.balances, db.budgets := allowances, journal, balances, budgets;
    assert db.View() == old(db.View());
    var refused := r.error;
    if refused == EconomyFrozen || !IsRefusal(refused) { return; }
    LeaveUnrated(cfg, db, id, refused, Retried(refused));
    r := Ok(Unrated(refused));
  }

  // ------------------------------------------------------------------ what a charge does to the budgets

  lemma {:induction false} PolicyElsewhere(rows: seq<Budget>, i: nat, b: Budget, p: Subject, service: nat)
    requires i < |rows| && !IsFor(rows[i], p, service) && !IsFor(b, p, service)
    ensures Policy(rows[i := b], p, service) == Policy(rows, p, service)
  {
    hide AtWindow, IsFor, Newer;
    var n := |rows| - 1;
    if i == n {
      assert rows[i := b][..n] == rows[..n];
    } else {
      assert rows[i := b][..n] == rows[..n][i := b];
      PolicyElsewhere(rows[..n], i, b, p, service);
    }
  }

  lemma {:induction false} WindowElsewhere(rows: seq<Budget>, i: nat, b: Budget, p: Subject, service: nat)
    requires i < |rows| && !IsFor(rows[i], p, service) && !IsFor(b, p, service)
    ensures forall start :: AtWindow(rows[i := b], p, service, start) == AtWindow(rows, p, service, start)
  {
    hide Policy, IsFor;
    var n := |rows| - 1;
    if i == n {
      assert rows[i := b][..n] == rows[..n];
    } else {
      assert rows[i := b][..n] == rows[..n][i := b];
      WindowElsewhere(rows[..n], i, b, p, service);
    }
  }

  lemma PolicyAppended(rows: seq<Budget>, b: Budget, p: Subject, service: nat)
    requires !IsFor(b, p, service)
    ensures Policy(rows + [b], p, service) == Policy(rows, p, service)
    ensures forall start :: AtWindow(rows + [b], p, service, start) == AtWindow(rows, p, service, start)
  {
    assert (rows + [b])[..|rows|] == rows;
  }

  /** The budget of the window open now, as it stands before the charge. */
  function OpenRow(cfg: Config, rows: seq<Budget>, now: Millis, p: Subject, service: nat): Option<Budget>
  {
    var o := OpenBudget(cfg, rows, now, p, service);
    if o.at.Some? && o.rows[o.at.value].start <= now then Some(o.rows[o.at.value]) else None
  }

  /** Opening one service's window leaves the others as they were. */
  lemma OpenApart(cfg: Config, rows: seq<Budget>, now: Millis, p: Subject, service: nat, other: nat)
    requires service != other
    ensures OpenRow(cfg, OpenBudget(cfg, rows, now, p, service).rows, now, p, other) == OpenRow(cfg, rows, now, p, other)
  {
    var policy := Policy(rows, p, service);
    if policy.Some? && rows[policy.value].end <= now {
      var row := rows[policy.value];
      var w := cfg.windowOf(row.reset, now);
      var found := AtWindow(rows, p, service, w.start);
      if found.Some? {
        PolicyElsewhere(rows, found.value, rows[found.value].(updated := now), p, other);
        WindowElsewhere(rows, found.value, rows[found.value].(updated := now), p, other);
      } else {
        PolicyAppended(rows, Budget(p, service, row.reset, row.budget, 0, w.start, w.end, now), p, other);
      }
    }
  }

  /** Opening a window spends nothing. */
  ghost predicate OpenedTo(rows: seq<Budget>, after: seq<Budget>)
  {
    && |after| >= |rows|
    && (forall k :: 0 <= k < |rows| ==> after[k] == rows[k].(updated := after[k].updated))
    && (forall k :: |rows| <= k < |after| ==> after[k].spent == 0)
  }

  lemma OpenSpendsNothing(cfg: Config, rows: seq<Budget>, now: Millis, p: Subject, service: nat)
    ensures OpenedTo(rows, OpenBudget(cfg, rows, now, p, service).rows)
    ensures forall k :: 0 <= k < |rows| && !IsFor(rows[k], p, service) ==> OpenBudget(cfg, rows, now, p, service).rows[k] == rows[k]
  {
  }

  lemma {:induction false} ChecksPassed(cfg: Config, rows: seq<Budget>, now: Millis, p: Subject, services: seq<nat>, bits: int)
    requires NoRepeat(services) && CheckBudgets(cfg, rows, now, p, services, bits).Ok?
    ensures var (after, ids) := CheckBudgets(cfg, rows, now, p, services, bits).value;
      && OpenedTo(rows, after)
      && (forall k :: 0 <= k < |rows| && (rows[k].subject != p || rows[k].service !in services) ==> after[k] == rows[k])
      && NoRepeat(ids)
      && (forall i :: i in ids ==>
            i < |after| && after[i].subject == p && after[i].service in services && after[i].spent + bits <= after[i].budget)
      && (forall x :: x in services && OpenRow(cfg, rows, now, p, x).Some? ==>
            exists i :: i in ids && i < |after| && after[i] == OpenRow(cfg, rows, now, p, x).value)
    decreases |services|
  {
    hide OpenBudget;
    if services != [] {
      var o := OpenBudget(cfg, rows, now, p, services[0]);
      OpenSpendsNothing(cfg, rows, now, p, services[0]);
      assert services == [services[0]] + services[1..];
      ChecksPassed(cfg, o.rows, now, p, services[1..], bits);
      var (after, rest) := CheckBudgets(cfg, o.rows, now, p, services[1..], bits).value;
      var ids := CheckBudgets(cfg, rows, now, p, services, bits).value.1;
      assert services[0] !in services[1..];
      forall x | x in services && OpenRow(cfg, rows, now, p, x).Some?
        ensures exists i :: i in ids && i < |after| && after[i] == OpenRow(cfg, rows, now, p, x).value
      {
        if x == services[0] {
          assert o.at.value in ids;
        } else {
          OpenApart(cfg, rows, now, p, services[0], x);
          var i :| i in rest && i < |after| && after[i] == OpenRow(cfg, o.rows, now, p, x).value;
          assert i in ids;
        }
      }
      if ids != rest {
        assert ids == [o.at.value] + rest;
        forall i | i in rest ensures i != o.at.value {
          assert after[i].service in services[1..];
        }
      }
    }
  }

  lemma {:induction false} SpentAt(rows: seq<Budget>, ids: seq<nat>, bits: int, now: Millis)
    requires Within(ids, |rows|) && NoRepeat(ids)
    ensures forall k :: 0 <= k < |rows| ==>
      AddSpent(rows, ids, bits, now)[k] == if k in ids then rows[k].(spent := rows[k].spent + bits, updated := now) else rows[k]
    decreases |ids|
  {
    if ids != [] {
      var rows' := rows[ids[0] := rows[ids[0]].(spent := rows[ids[0]].spent + bits, updated := now)];
      SpentAt(rows', ids[1..], bits, now);
      assert ids == [ids[0]] + ids[1..];
      assert ids[0] !in ids[1..];
    }
  }

  /** What a charge may do to the budget rows: no limit changes, and what is spent more stays within its limit. */
  ghost predicate WithinBudgets(rows: seq<Budget>, after: seq<Budget>)
  {
    && |rows| <= |after|
    && (forall k :: 0 <= k < |rows| ==>
          && after[k] == rows[k].(spent := after[k].spent, updated := after[k].updated)
          && (after[k].spent == rows[k].spent || after[k].spent <= after[k].budget))
    && (forall k :: |rows| <= k < |after| ==> after[k].spent == 0 || after[k].spent <= after[k].budget)
  }

  /** A charge that passes counts once against each open budget it falls under, and takes none past its limit. */
  lemma BudgetsHold(cfg: Config, rows: seq<Budget>, now: Millis, p: Subject, service: nat, bits: int)
    requires SpendBudgets(cfg, rows, now, p, service, bits).Ok?
    ensures var after := SpendBudgets(cfg, rows, now, p, service, bits).value;
      && WithinBudgets(rows, after)
      && (forall k :: 0 <= k < |rows| ==>
            after[k].spent == rows[k].spent
            || (after[k].spent == rows[k].spent + bits && rows[k].subject == p && (rows[k].service == service || rows[k].service == ANY_SERVICE)))
      && forall x :: x == service || x == ANY_SERVICE ==>
           var was := OpenRow(cfg, rows, now, p, x);
           was.Some? ==>
             && was.value.spent + bits <= was.value.budget
             && exists k :: 0 <= k < |after| && after[k] == was.value.(spent := was.value.spent + bits, updated := now)
  {
    hide OpenBudget, CheckBudgets, AddSpent;
    ChecksPassed(cfg, rows, now, p, Services(service), bits);
    var (checked, ids) := CheckBudgets(cfg, rows, now, p, Services(service), bits).value;
    SpentAt(checked, ids, bits, now);
    var after := AddSpent(checked, ids, bits, now);
    forall x | (x == service || x == ANY_SERVICE) && OpenRow(cfg, rows, now, p, x).Some?
      ensures var was := OpenRow(cfg, rows, now, p, x).value;
        was.spent + bits <= was.budget && exists k :: 0 <= k < |after| && after[k] == was.(spent := was.spent + bits, updated := now)
    {
      assert x in Services(service);
      var i :| i in ids && i < |checked| && checked[i] == OpenRow(cfg, rows, now, p, x).value;
      assert after[i] == checked[i].(spent := checked[i].spent + bits, updated := now);
    }
  }

  lemma {:induction false} ChecksDecide(cfg: Config, rows: seq<Budget>, now: Millis, p: Subject, services: seq<nat>, bits: int)
    requires NoRepeat(services)
    ensures CheckBudgets(cfg, rows, now, p, services, bits).Ok? <==>
      forall x :: x in services ==> RoomFor(cfg, rows, now, p, x, bits)
    decreases |services|
  {
    hide OpenBudget, RoomFor;
    if services != [] {
      var o := OpenBudget(cfg, rows, now, p, services[0]);
      assert services == [services[0]] + services[1..];
      assert services[0] !in services[1..];
      ChecksDecide(cfg, o.rows, now, p, services[1..], bits);
      forall x | x in services[1..] ensures RoomFor(cfg, o.rows, now, p, x, bits) <==> RoomFor(cfg, rows, now, p, x, bits) {
        RoomApart(cfg, rows, now, p, services[0], x, bits);
      }
      RoomFirst(cfg, rows, now, p, services[0], bits);
    }
  }

  /** The open budget of the service, when there is one, has that much left. */
  predicate RoomFor(cfg: Config, rows: seq<Budget>, now: Millis, p: Subject, service: nat, bits: int)
  {
    var open := OpenRow(cfg, rows, now, p, service);
    open.Some? ==> open.value.spent + bits <= open.value.budget
  }

  lemma RoomApart(cfg: Config, rows: seq<Budget>, now: Millis, p: Subject, service: nat, other: nat, bits: int)
    requires service != other
    ensures RoomFor(cfg, OpenBudget(cfg, rows, now, p, service).rows, now, p, other, bits) <==> RoomFor(cfg, rows, now, p, other, bits)
  {
    hide OpenBudget;
    OpenApart(cfg, rows, now, p, service, other);
  }

  lemma RoomFirst(cfg: Config, rows: seq<Budget>, now: Millis, p: Subject, service: nat, bits: int)
    ensures var o := OpenBudget(cfg, rows, now, p, service);
      RoomFor(cfg, rows, now, p, service, bits) <==>
        o.at.None? || o.rows[o.at.value].start > now || o.rows[o.at.value].spent + bits <= o.rows[o.at.value].budget
  {
    hide OpenBudget;
  }

  /** A charge is refused exactly when it would take the service's open budget, or the one of all services, past its limit. */
  lemma BudgetsDecide(cfg: Config, rows: seq<Budget>, now: Millis, p: Subject, service: nat, bits: int)
    ensures SpendBudgets(cfg, rows, now, p, service, bits).Ok? <==>
      RoomFor(cfg, rows, now, p, service, bits) && RoomFor(cfg, rows, now, p, ANY_SERVICE, bits)
  {
    hide OpenBudget, CheckBudgets, AddSpent, OpenRow, RoomFor;
    ChecksDecide(cfg, rows, now, p, Services(service), bits);
    assert service in Services(service) && ANY_SERVICE in Services(service);
  }

  /**
   * The newest budget of a service is the one in force. While its window lasts it counts what that window
   * has spent; once it has ended, the window open now under the same limit does, from 0 if it is new.
   */
  lemma OpenRowIs(cfg: Config, rows: seq<Budget>, now: Millis, p: Subject, service: nat, i: nat)
    requires i < |rows| && IsFor(rows[i], p, service)
    requires forall k :: 0 <= k < |rows| && k != i && IsFor(rows[k], p, service) ==>
      rows[k].updated < rows[i].updated || (rows[k].updated == rows[i].updated && rows[k].start < rows[i].start)
    ensures var b := rows[i]; var w := cfg.windowOf(b.reset, now);
      && (b.end > now ==> OpenRow(cfg, rows, now, p, service) == if b.start <= now then Some(b) else None)
      && (b.end <= now && w.start <= now ==>
            OpenRow(cfg, rows, now, p, service).Some? && var open := OpenRow(cfg, rows, now, p, service).value;
            && open.start == w.start
            && (if exists k :: 0 <= k < |rows| && IsFor(rows[k], p, service) && rows[k].start == w.start
                then exists k :: 0 <= k < |rows| && IsFor(rows[k], p, service) && open == rows[k].(updated := now)
                else open == Budget(p, service, b.reset, b.budget, 0, w.start, w.end, now)))
  {
    hide Policy, AtWindow;
    var b := rows[i];
    var w := cfg.windowOf(b.reset, now);
    var found := AtWindow(rows, p, service, w.start);
    if b.end <= now && found.Some? {
      assert OpenBudget(cfg, rows, now, p, service).rows[found.value] == rows[found.value].(updated := now);
    }
  }

  // ------------------------------------------------------------------ what rating keeps

  /** Nothing but the rating part reads the readings and the budgets. */
  lemma ReadingsFrame(cfg: Config, s: State, readings: seq<Reading>, budgets: seq<Budget>)
    requires Inv(cfg, s)
    requires RatingOk(s.(readings := readings))
    ensures Inv(cfg, s.(readings := readings, budgets := budgets))
  {
    hide JournalOk, NonNegative, PayoutsOk, PeriodsCharged, SubsOk, RenewalsOk, PromoOk, RatingOk, TotalsOk, VibesOk, HoldRowsOk, IntentsOk;
    var s' := s.(readings := readings, budgets := budgets);
    Frame(cfg, s, s');
    RatingFrame(s.(readings := readings), s');
  }

  lemma RatingOf(cfg: Config, s: State)
    requires Inv(cfg, s)
    ensures RatingOk(s)
  {
  }

  lemma UnratedKeysAreFresh(s: State, id: nat)
    requires RatingOk(s) && id < |s.readings| && s.readings[id].rated.None?
    ensures FindKey(s.ledger.journal, UsageKey(id)).None? && FindKey(s.ledger.journal, PromoDrawKey(id)).None?
  {
    assert HasKey(s.ledger.journal, UsageKey(id)) || FindKey(s.ledger.journal, UsageKey(id)).None?;
    assert HasKey(s.ledger.journal, PromoDrawKey(id)) || FindKey(s.ledger.journal, PromoDrawKey(id)).None?;
  }

  lemma MarkedOk(s: State, id: nat, r: Rated)
    requires RatingOk(s) && id < |s.readings| && s.readings[id].rated.None?
    requires r.promoBits >= 0 && r.charged >= 0 && r.promoBits + r.charged == r.gross
    ensures RatingOk(s.(readings := s.readings[id := Marked(s.readings[id], r)]))
  {
  }

  lemma LeaveKeeps(cfg: Config, s: State, id: nat, why: Error, retry: bool)
    requires Inv(cfg, s)
    ensures Inv(cfg, Leave(cfg, s, id, why, retry))
  {
    hide Inv;
    RatingOf(cfg, s);
    ReadingsFrame(cfg, s, Leave(cfg, s, id, why, retry).readings, s.budgets);
  }

  /** The draw part of a fresh rating. */
  lemma DrawnForRating(cfg: Config, s: State, p: Subject, gross: int, id: nat)
    requires Inv(cfg, s) && id < |s.readings| && s.readings[id].rated.None? && gross >= 0
    requires DrawFor(s, p, s.readings[id].service, gross, id).Done?
    ensures var drawn := DrawFor(s, p, s.readings[id].service, gross, id).value;
      drawn.bits == Min(gross, Remaining(s, p, s.readings[id].service)) && 0 <= drawn.bits <= gross
  {
    hide Inv, Consume;
    RatingOf(cfg, s);
    UnratedKeysAreFresh(s, id);
    if gross > 0 { ConsumeDraws(cfg, s, DrawArgs(p, s.readings[id].service, gross, id)); }
  }

  lemma RestReread(cfg: Config, s: State, id: nat, p: Subject, service: nat, charge: int, readings: seq<Reading>)
    ensures ChargeRest(cfg, s.(readings := readings), id, p, service, charge) == Reread(ChargeRest(cfg, s, id, p, service, charge), readings)
  {
    hide Post, SpendBudgets;
  }

  lemma ChargeRestKeeps(cfg: Config, s: State, id: nat, p: Subject, service: nat, charge: int)
    requires Inv(cfg, s) && RatedKey(s, UsageKey(id)) && ChargeRest(cfg, s, id, p, service, charge).Done?
    ensures Inv(cfg, ChargeRest(cfg, s, id, p, service, charge).state)
  {
    hide Inv, Post, SpendBudgets;
    if charge > 0 {
      var t := UsageTxn(cfg, id, p, charge);
      var rows := SpendBudgets(cfg, s.budgets, s.clock, p, service, charge).value;
      RatingOf(cfg, s);
      hide RatingOk;
      ReadingsFrame(cfg, s, s.readings, rows);
      if Post(s.ledger, t).Posted? { UsagePosted(cfg, s.(budgets := rows), id, p, charge); }
    }
  }

  lemma UsagePosted(cfg: Config, s: State, id: nat, p: Subject, charge: int)
    requires Inv(cfg, s) && RatedKey(s, UsageKey(id)) && 0 < charge <= Bal(s.ledger, CreditOf(p))
    requires Post(s.ledger, UsageTxn(cfg, id, p, charge)).Posted?
    ensures Inv(cfg, s.(ledger := Post(s.ledger, UsageTxn(cfg, id, p, charge)).ledger))
  {
    hide Post, JournalOk, PayoutsOk, PeriodsCharged, RenewalsOk, PromoOk, RatingOk, TotalsOk, VibesOk, HoldRowsOk, SubsOk, Touches, FxMirror;
    var t := UsageTxn(cfg, id, p, charge);
    PairShape(t, CreditOf(p), RevenueIn(Bits), charge);
    PlainPost(cfg, s, t);
  }

  lemma CollectKeeps(cfg: Config, s: State, id: nat, p: Subject, gross: int)
    requires Inv(cfg, s) && id < |s.readings| && s.readings[id].rated.None? && gross >= 0
    requires Collect(cfg, s, id, p, gross).Done?
    ensures Inv(cfg, Collect(cfg, s, id, p, gross).state)
  {
    hide Inv, InvBesideRating, Consume, ChargeRest, RatingOk;
    var service := s.readings[id].service;
    DrawnForRating(cfg, s, p, gross, id);
    var drawn := DrawFor(s, p, service, gross, id).value;
    var r := Rated(drawn.bits, gross - drawn.bits, gross);
    var readings := s.readings[id := Marked(s.readings[id], r)];
    RatingOf(cfg, s);
    MarkedOk(s, id, r);
    ReadingsFrame(cfg, s, readings, s.budgets);
    var marked := s.(readings := readings);
    var a := DrawArgs(p, service, gross, id);
    ConsumeReread(s, a, readings);
    if gross > 0 { ConsumeKeeps(cfg, marked, a); }
    var s1 := DrawFor(s, p, service, gross, id).state;
    DrawKeepsReadings(s, p, service, gross, id);
    RestReread(cfg, s1, id, p, service, gross - drawn.bits, readings);
    ChargeRestKeeps(cfg, s1.(readings := readings), id, p, service, gross - drawn.bits);
  }

  lemma DrawKeepsReadings(s: State, p: Subject, service: nat, gross: int, id: nat)
    requires DrawFor(s, p, service, gross, id).Done?
    ensures DrawFor(s, p, service, gross, id).state.readings == s.readings
  {
    hide Consume;
    if gross > 0 {
      ConsumeReread(s, DrawArgs(p, service, gross, id), s.readings);
      assert s.(readings := s.readings) == s;
    }
  }

  lemma ChargeNotNegative(cfg: Config, card: Card, quantity: Decimal)
    requires ChargeFor(cfg, card, quantity).Ok?
    ensures ChargeFor(cfg, card, quantity).value >= 0
  {
    hide Value;
    ChargeUnfold(cfg, card, quantity, -1);
    var q, p, u := Frac(quantity), Frac(card.unitPrice), Frac(card.unitSize);
    hide ChargeFor, Frac, CeilDiv;
    NotNegative(q.num, p.num, cfg.bitsPerUsd, u.den);
    NotNegative(q.den, p.den, u.num, 1);
  }

  lemma NotNegative(a: int, b: int, c: int, d: int)
    requires a >= 0 && b >= 0 && c >= 0 && d >= 0
    ensures a * b * c * d >= 0
  {
    assert a * b >= 0;
    assert a * b * c >= 0;
  }

  lemma RateKeeps(cfg: Config, s: State, cards: seq<Card>, id: nat)
    requires Inv(cfg, s) && Rate(cfg, s, cards, id).Done?
    ensures Inv(cfg, Rate(cfg, s, cards, id).state)
  {
    hide Inv, Collect, ChargeFor, Leave;
    match Attempted(cfg, s, cards, id) {
      case Fail(e) =>
        LeaveKeeps(cfg, s, id, e, Retried(e));
      case Done(s', o) =>
        if s' != s {
          var row := s.readings[id];
          if o.Unrated? {
            LeaveKeeps(cfg, s, id, o.why, false);
          } else {
            var card := PickCard(cards, row).value;
            ChargeNotNegative(cfg, card, row.quantity);
            CollectKeeps(cfg, s, id, row.subject.value, ChargeFor(cfg, card, row.quantity).value);
          }
        }
    }
  }

  /** A refused reading leaves the ledger, the allowances and the budgets as they were; only its own note changes. */
  lemma RefusalMovesNothing(cfg: Config, s: State, cards: seq<Card>, id: nat)
    requires Rate(cfg, s, cards, id).Done? && Rate(cfg, s, cards, id).value.Unrated?
    ensures var s' := Rate(cfg, s, cards, id).state; var why := Rate(cfg, s, cards, id).value.why;
      && id < |s.readings| && s.readings[id].rated.None?
      && s' == s.(readings := s.readings[id := s'.readings[id]])
      && s'.readings[id] == s.readings[id].(
           error := Some(why), due := if why == InsufficientFunds || why == BudgetExceeded then Some(s.clock + cfg.ratingRetry) else None)
  {
    hide Consume, ChargeRest, ChargeFor;
  }

  /** Rated at most once: a mark, once made, is never changed, whichever reading is rated next. */
  lemma RatedStays(cfg: Config, s: State, cards: seq<Card>, id: nat, k: nat)
    requires Rate(cfg, s, cards, id).Done? && k < |s.readings|
    requires s.readings[k].rated.Some? || k != id
    ensures |Rate(cfg, s, cards, id).state.readings| == |s.readings| && Rate(cfg, s, cards, id).state.readings[k] == s.readings[k]
    ensures k == id ==> Rate(cfg, s, cards, id).state == s
  {
    hide Consume, ChargeRest, ChargeFor;
  }

  /** What a reading that is rated now cost: its picked card's charge, the allowance first, the rest from credit. */
  lemma RatingMoves(cfg: Config, s: State, cards: seq<Card>, id: nat)
    requires Inv(cfg, s) && Rate(cfg, s, cards, id).Done? && Rate(cfg, s, cards, id).value.RatedNow?
    ensures id < |s.readings| && s.readings[id].rated.None? && s.readings[id].subject.Some?
    ensures var r := Rate(cfg, s, cards, id).value.rated; var row := s.readings[id]; var card := PickCard(cards, row);
      && card.Some? && cfg.unitFits(card.value.metric, row.unit)
      && ChargeFor(cfg, card.value, row.quantity) == Ok(r.gross)
      && Collected(cfg, s, Rate(cfg, s, cards, id).state, id, row.subject.value, r)
  {
    hide Inv, Collect, ChargeFor, Leave, Collected;
    var row := s.readings[id];
    var card := PickCard(cards, row).value;
    ChargeNotNegative(cfg, card, row.quantity);
    CollectMoves(cfg, s, id, row.subject.value, ChargeFor(cfg, card, row.quantity).value);
  }

  /** Allowance first, all that remains of it or all that is needed; the rest from credit, within the budgets. */
  ghost predicate Collected(cfg: Config, s: State, s': State, id: nat, p: Subject, r: Rated)
    requires id < |s.readings|
  {
    && r.promoBits == Min(r.gross, Remaining(s, p, s.readings[id].service))
    && r.promoBits + r.charged == r.gross
    && s'.readings == s.readings[id := s.readings[id].(rated := Some(r), error := None, due := None)]
    && (forall x: Account :: !IsPromo(x.kind) ==>
          Bal(s'.ledger, x) == Bal(s.ledger, x) + (if x == CreditOf(p) then -r.charged else if x == RevenueIn(Bits) then r.charged else 0))
    && (r.charged == 0 ==> s'.budgets == s.budgets)
    && (r.charged > 0 ==> SpendBudgets(cfg, s.budgets, s.clock, p, s.readings[id].service, r.charged) == Ok(s'.budgets))
  }

  lemma CollectMoves(cfg: Config, s: State, id: nat, p: Subject, gross: int)
    requires Inv(cfg, s) && id < |s.readings| && s.readings[id].rated.None? && gross >= 0
    requires Collect(cfg, s, id, p, gross).Done?
    ensures var c := Collect(cfg, s, id, p, gross);
      c.value.rated.gross == gross && Collected(cfg, s, c.state, id, p, c.value.rated)
  {
    hide Inv, DrawFor, ChargeRest, SpendBudgets, Remaining, Bal;
    var service := s.readings[id].service;
    DrawnForRating(cfg, s, p, gross, id);
    DrawMoves(cfg, s, p, service, gross, id);
    var drawn := DrawFor(s, p, service, gross, id);
    RestMoves(cfg, drawn.state, id, p, service, gross - drawn.value.bits);
  }

  /** Lapsing before a draw leaves the reading's keys fresh, and moves promo kinds alone. */
  lemma LapsedBeforeDraw(cfg: Config, s: State, p: Subject, id: nat)
    requires Inv(cfg, s) && id < |s.readings| && s.readings[id].rated.None? && LapseAll(s, p).Done?
    ensures var s1 := LapseAll(s, p).state;
      && s1 == s.(ledger := s1.ledger, allowances := s1.allowances) && Books(s1.ledger)
      && FindKey(s1.ledger.journal, UsageKey(id)).None? && FindKey(s1.ledger.journal, PromoDrawKey(id)).None?
      && (forall a: Account :: !IsPromo(a.kind) ==> Bal(s1.ledger, a) == Bal(s.ledger, a))
  {
    hide Inv, LapseAll, Post, PromoGrowth;
    RatingOf(cfg, s);
    UnratedKeysAreFresh(s, id);
    InvBooks(cfg, s);
    LapseKeeps(cfg, s, p);
    var s1 := LapseAll(s, p).state;
    InvBooks(cfg, s1);
    StillFresh(s.ledger.journal, s1.ledger.journal, UsageKey(id));
    StillFresh(s.ledger.journal, s1.ledger.journal, PromoDrawKey(id));
  }

  /** Drawing the allowance leaves credit, the clock and the budgets alone. */
  lemma DrawMoves(cfg: Config, s: State, p: Subject, service: nat, gross: int, id: nat)
    requires Inv(cfg, s) && id < |s.readings| && s.readings[id].rated.None?
    requires DrawFor(s, p, service, gross, id).Done?
    ensures var s1 := DrawFor(s, p, service, gross, id).state;
      && s1 == s.(ledger := s1.ledger, allowances := s1.allowances)
      && Books(s1.ledger) && FindKey(s1.ledger.journal, UsageKey(id)).None?
      && (forall a: Account :: !IsPromo(a.kind) ==> Bal(s1.ledger, a) == Bal(s.ledger, a))
  {
    hide Inv, LapseAll, Post, Take, Taken, DrawOrder, PromoGrowth, Books;
    InvBooks(cfg, s);
    RatingOf(cfg, s);
    UnratedKeysAreFresh(s, id);
    if gross > 0 && LapseAll(s, p).Done? {
      var a := DrawArgs(p, service, gross, id);
      LapsedBeforeDraw(cfg, s, p, id);
      var s1 := LapseAll(s, p).state;
      var ids := DrawOrder(s1.allowances, p, service, s1.clock);
      var left := Min(gross, Max(0, Bal(s1.ledger, PromoOf(p))));
      DrawPostMoves(s1.ledger, a, Taken(s1.allowances, ids, left));
    }
  }

  lemma DrawPostMoves(l: Ledger, a: DrawArgs, used: int)
    requires Books(l) && FindKey(l.journal, UsageKey(a.reading)).None? && FindKey(l.journal, PromoDrawKey(a.reading)).None?
    ensures var p := Post(l, DrawTxn(a, used));
      p.Posted? ==>
        && Books(p.ledger) && FindKey(p.ledger.journal, UsageKey(a.reading)).None?
        && forall x: Account :: !IsPromo(x.kind) ==> Bal(p.ledger, x) == Bal(l, x)
    ensures !Post(l, DrawTxn(a, used)).Replayed?
  {
    var t := DrawTxn(a, used);
    FreshPosts(l, t);
    if Post(l, t).Posted? {
      hide Post;
      Sums2(Entry(PromoOf(a.subject), -used), Entry(PROMO_RESERVE, used));
      PostEffect(l, t);
      var stored := Appended(l, t);
    }
  }

  lemma RestMoves(cfg: Config, s: State, id: nat, p: Subject, service: nat, charge: int)
    requires Books(s.ledger) && charge >= 0 && FindKey(s.ledger.journal, UsageKey(id)).None?
    requires ChargeRest(cfg, s, id, p, service, charge).Done?
    ensures var s' := ChargeRest(cfg, s, id, p, service, charge).state;
      && (forall x: Account :: Bal(s'.ledger, x) == Bal(s.ledger, x) + (if x == CreditOf(p) then -charge else if x == RevenueIn(Bits) then charge else 0))
      && (charge == 0 ==> s'.budgets == s.budgets)
      && (charge > 0 ==> SpendBudgets(cfg, s.budgets, s.clock, p, service, charge) == Ok(s'.budgets))
  {
    hide SpendBudgets, Post;
    if charge > 0 {
      var t := UsageTxn(cfg, id, p, charge);
      FreshPosts(s.ledger, t);
      Sums2(Entry(CreditOf(p), -charge), Entry(RevenueIn(Bits), charge));
      PostEffect(s.ledger, t);
    }
  }

  /** Whatever a rating does, it changes no limit and takes no budget past its limit. */
  lemma RateBudgets(cfg: Config, s: State, cards: seq<Card>, id: nat)
    requires Inv(cfg, s) && Rate(cfg, s, cards, id).Done?
    ensures WithinBudgets(s.budgets, Rate(cfg, s, cards, id).state.budgets)
  {
    hide Inv, Collect, ChargeFor, SpendBudgets, WithinBudgets;
    SameBudgets(s.budgets);
    var r := Rate(cfg, s, cards, id);
    if r.value.RatedNow? {
      RatingMoves(cfg, s, cards, id);
      var row := s.readings[id];
      if r.value.rated.charged > 0 {
        BudgetsHold(cfg, s.budgets, s.clock, row.subject.value, row.service, r.value.rated.charged);
      } else {
        ChargedNotNegative(cfg, s, cards, id);
      }
    }
  }

  lemma ChargedNotNegative(cfg: Config, s: State, cards: seq<Card>, id: nat)
    requires Inv(cfg, s) && Rate(cfg, s, cards, id).Done? && Rate(cfg, s, cards, id).value.RatedNow?
    ensures Rate(cfg, s, cards, id).value.rated.charged >= 0
  {
    hide Inv, Collect, ChargeFor, SpendBudgets, Remaining;
    RatingMoves(cfg, s, cards, id);
  }

  lemma SameBudgets(rows: seq<Budget>)
    ensures WithinBudgets(rows, rows)
  {
  }

  lemma BudgetsChain(a: seq<Budget>, b: seq<Budget>, c: seq<Budget>)
    requires WithinBudgets(a, b) && WithinBudgets(b, c)
    ensures WithinBudgets(a, c)
  {
  }

  // ------------------------------------------------------------------ the sweep

  datatype SweepOut = SweepOut(rated: nat, skipped: nat, busy: nat, failed: nat, frozen: bool)

  predicate IsDue(r: Reading, now: Millis) { r.due.Some? && r.due.value <= now }

  function DueIds(rows: seq<Reading>, now: Millis): (r: seq<nat>)
    ensures forall i :: i in r <==> 0 <= i < |rows| && IsDue(rows[i], now)
    ensures NoRepeat(r)
  {
    if rows == [] then []
    else
      var r := DueIds(rows[..|rows| - 1], now);
      assert forall k :: 0 <= k < |r| ==> r[k] in r;
      assert forall i :: i in r <==> 0 <= i < |rows| - 1 && IsDue(rows[i], now);
      if IsDue(rows[|rows| - 1], now) then r + [|rows| - 1] else r
  }

  function ReadAt(rows: seq<Reading>): seq<int> { seq(|rows|, k requires 0 <= k < |rows| => rows[k].at) }

  /** The due readings, oldest first, at most `batch` of them. */
  function Batch(s: State, batch: nat): (r: seq<nat>)
    ensures |r| <= batch && NoRepeat(r) && Within(r, |s.readings|) && Ascending(r, ReadAt(s.readings))
    ensures forall i :: i in r ==> i < |s.readings| && s.readings[i].due.Some? && s.readings[i].due.value <= s.clock
    ensures |r| < batch ==> forall i :: 0 <= i < |s.readings| && s.readings[i].due.Some? && s.readings[i].due.value <= s.clock ==> i in r
  {
    var ids := DueIds(s.readings, s.clock);
    assert Within(ids, |s.readings|) by { assert forall k :: 0 <= k < |ids| ==> ids[k] in ids; }
    SortByKeeps(ids, ReadAt(s.readings));
    var due := SortBy(ids, ReadAt(s.readings));
    due[..Min(batch, |due|)]
  }

  function Tally(out: SweepOut, r: RateOutcome): SweepOut
  {
    match r
    case Missing => out.(busy := out.busy + 1)
    case RatedNow(_, _) => out.(rated := out.rated + 1)
    case Unrated(_) => out.(skipped := out.skipped + 1)
    case RatedBefore(_) => out
  }

  function RateAll(cfg: Config, s: State, cards: seq<Card>, ids: seq<nat>, out: SweepOut): (State, SweepOut)
    decreases |ids|
  {
    if ids == [] then (s, out)
    else
      match Rate(cfg, s, cards, ids[0])
      case Done(s', o) => RateAll(cfg, s', cards, ids[1..], Tally(out, o))
      case Fail(e) =>
        if e == EconomyFrozen then (s, out.(frozen := true))
        else RateAll(cfg, s, cards, ids[1..], out.(failed := out.failed + 1))
  }

  function RatingSweep(cfg: Config, s: State, cards: seq<Card>, batch: int): Step<SweepOut>
  {
    if s.frozen then Done(s, SweepOut(0, 0, 0, 0, true))
    else if !PositiveInt(batch, 5000) then Fail(InvalidAmount)
    else
      var (s', out) := RateAll(cfg, s, cards, Batch(s, batch), SweepOut(0, 0, 0, 0, false));
      Done(s', out)
  }

  method SweepReadings(cfg: Config, db: Db, cards: seq<Card>, batch: int) returns (r: Result<SweepOut, Error>)
    modifies db
    ensures db.Answers(old(db.View()), RatingSweep(cfg, old(db.View()), cards, batch), r)
  {
    hide Rate, Batch;
    if db.frozen { return Ok(SweepOut(0, 0, 0, 0, true)); }
    if !PositiveInt(batch, 5000) { return Err(InvalidAmount); }
    var ids := TakeBatch(db, batch);
    var out := SweepOut(0, 0, 0, 0, false);
    var k := 0;
    assert ids[0..] == ids;
    while k < |ids|
      invariant k <= |ids|
      invariant RateAll(cfg, old(db.View()), cards, ids, SweepOut(0, 0, 0, 0, false)) == RateAll(cfg, db.View(), cards, ids[k..], out)
    {
      assert ids[k..][0] == ids[k] && ids[k..][1..] == ids[k + 1..];
      var rated := RateReading(cfg, db, cards, ids[k]);
      if rated.Err? && rated.error == EconomyFrozen {
        return Ok(out.(frozen := true));
      }
      out := if rated.Ok? then Tally(out, rated.value) else out.(failed := out.failed + 1);
      k := k + 1;
    }
    r := Ok(out);
  }

  method TakeBatch(db: Db, batch: nat) returns (ids: seq<nat>)
    ensures ids == Batch(db.View(), batch)
  {
    var due := SortBy(DueWithin(db.readings, db.clock), ReadAt(db.readings));
    ids := due[..Min(batch, |due|)];
  }

  function DueWithin(rows: seq<Reading>, now: Millis): (r: seq<nat>)
    ensures r == DueIds(rows, now) && Within(r, |rows|)
  {
    var ids := DueIds(rows, now);
    assert forall k :: 0 <= k < |ids| ==> ids[k] in ids;
    ids
  }

  /**
   * A whole sweep keeps the checks and the budgets, and rates a reading at most once: one that
   * was rated before it is as it was, whatever else the sweep rates, refuses or fails on.
   */
  lemma {:induction false} RateAllKeeps(cfg: Config, s: State, cards: seq<Card>, ids: seq<nat>, out: SweepOut)
    requires Inv(cfg, s)
    ensures var s' := RateAll(cfg, s, cards, ids, out).0;
      && Inv(cfg, s') && WithinBudgets(s.budgets, s'.budgets)
      && |s'.readings| == |s.readings|
      && (forall k :: 0 <= k < |s.readings| && (s.readings[k].rated.Some? || k !in ids) ==> s'.readings[k] == s.readings[k])
    decreases |ids|
  {
    hide Inv, Rate, WithinBudgets;
    SameBudgets(s.budgets);
    if ids != [] {
      assert ids == [ids[0]] + ids[1..];
      var r := Rate(cfg, s, cards, ids[0]);
      if r.Done? {
        RateKeeps(cfg, s, cards, ids[0]);
        RateBudgets(cfg, s, cards, ids[0]);
        RateReadings(cfg, s, cards, ids[0]);
        RateAllKeeps(cfg, r.state, cards, ids[1..], Tally(out, r.value));
        BudgetsChain(s.budgets, r.state.budgets, RateAll(cfg, r.state, cards, ids[1..], Tally(out, r.value)).0.budgets);
      } else if r.error != EconomyFrozen {
        RateAllKeeps(cfg, s, cards, ids[1..], out.(failed := out.failed + 1));
      }
    }
  }

  lemma RateReadings(cfg: Config, s: State, cards: seq<Card>, id: nat)
    requires Rate(cfg, s, cards, id).Done?
    ensures var s' := Rate(cfg, s, cards, id).state;
      && |s'.readings| == |s.readings|
      && forall k :: 0 <= k < |s.readings| && (s.readings[k].rated.Some? || k != id) ==> s'.readings[k] == s.readings[k]
  {
    hide Rate;
    var s' := Rate(cfg, s, cards, id).state;
    forall k | 0 <= k < |s.readings| && (s.readings[k].rated.Some? || k != id) ensures |s'.readings| == |s.readings| && s'.readings[k] == s.readings[k] {
      RatedStays(cfg, s, cards, id, k);
    }
    RateKeepsLength(cfg, s, cards, id);
  }

  lemma RateKeepsLength(cfg: Config, s: State, cards: seq<Card>, id: nat)
    requires Rate(cfg, s, cards, id).Done?
    ensures |Rate(cfg, s, cards, id).state.readings| == |s.readings|
  {
    hide Consume, ChargeRest, ChargeFor;
  }
}
