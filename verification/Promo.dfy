/** server/ops/promo.js: the free allowance, its windows, and the soonest-ending-first draw. */
module Promo {
  import opened Basics
  import opened Schema
  import opened Journal
  import opened Rates
  import opened Common
  import opened Invariants
  import opened Store
  import opened Transfers

  const MAX_GRANT_BITS := 1000000000
  /** The service that stands for every service ('*'). */
  const ANY_SERVICE: nat := 0

  // ------------------------------------------------------------------ lapsing

  function LapseTxn(row: Allowance, i: nat, bits: int): Txn
  {
    Txn(Adjustment, PromoLapseKey(i), [Entry(PromoOf(row.subject), -bits), Entry(PROMO_RESERVE, bits)], None,
        Some(row.subject), None, None, None, None, PromoMeta(bits, row.service), 0)
  }

  predicate Ended(r: Allowance, p: Subject, now: Millis)
  {
    r.subject == p && r.end <= now && r.used + r.expired < r.granted
  }

  function WindowEnds(rows: seq<Allowance>): seq<int> { seq(|rows|, k requires 0 <= k < |rows| => rows[k].end) }

  function EndedIds(rows: seq<Allowance>, p: Subject, now: Millis): (r: seq<nat>)
    ensures forall i :: i in r <==> 0 <= i < |rows| && Ended(rows[i], p, now)
    ensures NoRepeat(r)
  {
    if rows == [] then []
    else
      var r := EndedIds(rows[..|rows| - 1], p, now);
      assert forall k :: 0 <= k < |r| ==> r[k] in r;
      assert forall i :: i in r <==> 0 <= i < |rows| - 1 && Ended(rows[i], p, now);
      if Ended(rows[|rows| - 1], p, now) then r + [|rows| - 1] else r
  }

  /** The ended windows that still hold something: the soonest-ended first, then the older row. */
  function EndedOrder(rows: seq<Allowance>, p: Subject, now: Millis): (r: seq<nat>)
    ensures forall i :: i in r <==> 0 <= i < |rows| && Ended(rows[i], p, now)
    ensures NoRepeat(r)
  {
    var ids := EndedIds(rows, p, now);
    assert Within(ids, |rows|) by { assert forall k :: 0 <= k < |ids| ==> ids[k] in ids; }
    SortByKeeps(ids, WindowEnds(rows));
    SortBy(ids, WindowEnds(rows))
  }

  /** One ended window: what it left is expired and returned to the reserve. */
  function LapseOne(s: State, i: nat): (r: Step<()>)
    requires i < |s.allowances|
    ensures r.Done? ==> |r.state.allowances| == |s.allowances|
  {
    var row := s.allowances[i];
    var left := Open(row);
    var s1 := s.(allowances := s.allowances[i := row.(expired := row.expired + left)]);
    var bits := Min(left, Max(0, Bal(s.ledger, PromoOf(row.subject))));
    if bits > 0 then
      match PostOn(s1, LapseTxn(row, i, bits))
      case Done(s2, _) => Done(s2, ())
      case Fail(e) => Fail(e)
    else Done(s1, ())
  }

  function LapseIds(s: State, ids: seq<nat>): (r: Step<()>)
    requires Within(ids, |s.allowances|)
    ensures r.Done? ==> |r.state.allowances| == |s.allowances|
    decreases |ids|
  {
    if ids == [] then Done(s, ())
    else
      match LapseOne(s, ids[0])
      case Fail(e) => Fail(e)
      case Done(s', _) => LapseIds(s', ids[1..])
  }

  /** lapse: return what the subject's ended windows left unused. */
  function LapseAll(s: State, p: Subject): (r: Step<()>)
    ensures r.Done? ==> |r.state.allowances| == |s.allowances|
  {
    var ids := EndedOrder(s.allowances, p, s.clock);
    assert forall k :: 0 <= k < |ids| ==> ids[k] in ids;
    LapseIds(s, ids)
  }

  /** The body of the loop; on a failure the caller rolls back. */
  method LapseRow(db: Db, i: nat) returns (r: Result<(), Error>)
    requires i < |db.allowances|
    modifies db`allowances, db`journal, db`balances
    ensures match LapseOne(old(db.View()), i)
      case Done(s, _) => r.Ok? && db.View() == s
      case Fail(e) => r == Err(e)
  {
    hide Post;
    var row := db.allowances[i];
    var left := Open(row);
    db.allowances := db.allowances[i := row.(expired := row.expired + left)];
    var bits := Min(left, Max(0, db.Balance(PromoOf(row.subject))));
    if bits > 0 {
      var posted := db.Post(LapseTxn(row, i, bits));
      if posted.Err? { return Err(posted.error); }
    }
    r := Ok(());
  }

  /** On a failure the caller's transaction is rolled back; only then may the state be a partial one. */
  method Lapse(db: Db, p: Subject) returns (r: Result<(), Error>)
    modifies db`allowances, db`journal, db`balances
    ensures match LapseAll(old(db.View()), p)
      case Done(s, _) => r.Ok? && db.View() == s
      case Fail(e) => r == Err(e)
  {
    hide Post, LapseOne, EndedOrder;
    var ended := EndedOrder(db.allowances, p, db.clock);
    assert Within(ended, |db.allowances|) by { assert forall k :: 0 <= k < |ended| ==> ended[k] in ended; }
    var k := 0;
    while k < |ended|
      invariant k <= |ended| && Within(ended, |db.allowances|)
      invariant LapseIds(db.View(), ended[k..]) == LapseIds(old(db.View()), ended)
    {
      assert ended[k..][0] == ended[k] && ended[k..][1..] == ended[k + 1..];
      var lapsed := LapseRow(db, ended[k]);
      if lapsed.Err? { return Err(lapsed.error); }
      k := k + 1;
    }
    r := Ok(());
  }

  // ------------------------------------------------------------------ granting

  datatype GrantArgs = GrantArgs(subject: Subject, service: nat, reset: ResetPeriod, bits: int, key: nat)

  /** The row of this subject, service, period and window start, if there is one. */
  function FindWindow(rows: seq<Allowance>, a: GrantArgs, start: Millis): (r: Option<nat>)
    ensures r.Some? ==> r.value < |rows|
    ensures r.Some? ==> rows[r.value].subject == a.subject && rows[r.value].service == a.service
    ensures r.Some? ==> rows[r.value].reset == a.reset && rows[r.value].start == start
  {
    if rows == [] then None
    else
      var r := FindWindow(rows[..|rows| - 1], a, start);
      var row := rows[|rows| - 1];
      if r.Some? then r
      else if row.subject == a.subject && row.service == a.service && row.reset == a.reset && row.start == start then Some(|rows| - 1)
      else None
  }

  function GrantTxn(a: GrantArgs): Txn
  {
    Txn(Adjustment, PromoGrantKey(a.key), [Entry(PROMO_RESERVE, -a.bits), Entry(PromoOf(a.subject), a.bits)], None,
        None, Some(a.subject), None, None, None, PromoMeta(a.bits, a.service), 0)
  }

  /** The upsert of the window open now. */
  function Topped(cfg: Config, s: State, a: GrantArgs): State
  {
    var w := cfg.windowOf(a.reset, s.clock);
    var found := FindWindow(s.allowances, a, w.start);
    if found.Some? then
      s.(allowances := s.allowances[found.value := s.allowances[found.value].(granted := s.allowances[found.value].granted + a.bits)])
    else s.(allowances := s.allowances + [Allowance(a.subject, a.service, a.reset, a.bits, 0, 0, w.start, w.end)])
  }

  function GrantedNow(cfg: Config, s: State, a: GrantArgs): int
  {
    var found := FindWindow(s.allowances, a, cfg.windowOf(a.reset, s.clock).start);
    if found.Some? then s.allowances[found.value].granted + a.bits else a.bits
  }

  function Grant(cfg: Config, s: State, a: GrantArgs): Step<Outcome>
  {
    if !PositiveInt(a.bits, MAX_GRANT_BITS) then Fail(InvalidAmount)
    else
      var existing := FindKey(s.ledger.journal, PromoGrantKey(a.key));
      if existing.Some? then Done(s, Outcome(existing.value, true))
      else
        match LapseAll(s, a.subject)
        case Fail(e) => Fail(e)
        case Done(s1, _) =>
          if GrantedNow(cfg, s1, a) > SAFE then Fail(AmountOverflow)
          else PostOn(Topped(cfg, s1, a), GrantTxn(a))
  }

  // ------------------------------------------------------------------ drawing

  datatype DrawArgs = DrawArgs(subject: Subject, service: nat, bits: int, reading: nat)
  datatype Draw = Draw(bits: int, txn: Option<nat>)

  predicate Eligible(r: Allowance, p: Subject, service: nat, now: Millis)
  {
    && r.subject == p && (r.service == service || r.service == ANY_SERVICE)
    && r.used + r.expired < r.granted && r.start <= now < r.end
  }

  function EligibleIds(rows: seq<Allowance>, p: Subject, service: nat, now: Millis): (r: seq<nat>)
    ensures forall i :: i in r <==> 0 <= i < |rows| && Eligible(rows[i], p, service, now)
    ensures NoRepeat(r)
  {
    if rows == [] then []
    else
      var r := EligibleIds(rows[..|rows| - 1], p, service, now);
      assert forall k :: 0 <= k < |r| ==> r[k] in r;
      assert forall i :: i in r <==> 0 <= i < |rows| - 1 && Eligible(rows[i], p, service, now);
      if Eligible(rows[|rows| - 1], p, service, now) then r + [|rows| - 1] else r
  }

  /** The rows a draw looks at: the soonest-ending window first, then the older row. */
  function DrawOrder(rows: seq<Allowance>, p: Subject, service: nat, now: Millis): (r: seq<nat>)
    ensures forall i :: i in r <==> 0 <= i < |rows| && Eligible(rows[i], p, service, now)
    ensures Within(r, |rows|) && NoRepeat(r) && Ascending(r, WindowEnds(rows))
  {
    var ids := EligibleIds(rows, p, service, now);
    assert Within(ids, |rows|) by { assert forall k :: 0 <= k < |ids| ==> ids[k] in ids; }
    SortByKeeps(ids, WindowEnds(rows));
    SortBy(ids, WindowEnds(rows))
  }

  /** Take from the ids in turn until nothing is left to take. */
  function Take(rows: seq<Allowance>, ids: seq<nat>, left: int): (r: seq<Allowance>)
    requires forall k :: 0 <= k < |ids| ==> ids[k] < |rows|
    ensures |r| == |rows|
    decreases |ids|
  {
    if ids == [] || left == 0 then rows
    else
      var row := rows[ids[0]];
      var take := Min(left, Open(row));
      Take(rows[ids[0] := row.(used := row.used + take)], ids[1..], left - take)
  }

  function Taken(rows: seq<Allowance>, ids: seq<nat>, left: int): int
    requires forall k :: 0 <= k < |ids| ==> ids[k] < |rows|
    decreases |ids|
  {
    if ids == [] || left == 0 then 0
    else
      var row := rows[ids[0]];
      var take := Min(left, Open(row));
      take + Taken(rows[ids[0] := row.(used := row.used + take)], ids[1..], left - take)
  }

  function DrawTxn(a: DrawArgs, used: int): Txn
  {
    Txn(Adjustment, PromoDrawKey(a.reading), [Entry(PromoOf(a.subject), -used), Entry(PROMO_RESERVE, used)], None,
        Some(a.subject), None, None, None, None, PromoMeta(used, a.service), 0)
  }

  function Consume(s: State, a: DrawArgs): Step<Draw>
  {
    if !PositiveInt(a.bits, 0) then Fail(InvalidAmount)
    else
      var existing := FindKey(s.ledger.journal, PromoDrawKey(a.reading));
      if existing.Some? then
        var was := s.ledger.journal[existing.value];
        if was.from != Some(a.subject) || !was.meta.PromoMeta? || was.meta.service != a.service then Fail(KeyReused)
        else Done(s, Draw(was.meta.promoBits, Some(existing.value)))
      else
        match LapseAll(s, a.subject)
        case Fail(e) => Fail(e)
        case Done(s1, _) =>
          var ids := DrawOrder(s1.allowances, a.subject, a.service, s1.clock);
          var left := Min(a.bits, Max(0, Bal(s1.ledger, PromoOf(a.subject))));
          var used := Taken(s1.allowances, ids, left);
          if used == 0 then Done(s1, Draw(0, None))
          else
            match PostOn(s1.(allowances := Take(s1.allowances, ids, left)), DrawTxn(a, used))
            case Fail(e) => Fail(e)
            case Done(s2, o) => Done(s2, Draw(used, Some(o.txn)))
  }

  /** As Lapse: on a failure the caller rolls back. */
  method ConsumeAllowance(db: Db, a: DrawArgs) returns (r: Result<Draw, Error>)
    modifies db`allowances, db`journal, db`balances
    ensures match Consume(old(db.View()), a)
      case Done(s, d) => r == Ok(d) && db.View() == s
      case Fail(e) => r == Err(e)
  {
    hide Post, LapseAll;
    if !PositiveInt(a.bits, 0) { return Err(InvalidAmount); }
    var existing := FindKey(db.journal, PromoDrawKey(a.reading));
    if existing.Some? {
      var was := db.journal[existing.value];
      if was.from != Some(a.subject) || !was.meta.PromoMeta? || was.meta.service != a.service { return Err(KeyReused); }
      return Ok(Draw(was.meta.promoBits, Some(existing.value)));
    }
    var lapsed := Lapse(db, a.subject);
    if lapsed.Err? { return Err(lapsed.error); }
    var left := Min(a.bits, Max(0, db.Balance(PromoOf(a.subject))));
    var ids := DrawOrder(db.allowances, a.subject, a.service, db.clock);
    var used := DrawDown(db, ids, left);
    if used == 0 {
      return Ok(Draw(0, None));
    }
    var posted := db.Post(DrawTxn(a, used));
    if posted.Err? { return Err(posted.error); }
    r := Ok(Draw(used, Some(posted.value.txn)));
  }

  /** The loop over the eligible rows. */
  method DrawDown(db: Db, ids: seq<nat>, wanted: int) returns (used: int)
    requires forall k :: 0 <= k < |ids| ==> ids[k] < |db.allowances|
    modifies db`allowances
    ensures used == Taken(old(db.allowances), ids, wanted)
    ensures used != 0 ==> db.allowances == Take(old(db.allowances), ids, wanted)
    ensures used == 0 ==> db.allowances == old(db.allowances)
  {
    var left := wanted;
    var k := 0;
    used := 0;
    var before := db.allowances;
    while k < |ids| && left != 0
      invariant k <= |ids| && |db.allowances| == |before|
      invariant Take(db.allowances, ids[k..], left) == Take(before, ids, wanted)
      invariant used + Taken(db.allowances, ids[k..], left) == Taken(before, ids, wanted)
    {
      var row := db.allowances[ids[k]];
      var take := Min(left, Open(row));
      assert ids[k..][0] == ids[k] && ids[k..][1..] == ids[k + 1..];
      db.allowances := db.allowances[ids[k] := row.(used := row.used + take)];
      used := used + take;
      left := left - take;
      k := k + 1;
    }
    if used == 0 {
      db.allowances := before;
    }
  }

  /** grant inside its transaction; on a failure the caller rolls back. */
  method GrantWithin(cfg: Config, db: Db, a: GrantArgs) returns (r: Result<Outcome, Error>)
    modifies db`allowances, db`journal, db`balances
    ensures match Grant(cfg, old(db.View()), a)
      case Done(s, o) => r == Ok(o) && db.View() == s
      case Fail(e) => r == Err(e)
  {
    hide Post, LapseAll, FindWindow, GrantTxn, FindKey;
    if !PositiveInt(a.bits, MAX_GRANT_BITS) { return Err(InvalidAmount); }
    var existing := FindKey(db.journal, PromoGrantKey(a.key));
    if existing.Some? { return Ok(Outcome(existing.value, true)); }
    var lapsed := Lapse(db, a.subject);
    if lapsed.Err? { return Err(lapsed.error); }
    var w := cfg.windowOf(a.reset, db.clock);
    var found := FindWindow(db.allowances, a, w.start);
    var granted := if found.Some? then db.allowances[found.value].granted + a.bits else a.bits;
    if granted > SAFE { return Err(AmountOverflow); }
    if found.Some? {
      db.allowances := db.allowances[found.value := db.allowances[found.value].(granted := granted)];
    } else {
      db.allowances := db.allowances + [Allowance(a.subject, a.service, a.reset, a.bits, 0, 0, w.start, w.end)];
    }
    r := db.Post(GrantTxn(a));
  }

  method GrantAllowance(cfg: Config, db: Db, a: GrantArgs) returns (r: Result<Outcome, Error>)
    modifies db`allowances, db`journal, db`balances
    ensures db.Answers(old(db.View()), Grant(cfg, old(db.View()), a), r)
  {
    hide Grant;
    var allowances, journal, balances := db.allowances, db.journal, db.balances;
    r := GrantWithin(cfg, db, a);
    if r.Err? {
      db.allowances, db.journal, db.balances := allowances, journal, balances;
    }
  }

  // ------------------------------------------------------------------ reading what is left

  /** A window the draw may use, and, when a deadline is given, one that ends by then. */
  predicate Counted(r: Allowance, p: Subject, service: nat, now: Millis, due: Option<Millis>)
  {
    && r.subject == p && (r.service == service || r.service == ANY_SERVICE)
    && r.start <= now < r.end && (due.Some? ==> r.end <= due.value)
  }

  /** What is left unspent in those windows. */
  function OpenBy(rows: seq<Allowance>, p: Subject, service: nat, now: Millis, due: Option<Millis>): int
  {
    if rows == [] then 0
    else
      OpenBy(rows[..|rows| - 1], p, service, now, due)
      + (if Counted(rows[|rows| - 1], p, service, now, due) then Open(rows[|rows| - 1]) else 0)
  }

  /** remaining: what the subject may spend on the service now. */
  function Remaining(s: State, p: Subject, service: nat): int
  {
    Max(0, Min(OpenBy(s.allowances, p, service, s.clock, None), Bal(s.ledger, PromoOf(p))))
  }

  /** Lapsing closes every ended window of the person: nothing of it is left, and only an ended window is closed. */
  lemma LapseCloses(s: State, p: Subject, i: nat)
    requires LapseAll(s, p).Done? && i < |s.allowances|
    ensures var row, row' := s.allowances[i], LapseAll(s, p).state.allowances[i];
      row' == if row.subject == p && row.end <= s.clock && row.used + row.expired < row.granted then row.(expired := row.granted - row.used) else row
  {
    hide EndedOrder;
    var ids := EndedOrder(s.allowances, p, s.clock);
    assert forall k :: 0 <= k < |ids| ==> ids[k] in ids;
    LapseIdsClose(s, ids, i);
  }

  lemma {:induction false} LapseIdsClose(s: State, ids: seq<nat>, i: nat)
    requires Within(ids, |s.allowances|) && NoRepeat(ids) && LapseIds(s, ids).Done? && i < |s.allowances|
    ensures LapseIds(s, ids).state.allowances[i] ==
      if i in ids then s.allowances[i].(expired := s.allowances[i].granted - s.allowances[i].used) else s.allowances[i]
    decreases |ids|
  {
    hide Post;
    if ids != [] {
      assert ids == [ids[0]] + ids[1..];
      assert ids[0] !in ids[1..];
      LapseIdsClose(LapseOne(s, ids[0]).state, ids[1..], i);
    }
  }

  // ------------------------------------------------------------------ sums over the rows

  ghost predicate RowsOk(rows: seq<Allowance>) { forall i :: 0 <= i < |rows| ==> Open(rows[i]) >= 0 }

  lemma {:induction false} RowReplaced(rows: seq<Allowance>, i: nat, r: Allowance)
    requires i < |rows| && r.subject == rows[i].subject
    ensures OpenAll(rows[i := r]) == OpenAll(rows) + Open(r) - Open(rows[i])
    ensures forall p: Subject :: OpenOf(rows[i := r], p) == OpenOf(rows, p) + (if r.subject == p then Open(r) - Open(rows[i]) else 0)
  {
    var n := |rows| - 1;
    if i == n {
      assert rows[i := r][..n] == rows[..n];
    } else {
      assert rows[i := r][..n] == rows[..n][i := r];
      RowReplaced(rows[..n], i, r);
    }
  }

  lemma {:induction false} OpenByReplaced(rows: seq<Allowance>, i: nat, r: Allowance, p: Subject, service: nat, now: Millis, due: Option<Millis>)
    requires i < |rows|
    requires r == rows[i].(used := r.used, expired := r.expired)
    ensures OpenBy(rows[i := r], p, service, now, due)
      == OpenBy(rows, p, service, now, due) + (if Counted(r, p, service, now, due) then Open(r) - Open(rows[i]) else 0)
  {
    var n := |rows| - 1;
    if i == n {
      assert rows[i := r][..n] == rows[..n];
    } else {
      assert rows[i := r][..n] == rows[..n][i := r];
      OpenByReplaced(rows[..n], i, r, p, service, now, due);
    }
  }

  lemma {:induction false} OpenBounds(rows: seq<Allowance>, p: Subject, service: nat, now: Millis, due: Option<Millis>)
    requires RowsOk(rows)
    ensures 0 <= OpenBy(rows, p, service, now, due) <= OpenOf(rows, p)
    ensures OpenBy(rows, p, service, now, due) <= OpenBy(rows, p, service, now, None)
  {
    if rows != [] { OpenBounds(rows[..|rows| - 1], p, service, now, due); }
  }

  lemma {:induction false} RowBelow(rows: seq<Allowance>, i: nat, p: Subject, service: nat, now: Millis, due: Option<Millis>)
    requires RowsOk(rows) && i < |rows| && rows[i].subject == p
    ensures Open(rows[i]) <= OpenOf(rows, p)
    ensures Counted(rows[i], p, service, now, due) ==> Open(rows[i]) <= OpenBy(rows, p, service, now, due)
  {
    var n := |rows| - 1;
    OpenBounds(rows[..n], p, service, now, due);
    if i < n { RowBelow(rows[..n], i, p, service, now, due); }
  }

  lemma {:induction false} NothingOpen(rows: seq<Allowance>, p: Subject, service: nat, now: Millis, due: Option<Millis>)
    requires forall i :: 0 <= i < |rows| && Counted(rows[i], p, service, now, due) ==> Open(rows[i]) == 0
    ensures OpenBy(rows, p, service, now, due) == 0
  {
    if rows != [] { NothingOpen(rows[..|rows| - 1], p, service, now, due); }
  }

  // ------------------------------------------------------------------ the draw

  /** `after` spends some of what was open in the windows a draw may use, and changes nothing else. */
  ghost predicate IsDraw(rows: seq<Allowance>, after: seq<Allowance>, p: Subject, service: nat, now: Millis)
  {
    && |after| == |rows|
    && forall i :: 0 <= i < |rows| ==>
      && after[i] == rows[i].(used := after[i].used)
      && rows[i].used <= after[i].used <= rows[i].granted - rows[i].expired
      && (after[i].used != rows[i].used ==> Counted(rows[i], p, service, now, None))
  }

  /** One step of the loop. */
  function Spend(rows: seq<Allowance>, i: nat, left: int): (r: seq<Allowance>)
    requires i < |rows|
    ensures |r| == |rows|
  {
    rows[i := rows[i].(used := rows[i].used + Min(left, Open(rows[i])))]
  }

  lemma TakeUnfold(rows: seq<Allowance>, ids: seq<nat>, left: int)
    requires Within(ids, |rows|) && ids != [] && left != 0
    ensures var rest := left - Min(left, Open(rows[ids[0]]));
      && Take(rows, ids, left) == Take(Spend(rows, ids[0], left), ids[1..], rest)
      && Taken(rows, ids, left) == left - rest + Taken(Spend(rows, ids[0], left), ids[1..], rest)
  {
  }

  lemma SpendStep(rows: seq<Allowance>, i: nat, left: int, p: Subject, service: nat, now: Millis, due: Option<Millis>)
    requires RowsOk(rows) && i < |rows| && left >= 0 && Counted(rows[i], p, service, now, None)
    ensures var r := Spend(rows, i, left); var n := Min(left, Open(rows[i]));
      && RowsOk(r) && n >= 0
      && OpenAll(r) == OpenAll(rows) - n
      && (forall q: Subject :: OpenOf(r, q) == OpenOf(rows, q) - (if q == p then n else 0))
      && OpenBy(r, p, service, now, due) == OpenBy(rows, p, service, now, due) - (if Counted(rows[i], p, service, now, due) then n else 0)
      && forall k :: 0 <= k < |rows| ==>
           Counted(r[k], p, service, now, due) == Counted(rows[k], p, service, now, due) && r[k].end == rows[k].end
  {
    var row' := Spend(rows, i, left)[i];
    RowReplaced(rows, i, row');
    OpenByReplaced(rows, i, row', p, service, now, due);
  }

  lemma {:induction false} TakeIsDraw(rows: seq<Allowance>, ids: seq<nat>, left: int, p: Subject, service: nat, now: Millis)
    requires RowsOk(rows) && Within(ids, |rows|) && left >= 0
    requires forall k :: 0 <= k < |ids| ==> Counted(rows[ids[k]], p, service, now, None)
    ensures RowsOk(Take(rows, ids, left)) && IsDraw(rows, Take(rows, ids, left), p, service, now)
    ensures 0 <= Taken(rows, ids, left) <= left
    decreases |ids|
  {
    if ids != [] && left != 0 {
      TakeUnfold(rows, ids, left);
      TakeIsDraw(Spend(rows, ids[0], left), ids[1..], left - Min(left, Open(rows[ids[0]])), p, service, now);
    }
  }

  /** A draw takes what it reports, from the windows it may use. */
  lemma {:induction false} TakeMoves(rows: seq<Allowance>, ids: seq<nat>, left: int, p: Subject, service: nat, now: Millis)
    requires RowsOk(rows) && Within(ids, |rows|) && left >= 0
    requires forall k :: 0 <= k < |ids| ==> Counted(rows[ids[k]], p, service, now, None)
    ensures OpenAll(Take(rows, ids, left)) == OpenAll(rows) - Taken(rows, ids, left)
    ensures forall q: Subject :: OpenOf(Take(rows, ids, left), q) == OpenOf(rows, q) - (if q == p then Taken(rows, ids, left) else 0)
    ensures OpenBy(Take(rows, ids, left), p, service, now, None) == OpenBy(rows, p, service, now, None) - Taken(rows, ids, left)
    decreases |ids|
  {
    hide OpenBy, OpenOf, OpenAll;
    if ids != [] && left != 0 {
      TakeUnfold(rows, ids, left);
      SpendStep(rows, ids[0], left, p, service, now, None);
      hide Counted, Take, Taken, Spend;
      TakeMoves(Spend(rows, ids[0], left), ids[1..], left - Min(left, Open(rows[ids[0]])), p, service, now);
    }
  }

  /** The rows a list of ids must name for nothing to be missed. */
  ghost predicate Covers(rows: seq<Allowance>, ids: seq<nat>, p: Subject, service: nat, now: Millis, due: Option<Millis>)
  {
    forall i: nat :: i < |rows| && Counted(rows[i], p, service, now, due) && Open(rows[i]) > 0 ==> i in ids
  }

  /** Soonest-ending first: of the windows ending by any deadline, all that can be spent is. */
  lemma {:induction false} GreedyLeaves(
      rows: seq<Allowance>, keys: seq<int>, ids: seq<nat>, left: int, p: Subject, service: nat, now: Millis, due: Option<Millis>)
    requires RowsOk(rows) && |keys| == |rows| && Within(ids, |rows|) && left >= 0
    requires forall k :: 0 <= k < |rows| ==> keys[k] == rows[k].end
    requires Ascending(ids, keys) && NoRepeat(ids)
    requires forall k :: 0 <= k < |ids| ==> Counted(rows[ids[k]], p, service, now, None)
    requires Covers(rows, ids, p, service, now, due)
    ensures OpenBy(Take(rows, ids, left), p, service, now, due) == Max(0, OpenBy(rows, p, service, now, due) - left)
    decreases |ids|
  {
    hide OpenBy, Take, Covers, Ascending, NoRepeat, Spend;
    OpenBounds(rows, p, service, now, due);
    if ids == [] {
      assert forall i :: 0 <= i < |rows| && Counted(rows[i], p, service, now, due) ==> Open(rows[i]) == 0 by { NoneLeftOut(rows, p, service, now, due); }
      NothingOpen(rows, p, service, now, due);
      TakeNothing(rows, ids, left);
    } else if left == 0 {
      TakeNothing(rows, ids, left);
    } else {
      var rest := left - Min(left, Open(rows[ids[0]]));
      var rows' := Spend(rows, ids[0], left);
      TakeUnfold(rows, ids, left);
      SpendStep(rows, ids[0], left, p, service, now, due);
      SpendStep(rows, ids[0], left, p, service, now, None);
      if Counted(rows[ids[0]], p, service, now, due) {
        RowBelow(rows, ids[0], p, service, now, due);
      } else {
        LaterEnds(rows, keys, ids, p, service, now, due);
      }
      if rest == 0 {
        TakeNothing(rows', ids[1..], rest);
      } else {
        StillCovers(rows, ids, left, p, service, now, due);
        TailKeeps(ids, keys);
        GreedyLeaves(rows', keys, ids[1..], rest, p, service, now, due);
      }
    }
  }

  /** With no ids to cover them, no counted row holds anything. */
  lemma NoneLeftOut(rows: seq<Allowance>, p: Subject, service: nat, now: Millis, due: Option<Millis>)
    requires RowsOk(rows) && Covers(rows, [], p, service, now, due)
    ensures forall i :: 0 <= i < |rows| && Counted(rows[i], p, service, now, due) ==> Open(rows[i]) == 0
  {
  }

  lemma TakeNothing(rows: seq<Allowance>, ids: seq<nat>, left: int)
    requires Within(ids, |rows|) && (ids == [] || left == 0)
    ensures Take(rows, ids, left) == rows
  {
  }

  lemma StillCovers(rows: seq<Allowance>, ids: seq<nat>, left: int, p: Subject, service: nat, now: Millis, due: Option<Millis>)
    requires Within(ids, |rows|) && ids != [] && Covers(rows, ids, p, service, now, due) && Open(rows[ids[0]]) < left
    ensures Covers(Spend(rows, ids[0], left), ids[1..], p, service, now, due)
  {
    var rows' := Spend(rows, ids[0], left);
    assert ids == [ids[0]] + ids[1..];
    forall i: nat | i < |rows'| && Counted(rows'[i], p, service, now, due) && Open(rows'[i]) > 0 ensures i in ids[1..] {
      assert i != ids[0] && i in ids;
    }
  }

  /** When the soonest window ends too late, nothing is open by the deadline. */
  lemma LaterEnds(rows: seq<Allowance>, keys: seq<int>, ids: seq<nat>, p: Subject, service: nat, now: Millis, due: Option<Millis>)
    requires RowsOk(rows) && |keys| == |rows| && Within(ids, |rows|) && ids != []
    requires forall k :: 0 <= k < |rows| ==> keys[k] == rows[k].end
    requires Ascending(ids, keys)
    requires Counted(rows[ids[0]], p, service, now, None) && !Counted(rows[ids[0]], p, service, now, due)
    requires Covers(rows, ids, p, service, now, due)
    ensures OpenBy(rows, p, service, now, due) == 0
  {
    forall i | 0 <= i < |rows| && Counted(rows[i], p, service, now, due) ensures Open(rows[i]) == 0 {
      assert i !in ids by { NotLater(keys, ids, i); }
    }
    NothingOpen(rows, p, service, now, due);
  }

  lemma NotLater(keys: seq<int>, ids: seq<nat>, i: nat)
    requires Within(ids, |keys|) && Ascending(ids, keys) && ids != [] && i < |keys| && keys[i] < keys[ids[0]]
    ensures i !in ids
  {
    forall k | 0 <= k < |ids| ensures ids[k] != i {
      assert keys[ids[0]] <= keys[ids[k]];
    }
  }

  /** Any draw leaves at least what was there less what it took in all. */
  lemma {:induction false} DrawLeaves(
      rows: seq<Allowance>, after: seq<Allowance>, p: Subject, service: nat, now: Millis, due: Option<Millis>)
    requires IsDraw(rows, after, p, service, now)
    ensures OpenBy(rows, p, service, now, due) - OpenBy(after, p, service, now, due)
      <= OpenBy(rows, p, service, now, None) - OpenBy(after, p, service, now, None)
    ensures OpenBy(after, p, service, now, due) >= 0
  {
    if rows != [] {
      var n := |rows| - 1;
      assert after[n] == rows[n].(used := after[n].used);
      DrawLeaves(rows[..n], after[..n], p, service, now, due);
    }
  }

  /** From the eligible windows the draw takes all it is asked for, or all there is, by every deadline. */
  lemma DrawTakes(rows: seq<Allowance>, left: int, p: Subject, service: nat, now: Millis, due: Option<Millis>)
    requires RowsOk(rows) && left >= 0
    ensures var ids := DrawOrder(rows, p, service, now);
      && Taken(rows, ids, left) == Min(left, OpenBy(rows, p, service, now, None))
      && OpenBy(Take(rows, ids, left), p, service, now, due) == Max(0, OpenBy(rows, p, service, now, due) - left)
      && IsDraw(rows, Take(rows, ids, left), p, service, now)
  {
    hide OpenBy, Take, Taken, DrawOrder;
    var ids := DrawOrder(rows, p, service, now);
    assert forall k :: 0 <= k < |ids| ==> ids[k] in ids;
    TakeIsDraw(rows, ids, left, p, service, now);
    TakeMoves(rows, ids, left, p, service, now);
    GreedyLeaves(rows, WindowEnds(rows), ids, left, p, service, now, None);
    GreedyLeaves(rows, WindowEnds(rows), ids, left, p, service, now, due);
    OpenBounds(rows, p, service, now, None);
  }

  /**
   * Deadline-optimal: for every deadline, the draw leaves no more unspent in the windows ending
   * by then than any other draw of the same size.
   */
  lemma DrawIsOptimal(rows: seq<Allowance>, left: int, other: seq<Allowance>, p: Subject, service: nat, now: Millis, deadline: Millis)
    requires RowsOk(rows) && left >= 0 && IsDraw(rows, other, p, service, now)
    requires OpenBy(rows, p, service, now, None) - OpenBy(other, p, service, now, None)
      == Taken(rows, DrawOrder(rows, p, service, now), left)
    ensures OpenBy(Take(rows, DrawOrder(rows, p, service, now), left), p, service, now, Some(deadline))
      <= OpenBy(other, p, service, now, Some(deadline))
  {
    hide OpenBy, Take, Taken, DrawOrder, IsDraw;
    DrawTakes(rows, left, p, service, now, Some(deadline));
    DrawLeaves(rows, other, p, service, now, Some(deadline));
    OpenBounds(rows, p, service, now, Some(deadline));
  }

  // ------------------------------------------------------------------ lapsing keeps the books

  /** What lapsing may have changed: ended windows of this person are closed, and only promo balances moved. */
  ghost predicate LapsedTo(s: State, s': State, p: Subject)
  {
    && s' == s.(ledger := s'.ledger, allowances := s'.allowances)
    && |s'.allowances| == |s.allowances|
    && (forall i :: 0 <= i < |s.allowances| ==>
          s'.allowances[i] == s.allowances[i]
          || (s'.allowances[i] == s.allowances[i].(expired := s.allowances[i].granted - s.allowances[i].used)
              && Ended(s.allowances[i], p, s.clock)))
    && (forall a: Account :: !IsPromo(a.kind) ==> Bal(s'.ledger, a) == Bal(s.ledger, a))
    && PromoGrowth(s.ledger.journal, s'.ledger.journal)
  }

  /** Only lapse transactions, with no source event, were added. */
  ghost predicate PromoGrowth(j: seq<Txn>, j': seq<Txn>)
  {
    && j <= j'
    && forall i :: |j| <= i < |j'| ==> j'[i].key.PromoLapseKey? && j'[i].source.None? && j'[i].meta.PromoMeta?
  }

  lemma PromoPairShape(cfg: Config, t: Txn, x: Account, y: Account, n: int)
    requires t.entries == [Entry(x, -n), Entry(y, n)] && x != y && IsPromo(x.kind) && IsPromo(y.kind)
    requires t.ty == Adjustment && t.meta.PromoMeta? && t.source.None? && !t.key.Delivered? && t.receipt.None? && t.bitsPerUsd == 0
    ensures Shape(cfg, t)
    ensures forall a :: Delta(t.entries, a) == if a == x then -n else if a == y then n else 0
    ensures !Touches(t, PayoutsPending) && !Touches(t, ProjectPayable)
  {
    Sums2(Entry(x, -n), Entry(y, n));
    ZeroShare(100, 0, 100);
  }

  /** A promo posting beside rows that keep step with it. */
  lemma PromoPosted(cfg: Config, s: State, t: Txn, rows: seq<Allowance>)
    requires Inv(cfg, s) && Post(s.ledger, t).Posted? && Shape(cfg, t)
    requires !IsReversal(t) && t.reverses.None? && !t.meta.GiftMeta?
    requires !Touches(t, PayoutsPending) && !Touches(t, ProjectPayable)
    requires !t.key.Renewal? && !t.key.ChargePaidKey? && !t.key.ChargeRefundKey? && !t.key.SettleKey?
    requires forall a: Account :: !IsPromo(a.kind) ==> Delta(t.entries, a) == 0
    requires PromoOk(cfg, s.(ledger := Post(s.ledger, t).ledger, allowances := rows))
    ensures var s' := s.(ledger := Post(s.ledger, t).ledger, allowances := rows);
      InvBesideRating(cfg, s') && (RatedKey(s, t.key) ==> Inv(cfg, s'))
  {
    hide JournalOk, NonNegative, PayoutsOk, PeriodsCharged, RenewalsOk, PromoOk, RatingOk, TotalsOk, VibesOk, HoldRowsOk, IntentsOk, Shape, Touches, SubsOk, Post, RatedKey;
    PostKeeps(cfg, s, t);
    PromoFunds(cfg, s.ledger, t);
    var posted := s.(ledger := Post(s.ledger, t).ledger);
    Frame(cfg, posted, posted.(allowances := rows));
  }

  lemma PromoFunds(cfg: Config, l: Ledger, t: Txn)
    requires JournalOk(cfg, l) && NonNegative(l) && Post(l, t).Posted?
    requires forall a: Account :: !IsPromo(a.kind) ==> Delta(t.entries, a) == 0
    ensures NonNegative(Post(l, t).ledger)
  {
    hide Shape;
    FundsKept(l, t);
  }

  /** Rows of one subject that lose or gain exactly what the posting moves. */
  lemma PromoInStep(cfg: Config, s: State, t: Txn, rows: seq<Allowance>, p: Subject, n: int)
    requires Books(s.ledger) && PromoOk(cfg, s) && Post(s.ledger, t).Posted?
    requires forall a :: Delta(t.entries, a) == if a == PromoOf(p) then n else if a == PROMO_RESERVE then -n else 0
    requires (forall i :: 0 <= i < |rows| ==> AllowanceOk(cfg, rows[i])) && |rows| >= |s.allowances|
    requires OpenAll(rows) == OpenAll(s.allowances) + n
    requires forall q: Subject :: OpenOf(rows, q) == OpenOf(s.allowances, q) + (if q == p then n else 0)
    requires forall i :: 0 <= i < |s.allowances| && s.allowances[i].end <= s.clock && Open(s.allowances[i]) == 0 ==>
      rows[i].end <= s.clock && Open(rows[i]) == 0
    requires t.key.PromoLapseKey? ==>
      t.key.allowance < |rows| && rows[t.key.allowance].end <= s.clock && Open(rows[t.key.allowance]) == 0
    ensures PromoOk(cfg, s.(ledger := Post(s.ledger, t).ledger, allowances := rows))
  {
    hide Shape, Post, AllowanceOk, OpenAll, OpenOf, Books, HasKey, Delta, Bal;
    BalancesMove(s.ledger, t);
    LapsedKeysKept(s, t, rows);
  }

  /** A lapse key still names an ended and emptied row. */
  lemma LapsedKeysKept(s: State, t: Txn, rows: seq<Allowance>)
    requires Books(s.ledger) && Post(s.ledger, t).Posted? && |rows| >= |s.allowances|
    requires forall i: nat :: HasKey(s.ledger.journal, PromoLapseKey(i)) ==>
      i < |s.allowances| && s.allowances[i].end <= s.clock && Open(s.allowances[i]) == 0
    requires forall i :: 0 <= i < |s.allowances| && s.allowances[i].end <= s.clock && Open(s.allowances[i]) == 0 ==>
      rows[i].end <= s.clock && Open(rows[i]) == 0
    requires t.key.PromoLapseKey? ==>
      t.key.allowance < |rows| && rows[t.key.allowance].end <= s.clock && Open(rows[t.key.allowance]) == 0
    ensures forall i: nat :: HasKey(Post(s.ledger, t).ledger.journal, PromoLapseKey(i)) ==>
      i < |rows| && rows[i].end <= s.clock && Open(rows[i]) == 0
  {
    hide Post, Books, HasKey, Open;
    var stored := Appended(s.ledger, t);
    HasKeyAppend(s.ledger.journal, stored);
  }

  lemma LapseIsFresh(cfg: Config, s: State, i: nat, p: Subject)
    requires PromoOk(cfg, s) && i < |s.allowances| && Ended(s.allowances[i], p, s.clock)
    ensures FindKey(s.ledger.journal, PromoLapseKey(i)).None?
    ensures 0 < Open(s.allowances[i]) <= Bal(s.ledger, PromoOf(p))
  {
    RowBelow(s.allowances, i, p, 0, 0, None);
    if FindKey(s.ledger.journal, PromoLapseKey(i)).Some? { assert HasKey(s.ledger.journal, PromoLapseKey(i)); }
  }

  /** With the rows in step with the journal, what is booked is all that was left. */
  lemma LapsePosts(cfg: Config, s: State, i: nat, p: Subject)
    requires PromoOk(cfg, s) && i < |s.allowances| && Ended(s.allowances[i], p, s.clock)
    requires LapseOne(s, i).Done?
    ensures var t := LapseTxn(s.allowances[i], i, Open(s.allowances[i]));
      && Post(s.ledger, t).Posted?
      && LapseOne(s, i).state == s.(ledger := Post(s.ledger, t).ledger, allowances := LapsedRows(s.allowances, i))
  {
    hide Post, PromoOk;
    LapseIsFresh(cfg, s, i, p);
    FreshPosts(s.ledger, LapseTxn(s.allowances[i], i, Open(s.allowances[i])));
  }

  function LapsedRows(rows: seq<Allowance>, i: nat): seq<Allowance>
    requires i < |rows|
  {
    rows[i := rows[i].(expired := rows[i].expired + Open(rows[i]))]
  }

  lemma LapseOneKeeps(cfg: Config, s: State, i: nat, p: Subject)
    requires Inv(cfg, s) && i < |s.allowances| && Ended(s.allowances[i], p, s.clock)
    requires LapseOne(s, i).Done?
    ensures Inv(cfg, LapseOne(s, i).state) && LapsedTo(s, LapseOne(s, i).state, p)
  {
    hide LapseOne, Post, PromoOk, Shape, Touches, PromoGrowth, JournalOk, NonNegative, PayoutsOk, PeriodsCharged, RenewalsOk, RatingOk, TotalsOk, VibesOk, HoldRowsOk, SubsOk;
    LapsePosts(cfg, s, i, p);
    var row := s.allowances[i];
    var t := LapseTxn(row, i, Open(row));
    PromoPairShape(cfg, t, PromoOf(p), PROMO_RESERVE, Open(row));
    BooksOf(cfg, s.ledger);
    LapseInStep(cfg, s, i, p, t, LapsedRows(s.allowances, i));
    PromoPosted(cfg, s, t, LapsedRows(s.allowances, i));
    LapseMoves(cfg, s, i, p, t);
  }

  lemma LapseInStep(cfg: Config, s: State, i: nat, p: Subject, t: Txn, rows: seq<Allowance>)
    requires Books(s.ledger) && PromoOk(cfg, s)
    requires i < |s.allowances| && Ended(s.allowances[i], p, s.clock)
    requires t == LapseTxn(s.allowances[i], i, Open(s.allowances[i])) && Post(s.ledger, t).Posted?
    requires rows == LapsedRows(s.allowances, i)
    ensures PromoOk(cfg, s.(ledger := Post(s.ledger, t).ledger, allowances := rows))
  {
    hide Shape, Post, Books, OpenOf, OpenAll;
    Sums2(Entry(PromoOf(p), -Open(s.allowances[i])), Entry(PROMO_RESERVE, Open(s.allowances[i])));
    RowReplaced(s.allowances, i, rows[i]);
    PromoInStep(cfg, s, t, rows, p, -Open(s.allowances[i]));
  }

  lemma LapseMoves(cfg: Config, s: State, i: nat, p: Subject, t: Txn)
    requires JournalOk(cfg, s.ledger)
    requires i < |s.allowances| && s.allowances[i].subject == p
    requires t == LapseTxn(s.allowances[i], i, Open(s.allowances[i])) && Post(s.ledger, t).Posted?
    ensures forall a: Account :: !IsPromo(a.kind) ==> Bal(Post(s.ledger, t).ledger, a) == Bal(s.ledger, a)
    ensures PromoGrowth(s.ledger.journal, Post(s.ledger, t).ledger.journal)
  {
    hide Shape, Post;
    Sums2(Entry(PromoOf(p), -Open(s.allowances[i])), Entry(PROMO_RESERVE, Open(s.allowances[i])));
    var stored := Appended(s.ledger, t);
    PostEffect(s.ledger, t);
  }

  lemma {:induction false} LapseIdsKeep(cfg: Config, s: State, ids: seq<nat>, p: Subject)
    requires Inv(cfg, s) && Within(ids, |s.allowances|) && NoRepeat(ids)
    requires forall k :: 0 <= k < |ids| ==> Ended(s.allowances[ids[k]], p, s.clock)
    requires LapseIds(s, ids).Done?
    ensures Inv(cfg, LapseIds(s, ids).state) && LapsedTo(s, LapseIds(s, ids).state, p)
    decreases |ids|
  {
    hide Inv, LapseOne;
    if ids != [] {
      LapseOneKeeps(cfg, s, ids[0], p);
      LapseOneElsewhere(s, ids[0]);
      var s' := LapseOne(s, ids[0]).state;
      LapseIdsKeep(cfg, s', ids[1..], p);
    }
  }

  lemma LapseOneElsewhere(s: State, i: nat)
    requires i < |s.allowances| && LapseOne(s, i).Done?
    ensures var s' := LapseOne(s, i).state;
      s'.clock == s.clock && forall k :: 0 <= k < |s.allowances| && k != i ==> s'.allowances[k] == s.allowances[k]
  {
    hide Post;
  }

  /** Lapsing keeps every check, whatever was left in however many windows. */
  lemma LapseKeeps(cfg: Config, s: State, p: Subject)
    requires Inv(cfg, s) && LapseAll(s, p).Done?
    ensures Inv(cfg, LapseAll(s, p).state) && LapsedTo(s, LapseAll(s, p).state, p)
  {
    hide Inv, LapseIds;
    var ids := EndedOrder(s.allowances, p, s.clock);
    assert forall k :: 0 <= k < |ids| ==> ids[k] in ids;
    LapseIdsKeep(cfg, s, ids, p);
  }

  /** What may still be spent does not depend on whether ended windows were lapsed. */
  lemma {:induction false} LapseHidesNothing(rows: seq<Allowance>, rows': seq<Allowance>, p: Subject, service: nat, now: Millis)
    requires |rows| == |rows'|
    requires forall i :: 0 <= i < |rows| ==> rows'[i] == rows[i] || (rows'[i] == rows[i].(expired := rows'[i].expired) && rows[i].end <= now)
    ensures OpenBy(rows', p, service, now, None) == OpenBy(rows, p, service, now, None)
  {
    if rows != [] { LapseHidesNothing(rows[..|rows| - 1], rows'[..|rows| - 1], p, service, now); }
  }

  // ------------------------------------------------------------------ granting keeps the books

  /** The upserted row: same window as the one found, so a window is never lapsed and topped up again. */
  lemma ToppedRows(cfg: Config, s: State, a: GrantArgs)
    requires Valid(cfg) && PromoOk(cfg, s) && a.bits > 0
    ensures var rows := Topped(cfg, s, a).allowances;
      && (forall i :: 0 <= i < |rows| ==> AllowanceOk(cfg, rows[i])) && |rows| >= |s.allowances|
      && OpenAll(rows) == OpenAll(s.allowances) + a.bits
      && (forall q: Subject :: OpenOf(rows, q) == OpenOf(s.allowances, q) + (if q == a.subject then a.bits else 0))
      && (forall i :: 0 <= i < |s.allowances| && s.allowances[i].end <= s.clock ==> rows[i] == s.allowances[i])
  {
    hide ValidTiers;
    var w := cfg.windowOf(a.reset, s.clock);
    var found := FindWindow(s.allowances, a, w.start);
    if found.Some? {
      var row := s.allowances[found.value];
      assert AllowanceOk(cfg, row);
      assert cfg.windowOf(a.reset, w.start) == w;
      RowReplaced(s.allowances, found.value, row.(granted := row.granted + a.bits));
    } else {
      var row := Allowance(a.subject, a.service, a.reset, a.bits, 0, 0, w.start, w.end);
      assert (s.allowances + [row])[..|s.allowances|] == s.allowances;
      assert cfg.windowOf(a.reset, w.start) == w;
    }
  }

  lemma GrantPosted(cfg: Config, s: State, a: GrantArgs)
    requires Valid(cfg) && Inv(cfg, s) && a.bits > 0 && FindKey(s.ledger.journal, PromoGrantKey(a.key)).None?
    requires PostOn(Topped(cfg, s, a), GrantTxn(a)).Done?
    ensures Inv(cfg, PostOn(Topped(cfg, s, a), GrantTxn(a)).state)
  {
    hide Valid, Topped, Post, PromoOk, Shape, Touches, JournalOk, NonNegative, PayoutsOk, PeriodsCharged, RenewalsOk, RatingOk, TotalsOk, VibesOk, HoldRowsOk, SubsOk;
    var t := GrantTxn(a);
    ToppedElsewhere(cfg, s, a);
    FreshPosts(s.ledger, t);
    PromoPairShape(cfg, t, PROMO_RESERVE, PromoOf(a.subject), a.bits);
    BooksOf(cfg, s.ledger);
    ToppedRows(cfg, s, a);
    PromoInStep(cfg, s, t, Topped(cfg, s, a).allowances, a.subject, a.bits);
    PromoPosted(cfg, s, t, Topped(cfg, s, a).allowances);
  }

  lemma ToppedElsewhere(cfg: Config, s: State, a: GrantArgs)
    ensures Topped(cfg, s, a) == s.(allowances := Topped(cfg, s, a).allowances)
  {
  }

  lemma StillFresh(j: seq<Txn>, j': seq<Txn>, key: Key)
    requires PromoGrowth(j, j') && FindKey(j, key).None? && !key.PromoLapseKey?
    ensures FindKey(j', key).None?
  {
    forall i | 0 <= i < |j'| ensures j'[i].key != key {
      if i < |j| { assert j[i] == j'[i]; }
    }
  }

  /** In every run of grants the journal and the rows stay in step. */
  lemma GrantKeeps(cfg: Config, s: State, a: GrantArgs)
    requires Valid(cfg) && Inv(cfg, s) && Grant(cfg, s, a).Done?
    ensures Inv(cfg, Grant(cfg, s, a).state)
  {
    hide Inv, PromoGrowth, Topped, LapseAll, GrantTxn, PostOn, Valid;
    ToppedElsewhere(cfg, s, a);
    if FindKey(s.ledger.journal, PromoGrantKey(a.key)).None? {
      LapseKeeps(cfg, s, a.subject);
      var s1 := LapseAll(s, a.subject).state;
      StillFresh(s.ledger.journal, s1.ledger.journal, PromoGrantKey(a.key));
      GrantPosted(cfg, s1, a);
    }
  }

  // ------------------------------------------------------------------ drawing keeps the books

  lemma PromoFacts(cfg: Config, s: State, p: Subject)
    requires PromoOk(cfg, s)
    ensures RowsOk(s.allowances) && Bal(s.ledger, PromoOf(p)) == OpenOf(s.allowances, p)
  {
  }

  lemma DrawPosted(cfg: Config, s: State, a: DrawArgs, left: int)
    requires Inv(cfg, s) && left >= 0 && FindKey(s.ledger.journal, PromoDrawKey(a.reading)).None?
    requires var ids := DrawOrder(s.allowances, a.subject, a.service, s.clock);
      PostOn(s.(allowances := Take(s.allowances, ids, left)), DrawTxn(a, Taken(s.allowances, ids, left))).Done?
    ensures var ids := DrawOrder(s.allowances, a.subject, a.service, s.clock);
      var s' := PostOn(s.(allowances := Take(s.allowances, ids, left)), DrawTxn(a, Taken(s.allowances, ids, left))).state;
      InvBesideRating(cfg, s') && (RatedKey(s, PromoDrawKey(a.reading)) ==> Inv(cfg, s'))
  {
    hide Take, Taken, DrawOrder, Post, PromoOk, Shape, Touches, JournalOk, NonNegative, PayoutsOk, PeriodsCharged, RenewalsOk, RatingOk, TotalsOk, VibesOk, HoldRowsOk, SubsOk;
    var ids := DrawOrder(s.allowances, a.subject, a.service, s.clock);
    var rows := Take(s.allowances, ids, left);
    var used := Taken(s.allowances, ids, left);
    var t := DrawTxn(a, used);
    assert forall k :: 0 <= k < |ids| ==> ids[k] in ids;
    FreshPosts(s.ledger, t);
    PromoPairShape(cfg, t, PromoOf(a.subject), PROMO_RESERVE, used);
    BooksOf(cfg, s.ledger);
    PromoFacts(cfg, s, a.subject);
    TakeIsDraw(s.allowances, ids, left, a.subject, a.service, s.clock);
    TakeMoves(s.allowances, ids, left, a.subject, a.service, s.clock);
    DrawnRows(cfg, s, rows, a.subject, a.service);
    PromoInStep(cfg, s, t, rows, a.subject, -used);
    PromoPosted(cfg, s, t, rows);
  }

  lemma DrawnRows(cfg: Config, s: State, rows: seq<Allowance>, p: Subject, service: nat)
    requires PromoOk(cfg, s) && IsDraw(s.allowances, rows, p, service, s.clock)
    ensures forall i :: 0 <= i < |rows| ==> AllowanceOk(cfg, rows[i])
    ensures forall i :: 0 <= i < |rows| && s.allowances[i].end <= s.clock ==> rows[i] == s.allowances[i]
  {
  }

  /** A draw keeps the invariant, its reading being marked; with any other reading only the ratings' part can fail. */
  lemma ConsumeKeeps(cfg: Config, s: State, a: DrawArgs)
    requires Inv(cfg, s) && Consume(s, a).Done?
    ensures InvBesideRating(cfg, Consume(s, a).state)
    ensures RatedKey(s, PromoDrawKey(a.reading)) ==> Inv(cfg, Consume(s, a).state)
  {
    hide Inv, InvBesideRating, PromoGrowth, LapseAll, DrawTxn, PostOn, Take, Taken, DrawOrder;
    InvSplit(cfg, s);
    if FindKey(s.ledger.journal, PromoDrawKey(a.reading)).None? {
      LapseKeeps(cfg, s, a.subject);
      var s1 := LapseAll(s, a.subject).state;
      InvSplit(cfg, s1);
      StillFresh(s.ledger.journal, s1.ledger.journal, PromoDrawKey(a.reading));
      var left := Min(a.bits, Max(0, Bal(s1.ledger, PromoOf(a.subject))));
      var ids := DrawOrder(s1.allowances, a.subject, a.service, s1.clock);
      if Taken(s1.allowances, ids, left) != 0 { DrawPosted(cfg, s1, a, left); }
    }
  }

  lemma PromoOfInv(cfg: Config, s: State)
    requires Inv(cfg, s)
    ensures PromoOk(cfg, s)
  {
  }

  /** A fresh draw takes exactly what is wanted or what remains, even before ended windows were lapsed. */
  lemma ConsumeDraws(cfg: Config, s: State, a: DrawArgs)
    requires Inv(cfg, s) && FindKey(s.ledger.journal, PromoDrawKey(a.reading)).None?
    requires Consume(s, a).Done?
    ensures Consume(s, a).value.bits == Min(a.bits, Remaining(s, a.subject, a.service))
    ensures Consume(s, a).value.txn.None? <==> Consume(s, a).value.bits == 0
  {
    hide Inv, PromoGrowth, LapseAll, PostOn, Take, Taken, DrawOrder, PromoOk, OpenBy, OpenOf;
    LapseKeeps(cfg, s, a.subject);
    var s1 := LapseAll(s, a.subject).state;
    PromoOfInv(cfg, s);
    PromoOfInv(cfg, s1);
    PromoFacts(cfg, s, a.subject);
    PromoFacts(cfg, s1, a.subject);
    LapseHidesNothing(s.allowances, s1.allowances, a.subject, a.service, s.clock);
    OpenBounds(s.allowances, a.subject, a.service, s.clock, None);
    OpenBounds(s1.allowances, a.subject, a.service, s.clock, None);
    DrawTakes(s1.allowances, Min(a.bits, Max(0, Bal(s1.ledger, PromoOf(a.subject)))), a.subject, a.service, s.clock, None);
  }

  /** A draw reads and writes no reading: marking one before or after the draw is the same. */
  function Reread<T>(step: Step<T>, readings: seq<Reading>): Step<T>
  {
    match step
    case Done(s, v) => Done(s.(readings := readings), v)
    case Fail(e) => Fail(e)
  }

  lemma {:induction false} LapseIdsReread(s: State, ids: seq<nat>, readings: seq<Reading>)
    requires Within(ids, |s.allowances|)
    ensures LapseIds(s.(readings := readings), ids) == Reread(LapseIds(s, ids), readings)
    decreases |ids|
  {
    hide Post;
    if ids != [] && LapseOne(s, ids[0]).Done? { LapseIdsReread(LapseOne(s, ids[0]).state, ids[1..], readings); }
  }

  lemma ConsumeReread(s: State, a: DrawArgs, readings: seq<Reading>)
    ensures Consume(s.(readings := readings), a) == Reread(Consume(s, a), readings)
  {
    hide Post, LapseIds, Take, Taken, DrawOrder, EndedOrder;
    var ids := EndedOrder(s.allowances, a.subject, s.clock);
    assert forall k :: 0 <= k < |ids| ==> ids[k] in ids;
    LapseIdsReread(s, ids, readings);
  }
}
