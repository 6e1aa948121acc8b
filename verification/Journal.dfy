/**
 * server/ledger.js: the double-entry journal, its cached balances and `post`.
 * The first half says what posting means (a function of the old journal); PostEffect
 * and its corollaries say what it keeps. Db.Post in Store.dfy is the loop over maps.
 */
module Journal {
  import opened Basics
  import opened Schema

  const SAFE := 9007199254740991
  const PG_MAX := 9223372036854775807

  // ------------------------------------------------------------------ reading

  function Bal(l: Ledger, a: Account): int { if a in l.balances then l.balances[a] else 0 }

  function FindKey(j: seq<Txn>, k: Key): (r: Option<nat>)
    ensures r.Some? ==> r.value < |j| && j[r.value].key == k
    ensures r.None? ==> forall i :: 0 <= i < |j| ==> j[i].key != k
  {
    if j == [] then None
    else
      var r := FindKey(j[..|j| - 1], k);
      if r.Some? then r else if j[|j| - 1].key == k then Some(|j| - 1) else None
  }

  function FindReceipt(j: seq<Txn>, ref: ReceiptRef): (r: Option<nat>)
    ensures r.Some? ==> r.value < |j| && j[r.value].receipt == Some(ref)
    ensures r.None? ==> forall i :: 0 <= i < |j| ==> j[i].receipt != Some(ref)
  {
    if j == [] then None
    else
      var r := FindReceipt(j[..|j| - 1], ref);
      if r.Some? then r else if j[|j| - 1].receipt == Some(ref) then Some(|j| - 1) else None
  }

  /** What the entries add to one account. */
  function Delta(es: seq<Entry>, a: Account): int
  {
    if es == [] then 0
    else Delta(es[..|es| - 1], a) + (if es[|es| - 1].account == a then es[|es| - 1].amount else 0)
  }

  /** What the entries add up to in one currency. */
  function SumOf(es: seq<Entry>, c: Currency): int
  {
    if es == [] then 0
    else SumOf(es[..|es| - 1], c) + (if es[|es| - 1].account.currency == c then es[|es| - 1].amount else 0)
  }

  /** Everything the journal ever added to one account. */
  function JournalSum(j: seq<Txn>, a: Account): int
  {
    if j == [] then 0 else JournalSum(j[..|j| - 1], a) + Delta(j[|j| - 1].entries, a)
  }

  function JournalTotal(j: seq<Txn>, c: Currency): int
  {
    if j == [] then 0 else JournalTotal(j[..|j| - 1], c) + SumOf(j[|j| - 1].entries, c)
  }

  // ------------------------------------------------------------------ merging

  function IndexOf(m: seq<Entry>, a: Account): (i: nat)
    ensures i <= |m|
    ensures i < |m| ==> m[i].account == a
    ensures forall k :: 0 <= k < i ==> m[k].account != a
  {
    if m == [] then 0 else if m[0].account == a then 0 else 1 + IndexOf(m[1..], a)
  }

  /** `merged.set`: one row an account, in order of first appearance. */
  function AddTo(m: seq<Entry>, e: Entry): seq<Entry>
  {
    var i := IndexOf(m, e.account);
    if i < |m| then m[i := Entry(e.account, m[i].amount + e.amount)] else m + [e]
  }

  function Merge(es: seq<Entry>): seq<Entry>
  {
    if es == [] then []
    else
      var m := Merge(es[..|es| - 1]);
      if es[|es| - 1].amount == 0 then m else AddTo(m, es[|es| - 1])
  }

  function NonZero(m: seq<Entry>): seq<Entry>
  {
    if m == [] then []
    else
      var r := NonZero(m[..|m| - 1]);
      if m[|m| - 1].amount == 0 then r else r + [m[|m| - 1]]
  }

  /** Currencies in order of first appearance (the insertion order of `sums`). */
  function Currencies(es: seq<Entry>): seq<Currency>
  {
    if es == [] then []
    else
      var cs := Currencies(es[..|es| - 1]);
      var e := es[|es| - 1];
      if e.amount == 0 || e.account.currency in cs then cs else cs + [e.account.currency]
  }

  function InRange(c: Currency, n: int): bool
  {
    if c == Nano then -PG_MAX <= n <= PG_MAX else -SAFE <= n <= SAFE
  }

  predicate EntryFits(e: Entry) { InRange(e.account.currency, e.amount) }

  predicate RowFits(l: Ledger, m: Entry)
  {
    m.amount == 0
    || ((m.account.currency == Nano || -SAFE <= m.amount <= SAFE)
        && InRange(m.account.currency, Bal(l, m.account) + m.amount))
  }

  /** The first currency whose entries do not cancel decides the failure. */
  function SumsError(es: seq<Entry>, cs: seq<Currency>): Option<Error>
  {
    if cs == [] then None
    else
      var n := SumOf(es, cs[0]);
      if n == 0 then SumsError(es, cs[1..])
      else if cs[0] != Nano && !(-SAFE <= n <= SAFE) then Some(AmountOverflow)
      else Some(Unbalanced)
  }

  function Bump(b: map<Account, int>, rows: seq<Entry>): map<Account, int>
  {
    if rows == [] then b
    else
      var r := Bump(b, rows[..|rows| - 1]);
      var e := rows[|rows| - 1];
      r[e.account := (if e.account in r then r[e.account] else 0) + e.amount]
  }

  // ------------------------------------------------------------------ posting

  datatype Posting = Posted(ledger: Ledger, txn: nat) | Replayed(first: nat) | Failed(error: Error)

  /** `post`: a known key moves nothing; otherwise one balanced transaction, or a failure. */
  function Post(l: Ledger, t: Txn): Posting
  {
    var found := FindKey(l.journal, t.key);
    if found.Some? then Replayed(found.value)
    else if exists i :: 0 <= i < |t.entries| && !EntryFits(t.entries[i]) then Failed(AmountOverflow)
    else
      var sums := SumsError(t.entries, Currencies(t.entries));
      if sums.Some? then Failed(sums.value)
      else if t.receipt.Some? && FindReceipt(l.journal, t.receipt.value).Some? then Failed(UniqueViolation)
      else
        var merged := Merge(t.entries);
        if exists i :: 0 <= i < |merged| && !RowFits(l, merged[i]) then Failed(AmountOverflow)
        else
          Posted(Ledger(l.journal + [t.(entries := NonZero(merged))], Bump(l.balances, NonZero(merged))), |l.journal|)
  }

  // ------------------------------------------------------------------ what holds

  ghost predicate Distinct(es: seq<Entry>)
  {
    forall i, j :: 0 <= i < j < |es| ==> es[i].account != es[j].account
  }

  /** Every row moves something, each account once, and every currency cancels. */
  ghost predicate Sound(t: Txn)
  {
    && Distinct(t.entries)
    && (forall i :: 0 <= i < |t.entries| ==> t.entries[i].amount != 0)
    && (forall c: Currency :: SumOf(t.entries, c) == 0)
  }

  ghost predicate Cached(l: Ledger)
  {
    forall a: Account :: Bal(l, a) == JournalSum(l.journal, a)
  }

  ghost predicate Unique(j: seq<Txn>)
  {
    && (forall i, k :: 0 <= i < k < |j| ==> j[i].key != j[k].key)
    && (forall i, k :: 0 <= i < k < |j| && j[i].receipt.Some? ==> j[i].receipt != j[k].receipt)
  }

  /** Every balance is an exact integer of its column: a JS one, or a bigint for nano-USD. */
  ghost predicate Exact(l: Ledger)
  {
    forall a: Account :: InRange(a.currency, Bal(l, a))
  }

  const BLANK := Ledger([], map[])

  ghost predicate Books(l: Ledger)
  {
    && Cached(l)
    && Exact(l)
    && Unique(l.journal)
    && forall i :: 0 <= i < |l.journal| ==> Sound(l.journal[i])
  }

  // ------------------------------------------------------------------ lemmas on sums

  lemma {:induction false} DeltaUpdate(m: seq<Entry>, i: nat, e: Entry, a: Account)
    requires i < |m| && m[i].account == e.account
    ensures Delta(m[i := e], a) == Delta(m, a) + (if e.account == a then e.amount - m[i].amount else 0)
  {
    var n := |m| - 1;
    if i == n {
      assert m[i := e][..n] == m[..n];
    } else {
      assert m[i := e][..n] == m[..n][i := e];
      DeltaUpdate(m[..n], i, e, a);
    }
  }

  lemma {:induction false} SumUpdate(m: seq<Entry>, i: nat, e: Entry, c: Currency)
    requires i < |m| && m[i].account == e.account
    ensures SumOf(m[i := e], c) == SumOf(m, c) + (if e.account.currency == c then e.amount - m[i].amount else 0)
  {
    var n := |m| - 1;
    if i == n {
      assert m[i := e][..n] == m[..n];
    } else {
      assert m[i := e][..n] == m[..n][i := e];
      SumUpdate(m[..n], i, e, c);
    }
  }

  lemma AddToSums(m: seq<Entry>, e: Entry)
    requires Distinct(m)
    ensures Distinct(AddTo(m, e))
    ensures forall a :: Delta(AddTo(m, e), a) == Delta(m, a) + (if e.account == a then e.amount else 0)
    ensures forall c :: SumOf(AddTo(m, e), c) == SumOf(m, c) + (if e.account.currency == c then e.amount else 0)
    ensures forall x :: x in AddTo(m, e) ==> x.account == e.account || x in m
  {
    var i := IndexOf(m, e.account);
    if i < |m| {
      var e' := Entry(e.account, m[i].amount + e.amount);
      forall a { DeltaUpdate(m, i, e', a); }
      forall c { SumUpdate(m, i, e', c); }
    } else {
      assert (m + [e])[..|m|] == m;
    }
  }

  lemma {:induction false} MergeSums(es: seq<Entry>)
    ensures Distinct(Merge(es))
    ensures forall a :: Delta(Merge(es), a) == Delta(es, a)
    ensures forall c :: SumOf(Merge(es), c) == SumOf(es, c)
    ensures forall x :: x in Merge(es) ==> exists y :: y in es && y.account == x.account
  {
    if es != [] {
      var init, e := es[..|es| - 1], es[|es| - 1];
      MergeSums(init);
      assert e in es && forall y :: y in init ==> y in es;
      if e.amount != 0 { AddToSums(Merge(init), e); }
    }
  }

  lemma {:induction false} MergeDistinct(es: seq<Entry>)
    requires Distinct(es)
    ensures forall x :: x in Merge(es) ==> x in es
  {
    if es != [] {
      var init, e := es[..|es| - 1], es[|es| - 1];
      MergeDistinct(init);
      assert es == init + [e];
      assert forall x :: x in init ==> x.account != e.account;
      hide Distinct;
      AddNew(Merge(init), e);
    }
  }

  lemma AddNew(m: seq<Entry>, e: Entry)
    requires forall x :: x in m ==> x.account != e.account
    ensures AddTo(m, e) == m + [e]
  {
    assert forall k :: 0 <= k < |m| ==> m[k] in m;
  }

  lemma {:induction false} NonZeroRows(m: seq<Entry>)
    requires Distinct(m)
    ensures Distinct(NonZero(m))
    ensures forall x :: x in NonZero(m) <==> x in m && x.amount != 0
  {
    if m != [] {
      var init, e := m[..|m| - 1], m[|m| - 1];
      NonZeroRows(init);
      assert m == init + [e];
      var r := NonZero(init);
      if e.amount != 0 {
        forall i | 0 <= i < |r| ensures r[i].account != e.account {
          assert r[i] in init;
        }
      }
    }
  }

  lemma {:induction false} NonZeroSums(m: seq<Entry>)
    ensures forall a :: Delta(NonZero(m), a) == Delta(m, a)
    ensures forall c :: SumOf(NonZero(m), c) == SumOf(m, c)
  {
    if m != [] {
      var init, e := m[..|m| - 1], m[|m| - 1];
      NonZeroSums(init);
      var r := NonZero(init);
      assert (r + [e])[..|r|] == r;
    }
  }

  lemma {:induction false} BumpDelta(b: map<Account, int>, rows: seq<Entry>, a: Account)
    ensures (if a in Bump(b, rows) then Bump(b, rows)[a] else 0) == (if a in b then b[a] else 0) + Delta(rows, a)
  {
    if rows != [] { BumpDelta(b, rows[..|rows| - 1], a); }
  }

  lemma {:induction false} NoAccountNoDelta(es: seq<Entry>, a: Account)
    requires forall i :: 0 <= i < |es| ==> es[i].account != a
    ensures Delta(es, a) == 0
  {
    if es != [] { NoAccountNoDelta(es[..|es| - 1], a); }
  }

  lemma {:induction false} CurrenciesComplete(es: seq<Entry>, c: Currency)
    ensures c !in Currencies(es) ==> SumOf(es, c) == 0
  {
    if es != [] { CurrenciesComplete(es[..|es| - 1], c); }
  }

  lemma {:induction false} SumsErrorFinds(es: seq<Entry>, cs: seq<Currency>)
    ensures SumsError(es, cs).None? <==> forall c :: c in cs ==> SumOf(es, c) == 0
  {
    if cs != [] {
      SumsErrorFinds(es, cs[1..]);
      assert cs[0] in cs && forall c :: c in cs ==> c == cs[0] || c in cs[1..];
      assert forall c :: c in cs[1..] ==> c in cs;
    }
  }

  /** The sums check is exactly "every currency cancels". */
  lemma SumsErrorNone(es: seq<Entry>)
    ensures SumsError(es, Currencies(es)).None? <==> forall c: Currency :: SumOf(es, c) == 0
  {
    SumsErrorFinds(es, Currencies(es));
    forall c { CurrenciesComplete(es, c); }
  }

  // ------------------------------------------------------------------ the range of the balances

  /** An account that moves has its one row, of what it moves by. */
  lemma {:induction false} RowOf(m: seq<Entry>, a: Account)
    requires Distinct(m)
    ensures forall e :: e in m && e.account == a ==> Delta(m, a) == e.amount
    ensures Delta(m, a) != 0 ==> exists e :: e in m && e.account == a
  {
    if m != [] {
      var init, last := m[..|m| - 1], m[|m| - 1];
      RowOf(init, a);
      assert m == init + [last];
      if last.account == a { NoAccountNoDelta(init, a); }
    }
  }

  /** The move of one account is in range, and so is what it leaves. */
  predicate MoveFits(l: Ledger, a: Account, n: int)
  {
    n == 0 || ((a.currency == Nano || -SAFE <= n <= SAFE) && InRange(a.currency, Bal(l, a) + n))
  }

  ghost predicate MovesFit(l: Ledger, es: seq<Entry>) { forall a: Account :: MoveFits(l, a, Delta(es, a)) }

  ghost predicate RowsFit(l: Ledger, m: seq<Entry>) { forall i :: 0 <= i < |m| ==> RowFits(l, m[i]) }

  lemma MergedFit(l: Ledger, es: seq<Entry>)
    ensures RowsFit(l, Merge(es)) <==> MovesFit(l, es)
  {
    var m := Merge(es);
    MergeSums(es);
    hide Distinct, InRange, Delta, Merge;
    if RowsFit(l, m) {
      forall a: Account ensures MoveFits(l, a, Delta(es, a)) {
        RowOf(m, a);
        if Delta(m, a) != 0 {
          var e :| e in m && e.account == a;
        }
      }
    }
    if MovesFit(l, es) {
      forall i | 0 <= i < |m| ensures RowFits(l, m[i]) {
        RowOf(m, m[i].account);
        assert m[i] in m && MoveFits(l, m[i].account, Delta(es, m[i].account));
      }
    }
  }

  lemma PostedRows(l: Ledger, t: Txn)
    requires Post(l, t).Posted?
    ensures RowsFit(l, Merge(t.entries)) && Post(l, t).ledger.balances == Bump(l.balances, NonZero(Merge(t.entries)))
  {
    hide RowFits, SumsError, Merge, NonZero, Bump;
  }

  /** Posting keeps every balance an exact integer. */
  lemma PostExact(l: Ledger, t: Txn)
    requires Exact(l) && Post(l, t).Posted?
    ensures Exact(Post(l, t).ledger)
  {
    hide RowFits, RowsFit, InRange, Post, Merge, NonZero, Bump, Delta;
    PostedRows(l, t);
    MergedFit(l, t.entries);
    MergeSums(t.entries);
    NonZeroSums(Merge(t.entries));
    forall a: Account ensures InRange(a.currency, Bal(Post(l, t).ledger, a)) {
      BumpDelta(l.balances, NonZero(Merge(t.entries)), a);
      assert InRange(a.currency, Bal(l, a)) && MoveFits(l, a, Delta(t.entries, a));
    }
  }

  /**
   * Entries that cancel, under a fresh key and receipt, are posted exactly when each entry, what each
   * account moves by and the balance it is left with are exact integers.
   */
  lemma PostDecides(l: Ledger, t: Txn)
    requires FindKey(l.journal, t.key).None?
    requires t.receipt.Some? ==> FindReceipt(l.journal, t.receipt.value).None?
    requires forall c: Currency :: SumOf(t.entries, c) == 0
    ensures Post(l, t).Posted? <==>
      (forall e :: e in t.entries ==> InRange(e.account.currency, e.amount)) && MovesFit(l, t.entries)
  {
    hide InRange, RowFits, MovesFit;
    SumsErrorNone(t.entries);
    MergedFit(l, t.entries);
    assert forall i :: 0 <= i < |t.entries| ==> t.entries[i] in t.entries;
  }

  // ------------------------------------------------------------------ what posting does

  /**
   * A posting that goes through appends one sound transaction, moves every account by exactly
   * what its entries say, and keeps the cache, the unique keys and the unique receipts.
   */
  lemma PostEffect(l: Ledger, t: Txn)
    requires Books(l) && Post(l, t).Posted?
    ensures var l' := Post(l, t).ledger;
      && Books(l')
      && |l'.journal| == |l.journal| + 1 && l'.journal[..|l.journal|] == l.journal
      && Post(l, t).txn == |l.journal|
      && l'.journal[|l.journal|] == t.(entries := l'.journal[|l.journal|].entries)
    ensures forall a :: Bal(Post(l, t).ledger, a) == Bal(l, a) + Delta(t.entries, a)
    ensures forall a :: Delta(Post(l, t).ledger.journal[|l.journal|].entries, a) == Delta(t.entries, a)
    ensures forall x :: x in Post(l, t).ledger.journal[|l.journal|].entries ==> exists y :: y in t.entries && y.account == x.account
    ensures forall c: Currency :: SumOf(t.entries, c) == 0
  {
    hide InRange, Exact, RowFits;
    var l' := Post(l, t).ledger;
    var rows := NonZero(Merge(t.entries));
    PostExact(l, t);
    MergeSums(t.entries);
    NonZeroRows(Merge(t.entries));
    NonZeroSums(Merge(t.entries));
    SumsErrorNone(t.entries);
    var t' := t.(entries := rows);
    assert l'.journal[|l.journal|] == t' && l'.journal[..|l.journal|] == l.journal;
    forall i | 0 <= i < |rows| ensures rows[i].amount != 0 {
      assert rows[i] in rows;
    }
    forall c: Currency ensures SumOf(rows, c) == 0 {
      assert SumOf(t.entries, c) == 0;
    }
    forall a ensures Bal(l', a) == Bal(l, a) + Delta(t.entries, a) && Bal(l', a) == JournalSum(l'.journal, a) {
      BumpDelta(l.balances, rows, a);
    }
  }

  lemma BalancesMove(l: Ledger, t: Txn)
    requires Books(l) && Post(l, t).Posted?
    ensures forall a :: Bal(Post(l, t).ledger, a) == Bal(l, a) + Delta(t.entries, a)
  {
    hide Books, Post, Bal, Delta;
    PostEffect(l, t);
  }

  /** Only a known key is a replay. */
  lemma FreshPosts(l: Ledger, t: Txn)
    requires FindKey(l.journal, t.key).None?
    ensures !Post(l, t).Replayed?
  {
  }

  lemma KnownReplays(l: Ledger, t: Txn)
    requires FindKey(l.journal, t.key).Some?
    ensures Post(l, t) == Replayed(FindKey(l.journal, t.key).value)
  {
  }

  /** A transaction the sums and range checks accept under a fresh key and receipt is posted. */
  lemma PostAccepts(l: Ledger, t: Txn)
    requires FindKey(l.journal, t.key).None?
    requires t.receipt.Some? ==> FindReceipt(l.journal, t.receipt.value).None?
    requires forall i :: 0 <= i < |t.entries| ==> EntryFits(t.entries[i])
    requires forall c: Currency :: SumOf(t.entries, c) == 0
    ensures Post(l, t).Posted? || Post(l, t) == Failed(AmountOverflow)
    ensures (forall i :: 0 <= i < |Merge(t.entries)| ==> RowFits(l, Merge(t.entries)[i])) ==> Post(l, t).Posted?
  {
    SumsErrorNone(t.entries);
  }

  /** Entries that cancel, under a fresh key and receipt, are refused for their range alone. */
  lemma BalancedPosts(l: Ledger, t: Txn)
    requires FindKey(l.journal, t.key).None?
    requires t.receipt.Some? ==> FindReceipt(l.journal, t.receipt.value).None?
    requires forall c: Currency :: SumOf(t.entries, c) == 0
    ensures Post(l, t).Posted? || Post(l, t) == Failed(AmountOverflow)
  {
    SumsErrorNone(t.entries);
  }

  /** `journal.zero_sum` follows from `journal.txn_balanced`. */
  lemma {:induction false} JournalCancels(j: seq<Txn>, c: Currency)
    requires forall i :: 0 <= i < |j| ==> Sound(j[i])
    ensures JournalTotal(j, c) == 0
  {
    if j != [] { JournalCancels(j[..|j| - 1], c); }
  }

  // ------------------------------------------------------------------ unfolding short entry lists

  function At(e: Entry, a: Account): int { if e.account == a then e.amount else 0 }

  function In(e: Entry, c: Currency): int { if e.account.currency == c then e.amount else 0 }

  lemma Sums1(e0: Entry)
    ensures forall a :: Delta([e0], a) == At(e0, a)
    ensures forall c :: SumOf([e0], c) == In(e0, c)
  {
    assert [e0][..0] == [];
    forall a ensures Delta([e0], a) == At(e0, a) {
      assert Delta([], a) == 0;
    }
    forall c ensures SumOf([e0], c) == In(e0, c) {
      assert SumOf([], c) == 0;
    }
  }

  lemma Sums2(e0: Entry, e1: Entry)
    ensures forall a :: Delta([e0, e1], a) == At(e0, a) + At(e1, a)
    ensures forall c :: SumOf([e0, e1], c) == In(e0, c) + In(e1, c)
  {
    Sums1(e0);
    assert [e0, e1][..1] == [e0];
  }

  lemma Sums3(e0: Entry, e1: Entry, e2: Entry)
    ensures forall a :: Delta([e0, e1, e2], a) == At(e0, a) + At(e1, a) + At(e2, a)
    ensures forall c :: SumOf([e0, e1, e2], c) == In(e0, c) + In(e1, c) + In(e2, c)
  {
    Sums2(e0, e1);
    assert [e0, e1, e2][..2] == [e0, e1];
  }

  lemma Sums4(e0: Entry, e1: Entry, e2: Entry, e3: Entry)
    ensures forall a :: Delta([e0, e1, e2, e3], a) == At(e0, a) + At(e1, a) + At(e2, a) + At(e3, a)
    ensures forall c :: SumOf([e0, e1, e2, e3], c) == In(e0, c) + In(e1, c) + In(e2, c) + In(e3, c)
  {
    Sums3(e0, e1, e2);
    assert [e0, e1, e2, e3][..3] == [e0, e1, e2];
  }

  lemma Sums5(e0: Entry, e1: Entry, e2: Entry, e3: Entry, e4: Entry)
    ensures forall a :: Delta([e0, e1, e2, e3, e4], a) == At(e0, a) + At(e1, a) + At(e2, a) + At(e3, a) + At(e4, a)
    ensures forall c :: SumOf([e0, e1, e2, e3, e4], c) == In(e0, c) + In(e1, c) + In(e2, c) + In(e3, c) + In(e4, c)
  {
    Sums4(e0, e1, e2, e3);
    assert [e0, e1, e2, e3, e4][..4] == [e0, e1, e2, e3];
  }

  lemma Sums6(e0: Entry, e1: Entry, e2: Entry, e3: Entry, e4: Entry, e5: Entry)
    ensures forall a :: Delta([e0, e1, e2, e3, e4, e5], a) == At(e0, a) + At(e1, a) + At(e2, a) + At(e3, a) + At(e4, a) + At(e5, a)
    ensures forall c :: SumOf([e0, e1, e2, e3, e4, e5], c) == In(e0, c) + In(e1, c) + In(e2, c) + In(e3, c) + In(e4, c) + In(e5, c)
  {
    Sums5(e0, e1, e2, e3, e4);
    assert [e0, e1, e2, e3, e4, e5][..5] == [e0, e1, e2, e3, e4];
  }
}
