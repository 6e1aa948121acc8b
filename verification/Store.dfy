/** The database every operation is handed (ctx.db), and server/ledger.js post() as its loops. */
module Store {
  import opened Basics
  import opened Schema
  import opened Journal
  import opened Rates
  import opened Common

  class Db {
    var clock: Millis
    var frozen: bool
    var journal: seq<Txn>
    var balances: map<Account, int>
    var intents: seq<Intent>
    var cashouts: seq<Cashout>
    var subs: seq<Sub>
    var periods: seq<Period>
    ghost var sweeps: set<SweepRead>
    var allowances: seq<Allowance>
    var budgets: seq<Budget>
    var readings: seq<Reading>
    var events: seq<Event>
    var charges: seq<Charge>
    var holds: seq<Hold>
    var settlements: seq<Settlement>

    constructor ()
      ensures View() == EMPTY
    {
      clock, frozen, journal, balances := 0, false, [], map[];
      intents, cashouts, subs, periods, sweeps := [], [], [], [], {};
      allowances, budgets, readings, events := [], [], [], [];
      charges, holds, settlements := [], [], [];
    }

    ghost function View(): State
      reads this
    {
      State(clock, frozen, Ledger(journal, balances), intents, cashouts, subs, periods, sweeps,
            allowances, budgets, readings, events, charges, holds, settlements)
    }

    function Balance(a: Account): (n: int)
      reads this
      ensures n == Bal(View().ledger, a)
    {
      if a in balances then balances[a] else 0
    }

    /** The state after a step, or the old one with the reason it was refused. */
    ghost predicate Answers<T(!new)>(before: State, step: Step<T>, r: Result<T, Error>)
      reads this
    {
      match step
      case Done(s, v) => View() == s && r == Ok(v)
      case Fail(e) => View() == before && r == Err(e)
    }

    /**
     * Post one balanced transaction: merge the entries account by account, check each
     * currency and each resulting balance, then write the rows and bump the cache.
     */
    method Post(t: Txn) returns (r: Result<Outcome, Error>)
      modifies this`journal, this`balances
      ensures Answers(old(View()), PostOn(old(View()), t), r)
    {
      var existing := FindKey(journal, t.key);
      if existing.Some? {
        return Ok(Outcome(existing.value, true));
      }
      var fits, merged, seen, sums := MergeEntries(t.entries);
      if !fits {
        return Err(AmountOverflow);
      }
      var unbalanced := CheckSums(t.entries, seen, sums);
      if unbalanced.Some? {
        return Err(unbalanced.value);
      }
      if t.receipt.Some? && FindReceipt(journal, t.receipt.value).Some? {
        return Err(UniqueViolation);
      }
      var inRange := CheckRows(merged);
      if !inRange {
        return Err(AmountOverflow);
      }
      var rows := WriteRows(merged);
      r := Ok(Outcome(|journal|, false));
      journal := journal + [t.(entries := rows)];
    }

    /** The walk over the entries that fills `merged` and `sums`, stopping at one out of range. */
    static method MergeEntries(entries: seq<Entry>)
      returns (fits: bool, merged: seq<Entry>, seen: seq<Currency>, sums: map<Currency, int>)
      ensures fits <==> forall k :: 0 <= k < |entries| ==> EntryFits(entries[k])
      ensures fits ==> merged == Merge(entries) && seen == Currencies(entries)
      ensures fits ==> forall c :: c in seen ==> c in sums && sums[c] == SumOf(entries, c)
    {
      fits, merged, seen, sums := true, [], [], map[];
      for i := 0 to |entries|
        invariant fits && forall k :: 0 <= k < i ==> EntryFits(entries[k])
        invariant merged == Merge(entries[..i])
        invariant seen == Currencies(entries[..i])
        invariant forall c :: c in sums <==> c in seen
        invariant forall c :: c in seen ==> sums[c] == SumOf(entries[..i], c)
      {
        var e := entries[i];
        assert entries[..i + 1][..i] == entries[..i];
        if !EntryFits(e) {
          return false, merged, seen, sums;
        }
        if e.amount != 0 {
          merged := AddTo(merged, e);
          CurrenciesComplete(entries[..i], e.account.currency);
          if e.account.currency !in sums {
            seen := seen + [e.account.currency];
            sums := sums[e.account.currency := e.amount];
          } else {
            sums := sums[e.account.currency := sums[e.account.currency] + e.amount];
          }
        }
      }
      assert entries[..|entries|] == entries;
    }

    /** The first currency, in order of appearance, that does not cancel. */
    static method CheckSums(ghost entries: seq<Entry>, seen: seq<Currency>, sums: map<Currency, int>) returns (e: Option<Error>)
      requires forall c :: c in seen ==> c in sums && sums[c] == SumOf(entries, c)
      ensures e == SumsError(entries, seen)
    {
      for i := 0 to |seen|
        invariant SumsError(entries, seen) == SumsError(entries, seen[i..])
      {
        assert seen[i..][0] == seen[i] && seen[i..][1..] == seen[i + 1..];
        var sum := sums[seen[i]];
        if sum != 0 {
          return Some(if seen[i] != Nano && !(-SAFE <= sum <= SAFE) then AmountOverflow else Unbalanced);
        }
      }
      e := None;
    }

    /** Whether every merged amount and every balance it would leave is an exact integer. */
    method CheckRows(merged: seq<Entry>) returns (inRange: bool)
      ensures inRange <==> forall k :: 0 <= k < |merged| ==> RowFits(View().ledger, merged[k])
    {
      for i := 0 to |merged|
        invariant forall k :: 0 <= k < i ==> RowFits(View().ledger, merged[k])
      {
        var m := merged[i];
        if m.amount != 0 {
          if m.account.currency != Nano && !(-SAFE <= m.amount <= SAFE) {
            return false;
          }
          if !InRange(m.account.currency, Balance(m.account) + m.amount) {
            return false;
          }
        }
      }
      inRange := true;
    }

    /** Insert the rows that move something and bump their balances. */
    method WriteRows(merged: seq<Entry>) returns (rows: seq<Entry>)
      modifies this`balances
      ensures rows == NonZero(merged)
      ensures balances == Bump(old(balances), rows)
    {
      rows := [];
      for i := 0 to |merged|
        invariant rows == NonZero(merged[..i])
        invariant balances == Bump(old(balances), rows)
      {
        assert merged[..i + 1][..i] == merged[..i];
        var m := merged[i];
        if m.amount != 0 {
          assert (rows + [m])[..|rows|] == rows;
          balances := balances[m.account := Balance(m.account) + m.amount];
          rows := rows + [m];
        }
      }
      assert merged[..|merged|] == merged;
    }

    /** requireFunds: whether the account holds at least `amount`. */
    method Holds(a: Account, amount: int) returns (enough: bool)
      ensures enough <==> Bal(View().ledger, a) >= amount
    {
      enough := Balance(a) >= amount;
    }
  }
}
