/**
 * Usage rating over whole runs: a reading is rated once and its row stays, and between two settings
 * of a budget no charge takes one past its limit.
 */
module RatingRuns {
  import opened Basics
  import opened Schema
  import opened Journal
  import opened Rates
  import opened Common
  import opened Invariants
  import opened Purchases
  import opened Topups
  import opened Transfers
  import opened Cashouts
  import opened Subscriptions
  import opened Reversals
  import opened Promo
  import opened Rating
  import opened Credits
  import opened Balance
  import opened Vibes
  import opened Providers
  import opened Growth
  import opened Runs

  // ------------------------------------------------------------------ who writes readings and budgets

  /** Neither the readings nor the budgets were touched. */
  ghost predicate Apart(s: State, s': State) { s'.readings == s.readings && s'.budgets == s.budgets }

  lemma MoneyApart(cfg: Config, s: State, c: MoneyCommand)
    requires Valid(cfg)
    ensures Apart(s, ExecMoney(cfg, s, c))
  {
    hide Partition, ValidTiers, Post, Settle, SettleTopup, TipFromReceipt, Reverse, FindKey, FindReceipt, PriceCents, FeeCents;
    match c {
      case SettleC(a) => if Settle(cfg, s, a).Done? { SettleFeed(cfg, s, a); }
      case TopupC(a) => if SettleTopup(cfg, s, a).Done? { TopupFeed(cfg, s, a); }
      case TipC(a) => if TipFromReceipt(cfg, s, a).Done? { TipFeed(cfg, s, a); }
      case ReverseC(a) => if Reverse(cfg, s, a).Done? { ReverseFeed(cfg, s, a); }
      case _ =>
    }
  }

  lemma SubsCommandApart(cfg: Config, s: State, c: SubsCommand)
    requires Valid(cfg)
    ensures Apart(s, ExecSubs(cfg, s, c))
  {
    hide Partition, ValidTiers, Subscriptions.Pay, SweepOne, RefundPeriod;
    match c {
      case PayC(a) => if Subscriptions.Pay(cfg, s, a).Done? { PayFeed(cfg, s, a); }
      case SweepC(i) => if i < |s.subs| { SweepApart(cfg, s, i, s.subs[i]); }
      case ChargeReadC(read) =>
        if ChargeRead(cfg, s, read).Done? { PayFeed(cfg, s, RenewArgs(cfg, read.row, Renewal(read.sub, read.row.periodEnd, read.attempt))); }
      case RefundPeriodC(a) => PeriodRefundApart(cfg, s, a);
      case _ =>
    }
  }

  lemma SweepApart(cfg: Config, s: State, i: nat, row: Sub)
    ensures SweepOne(cfg, s, i, row).Done? ==> Apart(s, SweepOne(cfg, s, i, row).state)
  {
    hide Subscriptions.Pay, Attempt;
    var a := RenewArgs(cfg, row, Renewal(i, row.periodEnd, Attempt(s.ledger.journal, i, row.periodEnd, 0)));
    if Subscriptions.Pay(cfg, s, a).Done? { PayFeed(cfg, s, a); }
  }

  lemma PeriodRefundApart(cfg: Config, s: State, a: PeriodRefundArgs)
    ensures RefundPeriod(cfg, s, a).Done? ==> Apart(s, RefundPeriod(cfg, s, a).state)
  {
    hide Post, RevokeFrom, PeriodRefundTxn, Granting, HasReversal, FindKey;
    forall l: Ledger { RevokeElsewhere(s.(ledger := l), a.txn, ForRefund, 0); }
  }

  lemma HoldsApart(cfg: Config, s: State, c: HoldCommand)
    requires Valid(cfg)
    ensures Apart(s, ExecHolds(cfg, s, c))
  {
    hide Partition, ValidTiers, Post, FindKey, FindHold, FindSettlement, CollectedOf, ChargeOf, Available, Credits.Expired;
  }

  lemma VibesApart(cfg: Config, s: State, c: VibesCommand)
    ensures Apart(s, ExecVibes(cfg, s, c))
  {
    hide Post, FindKey, SpentToday, PayRefused;
  }

  lemma FeedApart(cfg: Config, adapter: Adapter, s: State, c: FeedCommand)
    requires Valid(cfg)
    ensures Apart(s, ExecFeed(cfg, adapter, s, c))
  {
    hide Partition, ValidTiers, Process;
    match c {
      case StoreC(p, id, payload) =>
      case ProcessC(e) => ProcessApart(cfg, adapter, s, e);
      case ReprocessC(e) =>
        if e < |s.events| { ProcessApart(cfg, adapter, s.(events := s.events[e := s.events[e].(effect := None)]), e); }
    }
  }

  lemma ProcessApart(cfg: Config, adapter: Adapter, s: State, e: nat)
    requires Valid(cfg)
    ensures Apart(s, Process(cfg, adapter, s, e))
  {
    hide Partition, ValidTiers, ApplyPlan;
    if e < |s.events| {
      var plan := adapter(s.events[e], s.subs, s.intents);
      if plan.Some? { EventsUnapplied(cfg, s, s.events[e].provider, plan.value, e); }
    }
  }

  // ------------------------------------------------------------------ one command

  /** Rated rows are still there, as they were. */
  ghost predicate RatedKept(s: State, s': State)
  {
    && |s'.readings| >= |s.readings|
    && forall k :: 0 <= k < |s.readings| && s.readings[k].rated.Some? ==> s'.readings[k] == s.readings[k]
  }

  lemma ApartKeeps(s: State, s': State)
    requires Apart(s, s')
    ensures RatedKept(s, s') && WithinBudgets(s.budgets, s'.budgets)
  {
    SameBudgets(s.budgets);
  }

  lemma UsageRates(cfg: Config, s: State, c: UsageCommand)
    requires Valid(cfg) && Inv(cfg, s)
    ensures RatedKept(s, ExecUsage(cfg, s, c))
    ensures !c.BudgetC? ==> WithinBudgets(s.budgets, ExecUsage(cfg, s, c).budgets)
  {
    hide Partition, ValidTiers, Inv, Grant, Rate, WithinBudgets;
    SameBudgets(s.budgets);
    match c {
      case GrantC(a) => if Grant(cfg, s, a).Done? { GrantApart(cfg, s, a); }
      case RateC(cards, id) =>
        if Rate(cfg, s, cards, id).Done? {
          RateBudgets(cfg, s, cards, id);
          RateKeepsLength(cfg, s, cards, id);
          forall k | 0 <= k < |s.readings| && s.readings[k].rated.Some?
            ensures Rate(cfg, s, cards, id).state.readings[k] == s.readings[k]
          {
            RatedStays(cfg, s, cards, id, k);
          }
        }
      case _ =>
    }
  }

  lemma GrantApart(cfg: Config, s: State, a: GrantArgs)
    requires Inv(cfg, s) && Grant(cfg, s, a).Done?
    ensures Apart(s, Grant(cfg, s, a).state)
  {
    hide Inv, LapseAll, Post, FindWindow, FindKey, PromoGrowth;
    if LapseAll(s, a.subject).Done? { LapseKeeps(cfg, s, a.subject); }
  }

  lemma ExecRates(cfg: Config, adapter: Adapter, s: State, c: Command)
    requires Valid(cfg) && Inv(cfg, s)
    ensures RatedKept(s, Exec(cfg, adapter, s, c))
    ensures !(c.Usage? && c.usage.BudgetC?) ==> WithinBudgets(s.budgets, Exec(cfg, adapter, s, c).budgets)
  {
    hide Inv, Partition, ValidTiers, ExecMoney, ExecSubs, ExecUsage, ExecHolds, ExecVibes, ExecFeed, RatedKept, WithinBudgets;
    var s' := Exec(cfg, adapter, s, c);
    match c {
      case Tick(now) => ApartKeeps(s, s');
      case Freeze(on) => ApartKeeps(s, s');
      case Money(m) => MoneyApart(cfg, s, m); ApartKeeps(s, s');
      case Subs(m) => SubsCommandApart(cfg, s, m); ApartKeeps(s, s');
      case Usage(m) => UsageRates(cfg, s, m);
      case Holds(m) => HoldsApart(cfg, s, m); ApartKeeps(s, s');
      case Pay(m) => VibesApart(cfg, s, m); ApartKeeps(s, s');
      case Feed(m) => FeedApart(cfg, adapter, s, m); ApartKeeps(s, s');
    }
  }

  // ------------------------------------------------------------------ every run

  lemma {:induction false} RunRates(cfg: Config, adapter: Adapter, s: State, run: seq<Command>)
    requires Valid(cfg) && Good(cfg, s) && RunAllowed(cfg, adapter, s, run)
    ensures RatedKept(s, Run(cfg, adapter, s, run))
    ensures (forall k :: 0 <= k < |run| ==> !(run[k].Usage? && run[k].usage.BudgetC?)) ==>
      WithinBudgets(s.budgets, Run(cfg, adapter, s, run).budgets)
    decreases |run|
  {
    hide Inv, EventsOk, Exec, Partition, ValidTiers, Allowed, RatedKept, WithinBudgets;
    if run == [] {
      ApartKeeps(s, s);
    } else {
      var s1 := Exec(cfg, adapter, s, run[0]);
      ExecGood(cfg, adapter, s, run[0]);
      ExecRates(cfg, adapter, s, run[0]);
      RunRates(cfg, adapter, s1, run[1..]);
      RatedChain(s, s1, Run(cfg, adapter, s1, run[1..]));
      if forall k :: 0 <= k < |run| ==> !(run[k].Usage? && run[k].usage.BudgetC?) {
        assert forall k :: 0 <= k < |run[1..]| ==> run[1..][k] == run[k + 1];
        BudgetsChain(s.budgets, s1.budgets, Run(cfg, adapter, s1, run[1..]).budgets);
      }
    }
  }

  lemma RatedChain(s: State, s1: State, s2: State)
    requires RatedKept(s, s1) && RatedKept(s1, s2)
    ensures RatedKept(s, s2)
  {
  }

  /**
   * A reading rated in a reachable state is the same row in every later state of the run, whatever is
   * rated, swept, granted or set in between, and what it drew and what it was charged add up to its
   * charge. Over a stretch with no budget set, no budget's limit changes and none is taken past it.
   */
  lemma EveryRunRatesOnce(cfg: Config, adapter: Adapter, before: seq<Command>, after: seq<Command>)
    requires Valid(cfg) && RunAllowed(cfg, adapter, EMPTY, before) && RunAllowed(cfg, adapter, Reached(cfg, adapter, before), after)
    ensures var s := Reached(cfg, adapter, before); var s' := Run(cfg, adapter, s, after);
      && |s'.readings| >= |s.readings|
      && (forall k :: 0 <= k < |s.readings| && s.readings[k].rated.Some? ==>
            && s'.readings[k] == s.readings[k]
            && s.readings[k].rated.value.promoBits + s.readings[k].rated.value.charged == s.readings[k].rated.value.gross)
      && ((forall k :: 0 <= k < |after| ==> !(after[k].Usage? && after[k].usage.BudgetC?)) ==> WithinBudgets(s.budgets, s'.budgets))
  {
    hide Reached, Run, Partition, ValidTiers, RunAllowed, JournalOk, NonNegative, PayoutsOk, PeriodsCharged, SubsOk, RenewalsOk, PromoOk, TotalsOk,
         VibesOk, HoldRowsOk, IntentsOk, EventsOk, WithinBudgets;
    ReachedGood(cfg, adapter, before);
    RunRates(cfg, adapter, Reached(cfg, adapter, before), after);
  }
}
