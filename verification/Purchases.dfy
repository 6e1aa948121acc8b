/** server/ops/purchases.js: a provider receipt becomes spendable credit, once. */
module Purchases {
  import opened Basics
  import opened Schema
  import opened Journal
  import opened Rates
  import opened Common
  import opened Invariants
  import opened Store

  datatype SettleArgs = SettleArgs(
    provider: Provider, payment: nat, paidCents: int, bits: Option<int>, subject: Option<Subject>,
    intent: Option<nat>, key: Key, source: Option<nat>)

  function SettledIntent(i: Intent, txn: nat): Intent { i.(status := IntentSettled, settledTxn := Some(txn)) }

  function MarkSettled(s: State, intent: Option<nat>, txn: nat): State
  {
    if intent.Some? && intent.value < |s.intents| then
      s.(intents := s.intents[intent.value := SettledIntent(s.intents[intent.value], txn)])
    else s
  }

  /** The package when the payment covers it, the explicit bits, or what the tiers give. */
  function ChosenBits(cfg: Config, intent: Option<Intent>, a: SettleArgs): Option<int>
    requires ValidTiers(cfg)
  {
    if intent.Some? && intent.value.bits != 0 && a.paidCents >= intent.value.amountCents - 1 then Some(intent.value.bits)
    else if a.bits.Some? then
      if 0 < a.bits.value && (cfg.maxBits == 0 || a.bits.value <= cfg.maxBits) then a.bits else None
    else Some(BitsForPriceCents(cfg, a.paidCents))
  }

  function PurchaseTxn(cfg: Config, a: SettleArgs, subject: Subject, bits: int): Txn
  {
    Txn(Purchase, a.key, ReceiptEntries(cfg, a.provider, a.paidCents, bits, CreditOf(subject)), None,
        None, Some(subject), Some(Gateway(a.provider)), Some(Payment(a.provider, a.payment)), a.source,
        PurchaseMeta(a.paidCents, bits, a.intent), cfg.bitsPerUsd)
  }

  function Settle(cfg: Config, s: State, a: SettleArgs): Step<Outcome>
    requires ValidTiers(cfg)
  {
    var dup := FindReceipt(s.ledger.journal, Payment(a.provider, a.payment));
    if dup.Some? then Done(s, Outcome(dup.value, true))
    else if !(0 < a.paidCents <= MAX_RECEIPT_CENTS) then Fail(InvalidAmount)
    else if a.intent.Some? && a.intent.value >= |s.intents| then Fail(NotFound)
    else
      var intent := if a.intent.Some? then Some(s.intents[a.intent.value]) else None;
      if intent.Some? && (!intent.value.kind.PurchaseIntent? || intent.value.provider != a.provider
                          || (a.subject.Some? && a.subject.value != intent.value.subject)) then Fail(IntentMismatch)
      else if intent.Some? && intent.value.status == IntentSettled && intent.value.settledTxn.Some? then
        Done(s, Outcome(intent.value.settledTxn.value, true))
      else
        var subject := if intent.Some? then Some(intent.value.subject) else a.subject;
        var bits := ChosenBits(cfg, intent, a);
        if subject.None? then Fail(InvalidInput)
        else if bits.None? || bits.value < 1 || bits.value > cfg.maxBits then Fail(InvalidAmount)
        else if ValueCents(cfg, bits.value) > a.paidCents then Fail(Overcredit)
        else
          match PostOn(s, PurchaseTxn(cfg, a, subject.value, bits.value))
          case Fail(e) => Fail(e)
          case Done(s', o) => Done(MarkSettled(s', a.intent, o.txn), Outcome(o.txn, false))
  }

  method ChooseBits(cfg: Config, intent: Option<Intent>, a: SettleArgs) returns (bits: Option<int>)
    requires ValidTiers(cfg)
    ensures bits == ChosenBits(cfg, intent, a)
  {
    if intent.Some? && intent.value.bits != 0 && a.paidCents >= intent.value.amountCents - 1 {
      bits := Some(intent.value.bits);
    } else if a.bits.Some? {
      bits := if 0 < a.bits.value && (cfg.maxBits == 0 || a.bits.value <= cfg.maxBits) then a.bits else None;
    } else {
      var best := ComputeBitsForPriceCents(cfg, a.paidCents);
      bits := Some(best);
    }
  }

  method SettleReceipt(cfg: Config, db: Db, a: SettleArgs) returns (r: Result<Outcome, Error>)
    requires ValidTiers(cfg)
    modifies db
    ensures db.Answers(old(db.View()), Settle(cfg, old(db.View()), a), r)
  {
    hide Post, PurchaseTxn, ChosenBits, FindReceipt, ValidTiers, ValueCents;
    var dup := FindReceipt(db.journal, Payment(a.provider, a.payment));
    if dup.Some? { return Ok(Outcome(dup.value, true)); }
    if !(0 < a.paidCents <= MAX_RECEIPT_CENTS) { return Err(InvalidAmount); }
    if a.intent.Some? && a.intent.value >= |db.intents| { return Err(NotFound); }
    var intent := if a.intent.Some? then Some(db.intents[a.intent.value]) else None;
    if intent.Some? {
      var i := intent.value;
      if !i.kind.PurchaseIntent? || i.provider != a.provider { return Err(IntentMismatch); }
      if a.subject.Some? && a.subject.value != i.subject { return Err(IntentMismatch); }
      if i.status == IntentSettled && i.settledTxn.Some? { return Ok(Outcome(i.settledTxn.value, true)); }
    }
    var subject := if intent.Some? then Some(intent.value.subject) else a.subject;
    if subject.None? { return Err(InvalidInput); }
    var bits := ChooseBits(cfg, intent, a);
    if bits.None? || bits.value < 1 || bits.value > cfg.maxBits { return Err(InvalidAmount); }
    if ValueCents(cfg, bits.value) > a.paidCents { return Err(Overcredit); }
    var posted := db.Post(PurchaseTxn(cfg, a, subject.value, bits.value));
    if posted.Err? { return posted; }
    if a.intent.Some? {
      db.intents := db.intents[a.intent.value := SettledIntent(db.intents[a.intent.value], posted.value.txn)];
    }
    r := Ok(Outcome(posted.value.txn, false));
  }

  // ------------------------------------------------------------------ what it keeps

  lemma PurchaseShape(cfg: Config, a: SettleArgs, subject: Subject, bits: int)
    requires a.paidCents > 0 && bits > 0 && ValueCents(cfg, bits) <= a.paidCents
    requires KeyMatchesSource(a.key, a.source)
    ensures Shape(cfg, PurchaseTxn(cfg, a, subject, bits))
  {
    var t := PurchaseTxn(cfg, a, subject, bits);
    ReceiptShape(cfg, t, a.provider, a.paidCents, bits, CreditOf(subject));
  }

  lemma SettleKeeps(cfg: Config, s: State, a: SettleArgs)
    requires ValidTiers(cfg) && Inv(cfg, s)
    requires PlainKey(a.key) && KeyMatchesSource(a.key, a.source)
    requires Settle(cfg, s, a).Done?
    ensures Inv(cfg, Settle(cfg, s, a).state)
  {
    hide Shape, JournalOk, NonNegative, PayoutsOk, PeriodsCharged, RenewalsOk, PromoOk, RatingOk, TotalsOk, VibesOk, HoldRowsOk, SubsOk, Touches,
         Post, ChosenBits, ReceiptEntries, ValidTiers, ValueCents, FxMirror, PromoIsolated, Cleared, Inv;
    var dup := FindReceipt(s.ledger.journal, Payment(a.provider, a.payment));
    if dup.None? && Settle(cfg, s, a).state != s {
      var intent := if a.intent.Some? then Some(s.intents[a.intent.value]) else None;
      var subject := if intent.Some? then Some(intent.value.subject) else a.subject;
      var bits := ChosenBits(cfg, intent, a).value;
      var t := PurchaseTxn(cfg, a, subject.value, bits);
      if FindKey(s.ledger.journal, a.key).None? {
        FreshPosts(s.ledger, t);
        ReceiptShape(cfg, t, a.provider, a.paidCents, bits, CreditOf(subject.value));
        PurchaseShape(cfg, a, subject.value, bits);
        CreditCovered(cfg, s, t, CreditOf(subject.value), bits);
        PlainPost(cfg, s, t);
        MarkKeeps(cfg, s.(ledger := Post(s.ledger, t).ledger), a.intent, Post(s.ledger, t).txn);
      } else {
        KnownReplays(s.ledger, t);
        MarkKeeps(cfg, s, a.intent, FindKey(s.ledger.journal, a.key).value);
      }
    }
  }

  /** Entries that only credit one guarded account leave every guarded account covered. */
  lemma CreditCovered(cfg: Config, s: State, t: Txn, target: Account, bits: int)
    requires Inv(cfg, s) && bits >= 0
    requires forall a: Account :: Guarded(a.kind) ==> Delta(t.entries, a) == if a == target then bits else 0
    ensures forall a: Account :: Guarded(a.kind) ==> Bal(s.ledger, a) + Delta(t.entries, a) >= 0
  {
    hide JournalOk, PayoutsOk, PeriodsCharged, SubsOk, RenewalsOk, PromoOk, RatingOk, TotalsOk, VibesOk, HoldRowsOk, IntentsOk, Delta, Bal;
  }

  lemma MarkKeeps(cfg: Config, s: State, intent: Option<nat>, txn: nat)
    requires Inv(cfg, s)
    ensures Inv(cfg, MarkSettled(s, intent, txn))
  {
    hide JournalOk, NonNegative, PayoutsOk, PeriodsCharged, SubsOk, RenewalsOk, PromoOk, RatingOk, TotalsOk, VibesOk, HoldRowsOk;
    Frame(cfg, s, MarkSettled(s, intent, txn));
  }
}
