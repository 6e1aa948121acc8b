/** entitlement() of server/ops/subscriptions.js: what a subject's granted periods cover. */
module Entitlements {
  import opened Basics
  import opened Schema

  predicate Grants(p: Period, subject: Subject, scope: Subject, at: Millis)
  {
    p.subject == subject && p.scope == scope && p.revoked.None? && p.start <= at < p.end
  }

  /** Some unrevoked period covers the instant. */
  ghost predicate CoveredAt(ps: seq<Period>, subject: Subject, scope: Subject, at: Millis)
  {
    exists k :: 0 <= k < |ps| && Grants(ps[k], subject, scope, at)
  }

  /** MAX(ends_at) over the periods that cover the instant. */
  function MaxEnd(ps: seq<Period>, subject: Subject, scope: Subject, at: Millis): (r: Option<Millis>)
    ensures r.None? <==> !CoveredAt(ps, subject, scope, at)
    ensures r.Some? ==> exists k :: 0 <= k < |ps| && Grants(ps[k], subject, scope, at) && ps[k].end == r.value
  {
    if ps == [] then None
    else
      var init := MaxEnd(ps[..|ps| - 1], subject, scope, at);
      var p := ps[|ps| - 1];
      assert forall k :: 0 <= k < |ps| - 1 ==> ps[..|ps| - 1][k] == ps[k];
      if Grants(p, subject, scope, at) then Some(if init.Some? then Max(init.value, p.end) else p.end) else init
  }

  /** How many periods end after an instant: what the chaining loop uses up. */
  ghost function EndingAfter(ps: seq<Period>, at: Millis): nat
  {
    if ps == [] then 0 else EndingAfter(ps[..|ps| - 1], at) + (if ps[|ps| - 1].end > at then 1 else 0)
  }

  lemma {:induction false} LaterIsFewer(ps: seq<Period>, at: Millis, later: Millis)
    requires at <= later
    ensures EndingAfter(ps, later) <= EndingAfter(ps, at)
    ensures (exists k :: 0 <= k < |ps| && at < ps[k].end <= later) ==> EndingAfter(ps, later) < EndingAfter(ps, at)
  {
    if ps != [] {
      var init := ps[..|ps| - 1];
      LaterIsFewer(init, at, later);
      if k :| 0 <= k < |ps| && at < ps[k].end <= later {
        assert k < |init| ==> init[k] == ps[k];
      }
    }
  }

  /**
   * Active exactly when a period covers now; the expiry is the first instant from now on
   * that no period covers, however many chained or overlapping periods lie between.
   */
  method Entitlement(ps: seq<Period>, subject: Subject, scope: Subject, now: Millis) returns (expires: Option<Millis>)
    ensures expires.Some? <==> CoveredAt(ps, subject, scope, now)
    ensures expires.Some? ==>
      && expires.value > now
      && (forall u :: now <= u < expires.value ==> CoveredAt(ps, subject, scope, u))
      && !CoveredAt(ps, subject, scope, expires.value)
  {
    expires := MaxEnd(ps, subject, scope, now);
    if expires.Some? {
      var until := expires.value;
      CoversBetween(ps, subject, scope, now, until);
      while true
        invariant until > now
        invariant forall u :: now <= u < until ==> CoveredAt(ps, subject, scope, u)
        decreases EndingAfter(ps, until)
      {
        var next := MaxEnd(ps, subject, scope, until);
        if next.None? {
          break;
        }
        CoversBetween(ps, subject, scope, until, next.value);
        LaterIsFewer(ps, until, next.value);
        until := next.value;
      }
      expires := Some(until);
    }
  }

  /** A covering period reaches from the instant to its own end. */
  lemma CoversBetween(ps: seq<Period>, subject: Subject, scope: Subject, at: Millis, end: Millis)
    requires MaxEnd(ps, subject, scope, at) == Some(end)
    ensures end > at
    ensures exists k :: 0 <= k < |ps| && at < ps[k].end <= end
    ensures forall u :: at <= u < end ==> CoveredAt(ps, subject, scope, u)
  {
    var k :| 0 <= k < |ps| && Grants(ps[k], subject, scope, at) && ps[k].end == end;
    forall u | at <= u < end ensures CoveredAt(ps, subject, scope, u) {
      assert Grants(ps[k], subject, scope, u);
    }
  }
}
