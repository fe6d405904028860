/** `process_grants_data`: every grant gets its whole days to the deadline
    (never negative) and an urgency bucket, and the list gets its counts. */
module GrantsService {
  import opened Common
  import opened Dates
  import opened Records

  datatype Urgency = Critical | High | Medium | Low

  /** A grant with the two keys the service adds. */
  datatype Annotated = Annotated(grant: Grant, daysRemaining: int, urgency: Urgency)

  /** The counts of the statistics dictionary (`search_time` is left out). */
  datatype Stats = Stats(totalResults: nat, activeGrants: nat, urgentGrants: nat)

  /** Whole days from `now` (microseconds from midnight of day ordinal 0) to
      the deadline, floored at 0; 0 when the deadline is not a `%Y-%m-%d`
      date. */
  function DaysRemaining(deadline: string, now: int): (r: int)
    ensures r >= 0
    ensures ParseIso(deadline).None? ==> r == 0
    ensures forall d :: ParseIso(deadline) == Some(d) && WholeDaysUntil(d, now) >= 0 ==> r == WholeDaysUntil(d, now)
    ensures forall d :: ParseIso(deadline) == Some(d) && now >= Ordinal(d) * MicrosPerDay ==> r == 0
    ensures forall d :: ParseIso(deadline) == Some(d) ==>
      (r > 0 <==> now + MicrosPerDay <= Ordinal(d) * MicrosPerDay)
    ensures forall d :: ParseIso(deadline) == Some(d) && r > 0 ==>
      r * MicrosPerDay <= Ordinal(d) * MicrosPerDay - now < (r + 1) * MicrosPerDay
  {
    match ParseIso(deadline)
    case Some(d) =>
      var days := WholeDaysUntil(d, now);
      if days > 0 then days else 0
    case None => 0
  }

  /** Time only brings a deadline closer. */
  lemma DaysRemainingShrinks(deadline: string, now: int, later: int)
    requires now <= later
    ensures DaysRemaining(deadline, later) <= DaysRemaining(deadline, now)
  {
    match ParseIso(deadline)
    case Some(d) =>
      var a := Ordinal(d) * MicrosPerDay - later;
      var b := Ordinal(d) * MicrosPerDay - now;
      assert a / 86_400_000_000 <= b / 86_400_000_000;
    case None =>
  }

  /** The urgency bucket of a day count: critical up to a week, low beyond
      60 days. */
  function UrgencyOf(days: int): (u: Urgency)
    ensures u == Critical <==> days <= 7
    ensures u == Low <==> days > 60
  {
    if days <= 7 then Critical
    else if days <= 30 then High
    else if days <= 60 then Medium
    else Low
  }

  /** More pressing buckets rank higher. */
  function Rank(u: Urgency): nat {
    match u
    case Critical => 3
    case High => 2
    case Medium => 1
    case Low => 0
  }

  /** Fewer days never mean a less pressing bucket, and the thresholds are
      7, 30 and 60 days, inclusive. */
  lemma UrgencyMonotone(days: int, days': int)
    requires days <= days'
    ensures Rank(UrgencyOf(days)) >= Rank(UrgencyOf(days'))
    ensures UrgencyOf(days) == Critical <==> days <= 7
    ensures UrgencyOf(days) in {Critical, High} <==> days <= 30
    ensures UrgencyOf(days) != Low <==> days <= 60
  {
  }

  /** What the loop body does to one grant. */
  function Annotate(g: Grant, now: int): (a: Annotated)
    ensures a.grant == g && a.daysRemaining >= 0 && a.urgency == UrgencyOf(a.daysRemaining)
  {
    var days := DaysRemaining(g.deadline, now);
    Annotated(g, days, UrgencyOf(days))
  }

  /** What every element of the output satisfies. */
  predicate WellAnnotated(a: Annotated) {
    a.daysRemaining >= 0 && a.urgency == UrgencyOf(a.daysRemaining)
  }

  /** How many grants still have days left. */
  function ActiveCount(ps: seq<Annotated>): (n: nat)
    ensures n <= |ps|
  {
    if ps == [] then 0
    else ActiveCount(ps[..|ps| - 1]) + (if ps[|ps| - 1].daysRemaining > 0 then 1 else 0)
  }

  /** How many grants are critical or high. */
  function UrgentCount(ps: seq<Annotated>): (n: nat)
    ensures n <= |ps|
  {
    if ps == [] then 0
    else UrgentCount(ps[..|ps| - 1]) + (if ps[|ps| - 1].urgency in {Critical, High} then 1 else 0)
  }

  function StatsOf(ps: seq<Annotated>): Stats {
    Stats(|ps|, ActiveCount(ps), UrgentCount(ps))
  }

  /** Every grant with no days left is critical, so the grants that are not
      active are among the urgent ones. */
  lemma {:induction false} InactiveAreUrgent(ps: seq<Annotated>)
    requires forall i :: 0 <= i < |ps| ==> WellAnnotated(ps[i])
    ensures |ps| - ActiveCount(ps) <= UrgentCount(ps)
  {
    if ps != [] {
      InactiveAreUrgent(ps[..|ps| - 1]);
    }
  }

  /** The three counts, related: active and urgent are at most the total,
      and total minus active is at most urgent. */
  lemma StatsBounds(ps: seq<Annotated>)
    requires forall i :: 0 <= i < |ps| ==> WellAnnotated(ps[i])
    ensures var s := StatsOf(ps);
      s.activeGrants <= s.totalResults && s.urgentGrants <= s.totalResults
      && s.totalResults - s.activeGrants <= s.urgentGrants
  {
    InactiveAreUrgent(ps);
  }

  /** `process_grants_data`: one pass annotating each grant in order, then
      the counts. */
  method ProcessGrantsData(grants: seq<Grant>, now: int) returns (processed: seq<Annotated>, stats: Stats)
    ensures |processed| == |grants|
    ensures forall i :: 0 <= i < |grants| ==> processed[i] == Annotate(grants[i], now)
    ensures forall i :: 0 <= i < |grants| ==> processed[i].grant == grants[i] && WellAnnotated(processed[i])
    ensures stats == StatsOf(processed)
    ensures stats.totalResults - stats.activeGrants <= stats.urgentGrants
  {
    processed := [];
    for i := 0 to |grants|
      invariant |processed| == i
      invariant forall j :: 0 <= j < i ==> processed[j] == Annotate(grants[j], now)
    {
      var daysRemaining := DaysRemaining(grants[i].deadline, now);
      var urgency;
      if daysRemaining <= 7 {
        urgency := Critical;
      } else if daysRemaining <= 30 {
        urgency := High;
      } else if daysRemaining <= 60 {
        urgency := Medium;
      } else {
        urgency := Low;
      }
      processed := processed + [Annotated(grants[i], daysRemaining, urgency)];
    }
    stats := StatsOf(processed);
    StatsBounds(processed);
  }
}
