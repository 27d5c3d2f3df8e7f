/** The interval-based availability tracker every vertex delegates to. The
    planner library itself is not part of this model; this module gives it
    the smallest concrete semantics the matcher can be stated against: a
    planner has a base time, a horizon, a total per resource type and a log
    of the spans added so far, and the amount of a type available at an
    instant is its total minus what the spans covering that instant use. */
module Planners {
  import opened Wrappers

  /** The maximum number of resource types a planner tracks. */
  const PLANNER_NUM_TYPES: nat := 5

  datatype Span = Span(start: int, duration: nat, counts: seq<nat>)

  datatype Planner = Planner(
    baseTime: int,
    horizon: nat,
    resourceTypes: seq<string>,
    totals: seq<nat>,
    spans: seq<Span>)

  /** `planner_new`: NULL for an empty or too long type list or mismatched
      lengths, otherwise a planner with no span. */
  function PlannerNew(baseTime: int, horizon: nat, totals: seq<nat>, types: seq<string>): (r: Option<Planner>)
    ensures r.Some? <==> 0 < |totals| == |types| <= PLANNER_NUM_TYPES
    ensures r.Some? ==> r.value.spans == [] && r.value.totals == totals
                        && r.value.resourceTypes == types
                        && r.value.baseTime == baseTime && r.value.horizon == horizon
  {
    if 0 < |totals| == |types| <= PLANNER_NUM_TYPES then
      Some(Planner(baseTime, horizon, types, totals, []))
    else None
  }

  predicate Covers(sp: Span, t: int)
  {
    sp.start <= t < sp.start + sp.duration
  }

  /** What the spans use of type i at instant t. */
  function UsedAt(spans: seq<Span>, t: int, i: nat): nat
  {
    if |spans| == 0 then 0
    else
      var last := spans[|spans| - 1];
      UsedAt(spans[..|spans| - 1], t, i)
        + (if Covers(last, t) && i < |last.counts| then last.counts[i] else 0)
  }

  /** What is left of type i at instant t. */
  function AvailAt(p: Planner, t: int, i: nat): int
    requires i < |p.totals|
  {
    p.totals[i] - UsedAt(p.spans, t, i)
  }

  /** The window [at, at + duration) is non-empty and inside the horizon. */
  predicate InHorizon(p: Planner, at: int, duration: nat)
  {
    duration >= 1 && p.baseTime <= at && at + duration <= p.baseTime + p.horizon
  }

  /** The least amount of type i left over [at, at + duration). */
  function MinAvail(p: Planner, at: int, duration: nat, i: nat): int
    requires i < |p.totals| && duration >= 1
    decreases duration
  {
    if duration == 1 then AvailAt(p, at, i)
    else
      var rest := MinAvail(p, at + 1, duration - 1, i);
      if AvailAt(p, at, i) <= rest then AvailAt(p, at, i) else rest
  }

  /** `planner_avail_resources_during`: the least amount of type i left in
      the window, or -1 for a bad index or window. */
  function AvailResourcesDuring(p: Planner, at: int, duration: nat, i: nat): int
  {
    if i < |p.totals| && InHorizon(p, at, duration) then MinAvail(p, at, duration, i) else -1
  }

  /** The counts can be had throughout the window. */
  predicate Fits(p: Planner, at: int, duration: nat, counts: seq<nat>)
  {
    |counts| == |p.totals| && InHorizon(p, at, duration)
    && forall i :: 0 <= i < |counts| ==> counts[i] <= MinAvail(p, at, duration, i)
  }

  /** `planner_avail_during`: 0 when the counts fit, -1 otherwise. */
  function AvailDuring(p: Planner, at: int, duration: nat, counts: seq<nat>): (r: int)
    ensures r == 0 <==> Fits(p, at, duration, counts)
    ensures r == 0 || r == -1
  {
    if Fits(p, at, duration, counts) then 0 else -1
  }

  /** `planner_add_span`: a fitting span is appended and its id returned; any
      other request is refused with -1. */
  function AddSpan(p: Planner, at: int, duration: nat, counts: seq<nat>): (Planner, int)
  {
    if Fits(p, at, duration, counts) then
      (p.(spans := p.spans + [Span(at, duration, counts)]), |p.spans|)
    else (p, -1)
  }

  /** The first window start at or after `from` that fits, then the next,
      ... up to the end of the horizon: what `planner_avail_time_first` and
      `planner_avail_time_next` enumerate. */
  function AvailTimes(p: Planner, from: int, duration: nat, counts: seq<nat>): seq<int>
    decreases p.baseTime + p.horizon - from
  {
    if from + duration > p.baseTime + p.horizon || from > p.baseTime + p.horizon then []
    else (if Fits(p, from, duration, counts) then [from] else [])
         + AvailTimes(p, from + 1, duration, counts)
  }

  // ---------------------------------------------------------------------
  // Properties
  // ---------------------------------------------------------------------

  /** The least amount over a window is at most the amount at any instant of
      it, and is reached at some instant of it. */
  lemma {:induction false} MinAvailIsMin(p: Planner, at: int, duration: nat, i: nat)
    requires i < |p.totals| && duration >= 1
    ensures forall t :: at <= t < at + duration ==> MinAvail(p, at, duration, i) <= AvailAt(p, t, i)
    ensures exists t :: at <= t < at + duration && MinAvail(p, at, duration, i) == AvailAt(p, t, i)
    decreases duration
  {
    if duration > 1 {
      MinAvailIsMin(p, at + 1, duration - 1, i);
    } else {
      assert MinAvail(p, at, duration, i) == AvailAt(p, at, i);
    }
  }

  /** Appending a span adds its counts at exactly the instants it covers. */
  lemma UsedAtAppend(spans: seq<Span>, sp: Span, t: int, i: nat)
    ensures UsedAt(spans + [sp], t, i)
            == UsedAt(spans, t, i) + (if Covers(sp, t) && i < |sp.counts| then sp.counts[i] else 0)
  {
    assert (spans + [sp])[..|spans|] == spans;
  }

  /** A span that fits is logged under the next id and takes its counts
      from every instant of its window and from no other instant; a span that
      does not fit is refused and changes nothing. */
  lemma AddSpanEffect(p: Planner, at: int, duration: nat, counts: seq<nat>)
    ensures var (q, id) := AddSpan(p, at, duration, counts);
      q.totals == p.totals && q.baseTime == p.baseTime && q.horizon == p.horizon
      && q.resourceTypes == p.resourceTypes
      && (Fits(p, at, duration, counts) ==>
            id == |p.spans| && q.spans == p.spans + [Span(at, duration, counts)]
            && forall t, i :: 0 <= i < |p.totals| ==>
                 AvailAt(q, t, i) == AvailAt(p, t, i) - (if at <= t < at + duration then counts[i] else 0))
      && (!Fits(p, at, duration, counts) ==> id == -1 && q == p)
  {
    if Fits(p, at, duration, counts) {
      forall t, i | 0 <= i < |p.totals|
        ensures AvailAt(AddSpan(p, at, duration, counts).0, t, i)
                == AvailAt(p, t, i) - (if at <= t < at + duration then counts[i] else 0)
      {
        UsedAtAppend(p.spans, Span(at, duration, counts), t, i);
      }
    }
  }

  /** A planner never goes below zero: if nothing is over-committed, adding
      a span keeps it so. */
  lemma AddSpanKeepsCapacity(p: Planner, at: int, duration: nat, counts: seq<nat>)
    requires forall t, i :: 0 <= i < |p.totals| ==> AvailAt(p, t, i) >= 0
    ensures var q := AddSpan(p, at, duration, counts).0;
      forall t, i :: 0 <= i < |q.totals| ==> AvailAt(q, t, i) >= 0
  {
    AddSpanEffect(p, at, duration, counts);
    if Fits(p, at, duration, counts) {
      forall i | 0 <= i < |p.totals|
        ensures forall t :: at <= t < at + duration ==> counts[i] <= AvailAt(p, t, i)
      {
        MinAvailIsMin(p, at, duration, i);
      }
    }
  }

  /** A fresh planner offers its full totals over any window of its
      horizon. */
  lemma FreshPlannerIsFull(p: Planner, at: int, duration: nat, i: nat)
    requires p.spans == [] && i < |p.totals| && InHorizon(p, at, duration)
    ensures AvailResourcesDuring(p, at, duration, i) == p.totals[i]
  {
    MinAvailIsMin(p, at, duration, i);
  }

  /** The enumerated times are exactly the window starts from `from` on that
      fit, in increasing order. */
  lemma {:induction false} AvailTimesExact(p: Planner, from: int, duration: nat, counts: seq<nat>)
    ensures forall k :: 0 <= k < |AvailTimes(p, from, duration, counts)| ==>
              AvailTimes(p, from, duration, counts)[k] >= from
              && Fits(p, AvailTimes(p, from, duration, counts)[k], duration, counts)
    ensures forall t :: t >= from && Fits(p, t, duration, counts) ==> t in AvailTimes(p, from, duration, counts)
    ensures forall j, k :: 0 <= j < k < |AvailTimes(p, from, duration, counts)| ==>
              AvailTimes(p, from, duration, counts)[j] < AvailTimes(p, from, duration, counts)[k]
    decreases p.baseTime + p.horizon - from
  {
    if !(from + duration > p.baseTime + p.horizon || from > p.baseTime + p.horizon) {
      AvailTimesExact(p, from + 1, duration, counts);
    }
  }
}
