/**
 * The aggregation half of the itinerary service: the total cost of a trip,
 * computed as the service computes it (a left fold over the activities,
 * starting from 0), and the laws that total obeys.
 */
module Itinerary {
  import opened Models

  /**
   * Reference definition: the sum of `cost` over a sequence of activities.
   * Defined independently of the fold the service uses.
   */
  function Sum(acts: seq<Activity>): (total: int)
  {
    if acts == [] then 0 else acts[0].cost + Sum(acts[1..])
  }

  /**
   * The reduce step of the service: starting from the running sum `acc`,
   * add each activity's cost in sequence order.
   */
  function FoldCost(acc: int, acts: seq<Activity>): (r: int)
    ensures r == acc + Sum(acts)
    decreases |acts|
  {
    if acts == [] then acc else FoldCost(acc + acts[0].cost, acts[1..])
  }

  /** The total cost of a trip: the fold over its activities, starting from 0. */
  function TotalCost(trip: Trip): (r: int)
    ensures r == Sum(trip.activities)
    ensures trip.activities == [] ==> r == 0
  {
    FoldCost(0, trip.activities)
  }

  /** The sum of a concatenation is the sum of the parts. */
  lemma {:induction false} SumConcat(s: seq<Activity>, t: seq<Activity>)
    ensures Sum(s + t) == Sum(s) + Sum(t)
    decreases |s|
  {
    if s == [] {
      assert s + t == t;
    } else {
      assert (s + t)[1..] == s[1..] + t;
      SumConcat(s[1..], t);
    }
  }

  /** Summation does not depend on the order in which two blocks of activities come. */
  lemma SumConcatCommutes(s: seq<Activity>, t: seq<Activity>)
    ensures Sum(s + t) == Sum(t + s)
  {
    SumConcat(s, t);
    SumConcat(t, s);
  }

  /** The fold step law: one more activity at the end adds exactly its cost. */
  lemma {:induction false} FoldCostAppend(acc: int, acts: seq<Activity>, a: Activity)
    ensures FoldCost(acc, acts + [a]) == FoldCost(acc, acts) + a.cost
  {
    SumConcat(acts, [a]);
  }

  /** Appending an activity to a trip raises its total cost by exactly that activity's cost. */
  lemma TotalCostAppend(trip: Trip, a: Activity)
    ensures TotalCost(trip.(activities := trip.activities + [a])) == TotalCost(trip) + a.cost
  {
    FoldCostAppend(0, trip.activities, a);
  }

  /** The total of two activity blocks placed one after the other is the sum of their totals. */
  lemma TotalCostConcat(trip: Trip, more: seq<Activity>)
    ensures TotalCost(trip.(activities := trip.activities + more))
            == TotalCost(trip) + Sum(more)
  {
    SumConcat(trip.activities, more);
  }

  /** With no negative cost, the sum is not negative. */
  lemma {:induction false} SumNonNegative(acts: seq<Activity>)
    requires forall i :: 0 <= i < |acts| ==> acts[i].cost >= 0
    ensures Sum(acts) >= 0
  {
    if acts != [] {
      assert forall i :: 0 <= i < |acts[1..]| ==> acts[1..][i] == acts[i + 1];
      SumNonNegative(acts[1..]);
    }
  }

  /** With no negative cost, a trip's total cost is not negative. */
  lemma TotalCostNonNegative(trip: Trip)
    requires forall i :: 0 <= i < |trip.activities| ==> trip.activities[i].cost >= 0
    ensures TotalCost(trip) >= 0
  {
    SumNonNegative(trip.activities);
  }
}
