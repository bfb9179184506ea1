/**
 * The budget service: setting a trip's budget, the remaining budget, the
 * advisory "would this activity exceed the budget" check, and the spending
 * breakdown per category. All figures derive from the itinerary total.
 */
module Budget {
  import opened Wrappers
  import opened Models
  import opened Itinerary

  /** The one error the budget service raises. */
  datatype BudgetError = NoBudgetSet

  /** The text the service's error carries. */
  function Message(e: BudgetError): (text: string)
  {
    match e
    case NoBudgetSet => "No budget set for this trip"
  }

  // ---------------------------------------------------------------- setBudget

  /**
   * Overwrites the trip's budget with `amount`, without validating it, and
   * returns the updated trip together with the value the service returns
   * (the budget just stored).
   */
  function SetBudget(trip: Trip, amount: int): (res: (Trip, int))
    ensures res.1 == amount
    ensures res.0.budget == Some(res.1)
    ensures res.0.activities == trip.activities
    ensures res.0.id == trip.id && res.0.destination == trip.destination
  {
    (trip.(budget := Some(amount)), amount)
  }

  /** A second call overwrites the first: the last amount set wins. */
  lemma SetBudgetLastWins(trip: Trip, first: int, second: int)
    ensures SetBudget(SetBudget(trip, first).0, second) == SetBudget(trip, second)
  {
  }

  /** Setting a budget does not change the trip's total cost. */
  lemma SetBudgetKeepsTotal(trip: Trip, amount: int)
    ensures TotalCost(SetBudget(trip, amount).0) == TotalCost(trip)
  {
  }

  // ------------------------------------------------------- getRemainingBudget

  /**
   * Budget minus total cost; fails with `NoBudgetSet` when the trip has no
   * budget. A negative value (over budget) is a result, not an error.
   */
  function GetRemainingBudget(trip: Trip): (r: Result<int, BudgetError>)
    ensures r.Failure? <==> trip.budget.None?
    ensures r.Failure? ==> r.error == NoBudgetSet
    ensures r.Success? ==> r.value == trip.budget.value - Sum(trip.activities)
  {
    match trip.budget
    case None => Failure(NoBudgetSet)
    case Some(b) => Success(b - TotalCost(trip))
  }

  /** Right after `SetBudget(trip, b)` the remaining budget is `b` minus the total. */
  lemma RemainingAfterSetBudget(trip: Trip, amount: int)
    ensures GetRemainingBudget(SetBudget(trip, amount).0) == Success(amount - TotalCost(trip))
  {
  }

  /** With costs that are not negative, the remaining budget never exceeds the budget. */
  lemma RemainingAtMostBudget(trip: Trip)
    requires trip.budget.Some?
    requires forall i :: 0 <= i < |trip.activities| ==> trip.activities[i].cost >= 0
    ensures GetRemainingBudget(trip).Success?
    ensures GetRemainingBudget(trip).value <= trip.budget.value
  {
    TotalCostNonNegative(trip);
  }

  /** Appending an activity lowers the remaining budget by exactly its cost. */
  lemma RemainingAfterAppend(trip: Trip, a: Activity)
    requires trip.budget.Some?
    ensures GetRemainingBudget(trip.(activities := trip.activities + [a])).Success?
    ensures GetRemainingBudget(trip.(activities := trip.activities + [a])).value
            == GetRemainingBudget(trip).value - a.cost
  {
    TotalCostAppend(trip, a);
  }

  // -------------------------------------------------------- wouldExceedBudget

  /**
   * Advisory check: would the total, with `a` added, be strictly greater than
   * the budget? Never true for a trip without a budget.
   */
  function WouldExceedBudget(trip: Trip, a: Activity): (r: bool)
    ensures trip.budget.None? ==> !r
    ensures trip.budget.Some? ==> (r <==> Sum(trip.activities) + a.cost > trip.budget.value)
    ensures trip.budget.Some? && Sum(trip.activities) + a.cost == trip.budget.value ==> !r
  {
    match trip.budget
    case None => false
    case Some(b) => TotalCost(trip) + a.cost > b
  }

  /** The check fails exactly when a budget is set and the remaining budget is below the cost. */
  lemma WouldExceedIffRemainingBelowCost(trip: Trip, a: Activity)
    ensures WouldExceedBudget(trip, a)
            <==> GetRemainingBudget(trip).Success? && GetRemainingBudget(trip).value < a.cost
  {
  }

  /**
   * The check predicts the append: with a budget set, it is true exactly when
   * the trip with `a` appended would have a negative remaining budget.
   */
  lemma WouldExceedIffOverAfterAppend(trip: Trip, a: Activity)
    requires trip.budget.Some?
    ensures WouldExceedBudget(trip, a)
            <==> GetRemainingBudget(trip.(activities := trip.activities + [a])).value < 0
  {
    RemainingAfterAppend(trip, a);
  }

  /** A dearer activity exceeds the budget whenever a cheaper one does. */
  lemma WouldExceedMonotone(trip: Trip, cheap: Activity, dear: Activity)
    requires cheap.cost <= dear.cost
    requires WouldExceedBudget(trip, cheap)
    ensures WouldExceedBudget(trip, dear)
  {
  }

  /**
   * Once a trip is over budget, every further activity that costs nothing or
   * more is flagged, and appending it keeps the trip over budget.
   */
  lemma OverBudgetPersists(trip: Trip, a: Activity)
    requires trip.budget.Some? && GetRemainingBudget(trip).value < 0
    requires a.cost >= 0
    ensures WouldExceedBudget(trip, a)
    ensures GetRemainingBudget(trip.(activities := trip.activities + [a])).value < 0
  {
    RemainingAfterAppend(trip, a);
  }

  // ---------------------------------------------------- getSpendingByCategory

  /** The activities of category `c`, each as many times as it occurs in `acts`. */
  function OfCategory(acts: seq<Activity>, c: Category): (r: seq<Activity>)
    ensures forall a :: a in r <==> a in acts && a.category == c
    ensures forall a :: multiset(r)[a] == if a.category == c then multiset(acts)[a] else 0
    ensures |r| <= |acts|
  {
    if acts == [] then []
    else
      assert acts == [acts[0]] + acts[1..];
      if acts[0].category == c then [acts[0]] + OfCategory(acts[1..], c)
      else OfCategory(acts[1..], c)
  }

  /** Reference definition: the total cost of the activities of category `c`. */
  function CategorySum(acts: seq<Activity>, c: Category): (total: int)
  {
    Sum(OfCategory(acts, c))
  }

  /** The starting breakdown: every category at 0. */
  const ZeroBreakdown: map<Category, int> := map[Food := 0, Transport := 0, Sightseeing := 0]

  /**
   * The reduce step of the service: add each activity's cost to its
   * category's entry, in sequence order. The keys never change.
   */
  function SpendingFold(acc: map<Category, int>, acts: seq<Activity>): (r: map<Category, int>)
    requires acc.Keys == AllCategories
    ensures r.Keys == AllCategories
    ensures forall c :: c in r ==> r[c] == acc[c] + CategorySum(acts, c)
    decreases |acts|
  {
    if acts == [] then acc
    else
      var a := acts[0];
      assert a.category in AllCategories by { assert a.category == Food || a.category == Transport || a.category == Sightseeing; }
      SpendingFold(acc[a.category := acc[a.category] + a.cost], acts[1..])
  }

  /**
   * The spending breakdown of a trip: an entry for each of the three
   * categories, each the total cost of that category's activities.
   */
  function GetSpendingByCategory(trip: Trip): (r: map<Category, int>)
    ensures r.Keys == AllCategories
    ensures forall c :: c in r ==> r[c] == Sum(OfCategory(trip.activities, c))
  {
    SpendingFold(ZeroBreakdown, trip.activities)
  }

  /** The per-category sums partition the total. */
  lemma {:induction false} CategorySumsPartition(acts: seq<Activity>)
    ensures CategorySum(acts, Food) + CategorySum(acts, Transport) + CategorySum(acts, Sightseeing)
            == Sum(acts)
    decreases |acts|
  {
    if acts != [] {
      CategorySumsPartition(acts[1..]);
    }
  }

  /** The three entries of the breakdown add up to the trip's total cost. */
  lemma SpendingAddsUpToTotal(trip: Trip)
    ensures var r := GetSpendingByCategory(trip);
            r[Food] + r[Transport] + r[Sightseeing] == TotalCost(trip)
  {
    CategorySumsPartition(trip.activities);
  }

  /** Selecting a category no activity has yields nothing. */
  lemma OfAbsentCategory(acts: seq<Activity>, c: Category)
    requires forall i :: 0 <= i < |acts| ==> acts[i].category != c
    ensures OfCategory(acts, c) == []
  {
  }

  /** A category without activities has entry 0. */
  lemma EmptyCategoryIsZero(trip: Trip, c: Category)
    requires forall i :: 0 <= i < |trip.activities| ==> trip.activities[i].category != c
    ensures c in GetSpendingByCategory(trip) && GetSpendingByCategory(trip)[c] == 0
  {
    OfAbsentCategory(trip.activities, c);
  }
}
