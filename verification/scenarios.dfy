/** Worked examples: concrete trips and the figures the budget service yields for them. */
module Scenarios {
  import opened Wrappers
  import opened Models
  import opened Budget

  /** One food activity of 10 and one transport activity of 5 break down as 10 / 5 / 0. */
  lemma SpendingExample()
    ensures var trip := Trip("t1", "Lisbon", [Activity("a1", "Lunch", 10, Food),
                                             Activity("a2", "Tram", 5, Transport)], None);
            GetSpendingByCategory(trip) == map[Food := 10, Transport := 5, Sightseeing := 0]
  {
  }

  /**
   * No budget, one activity of 100: not flagged. Budget 80: remaining is -20,
   * and a further activity of 10 is flagged.
   */
  lemma BudgetWalkThrough()
    ensures var empty := Trip("t1", "Oslo", [], None);
            var museum := Activity("a1", "Museum", 100, Sightseeing);
            var ferry := Activity("a2", "Ferry", 10, Transport);
            var one := empty.(activities := empty.activities + [museum]);
            var budgeted := SetBudget(one, 80);
            && !WouldExceedBudget(empty, museum)
            && budgeted.1 == 80
            && GetRemainingBudget(budgeted.0) == Success(-20)
            && WouldExceedBudget(budgeted.0, ferry)
  {
  }
}
