/**
 * The trip and activity records the itinerary and budget services work on.
 * Only the fields those services read or write are kept; dates and times
 * are not part of this model.
 */
module Models {
  import opened Wrappers

  /** The closed set of activity categories. */
  datatype Category = Food | Transport | Sightseeing

  /** Every category, i.e. the keys of a spending breakdown. */
  const AllCategories: set<Category> := {Food, Transport, Sightseeing}

  /** One planned, costed event of a trip. Costs are exact integers. */
  datatype Activity = Activity(id: string, name: string, cost: int, category: Category)

  /**
   * One journey. `activities` is kept in insertion order; `budget` is
   * absent until it is first set and, as in the services, may be any number.
   */
  datatype Trip = Trip(id: string, destination: string, activities: seq<Activity>, budget: Option<int>)

}
