/** The catalog rows that the service listings, the search page and the home
    page read: `Service` and `Category` as the database returns them, with the
    text predicate the listings share. */
module Catalog {
  import opened Common

  datatype Category = Category(
    id: string,
    name: string,
    slug: string,
    description: Option<string>,
    isActive: bool)

  /** The public part of the steward that a listing includes with each service. */
  datatype Steward = Steward(
    id: string,
    name: string,
    image: Option<string>,
    rating: Option<real>,
    totalReviews: Option<int>)

  datatype Service = Service(
    id: string,
    title: string,
    description: string,
    price: real,
    currency: Option<string>,
    duration: int,
    images: seq<string>,
    category: Category,
    steward: Steward,
    isActive: bool,
    createdAt: int)

  /** The `OR` of the three case-insensitive `contains` conditions: on the
      title, on the description and on the category's name. */
  predicate MatchesText(s: Service, q: string) {
    || ContainsIgnoringCase(s.title, q)
    || ContainsIgnoringCase(s.description, q)
    || ContainsIgnoringCase(s.category.name, q)
  }

  /** The `createdAt` column as a sort key. */
  function CreatedAt(s: Service): real {
    s.createdAt as real
  }

  /** The `price` column as a sort key. */
  function Price(s: Service): real {
    s.price
  }

  /** The `duration` column as a sort key. */
  function Duration(s: Service): real {
    s.duration as real
  }

  /** The `isActive` column as a sort key: `false` before `true`. */
  function Activity(s: Service): real {
    if s.isActive then 1.0 else 0.0
  }

  /** The empty query matches every service. */
  lemma EmptyTextMatches(s: Service)
    ensures MatchesText(s, "")
  {
    ContainsEmpty(s.title);
  }
}
