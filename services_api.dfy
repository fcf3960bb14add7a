/** `GET /api/services`: the active services, optionally restricted to one
    category slug and to a free-text query, newest first. */
module ServicesApi {
  import opened Common
  import opened Ordering
  import opened Catalog

  datatype Response =
    | Listed(services: seq<Service>)  // 200, the bare array of services
    | InternalError                   // 500, text body 'Internal error'

  /** The `where` object: `isActive`, then the category condition when the
      `category` parameter is non-empty, then the text condition when `q` is
      non-empty. */
  predicate Selected(s: Service, categorySlug: Option<string>, query: Option<string>) {
    && s.isActive
    && (Truthy(categorySlug) ==> s.category.slug == categorySlug.value)
    && (Truthy(query) ==> MatchesText(s, query.value))
  }

  /** The handler; `dbFails` stands for a query that throws. */
  function Get(table: seq<Service>, categorySlug: Option<string>, query: Option<string>, dbFails: bool): (r: Response)
    ensures r.InternalError? <==> dbFails
    ensures r.Listed? ==> Sorted(r.services, CreatedAt, Desc)
    ensures r.Listed? ==> forall s :: s in r.services ==>
      && s in table
      && s.isActive
      && (Truthy(categorySlug) ==> s.category.slug == categorySlug.value)
      && (Truthy(query) ==> MatchesText(s, query.value))
    ensures r.Listed? ==> forall s :: s in table && Selected(s, categorySlug, query) ==>
      multiset(r.services)[s] == multiset(table)[s]
  {
    if dbFails then InternalError
    else
      var p := (s: Service) => Selected(s, categorySlug, query);
      SortedSelection(table, p, CreatedAt, Desc);
      Listed(SortBy(Filter(table, p), CreatedAt, Desc))
  }

  /** Absent and empty parameters impose no constraint: every active service
      is listed. */
  lemma NoParametersListsAllActive(table: seq<Service>, categorySlug: Option<string>, query: Option<string>)
    requires !Truthy(categorySlug) && !Truthy(query)
    ensures forall s :: s in table && s.isActive ==> s in Get(table, categorySlug, query, false).services
  {
    forall s | s in table && s.isActive
      ensures s in Get(table, categorySlug, query, false).services
    {
      assert Selected(s, categorySlug, query);
      assert multiset(table)[s] > 0;
    }
  }
}
