/** The search page: the `q` parameter normalised to one string, the
    case-insensitive search over title, description and category name, and
    the results message. */
module SearchPage {
  import opened Common
  import opened Ordering
  import opened Catalog

  /** A query-string parameter: absent, given once, or repeated. */
  datatype QueryParam = Absent | One(value: string) | Many(values: seq<string>)

  /** `Array.isArray(q) ? q[0] : q || ''`. */
  function NormaliseQuery(q: QueryParam): (r: string)
    ensures q.Absent? ==> r == ""
    ensures q.One? ==> r == q.value
    ensures q.Many? && q.values != [] ==> r == q.values[0]
  {
    match q
    case Absent => ""
    case One(s) => s
    case Many(vs) => if vs == [] then "" else vs[0]
  }

  predicate Selected(s: Service, query: string) {
    s.isActive && MatchesText(s, query)
  }

  /** `searchServices`; `dbFails` stands for a query that throws. */
  function SearchServices(table: seq<Service>, query: string, dbFails: bool): (r: seq<Service>)
    ensures dbFails ==> r == []
    ensures forall s :: s in r ==> s in table && s.isActive && MatchesText(s, query)
    ensures !dbFails ==> forall s :: s in table && Selected(s, query) ==> multiset(r)[s] == multiset(table)[s]
    ensures Sorted(r, CreatedAt, Desc)
  {
    if dbFails then []
    else
      var p := (s: Service) => Selected(s, query);
      SortedSelection(table, p, CreatedAt, Desc);
      SortBy(Filter(table, p), CreatedAt, Desc)
  }

  /** The empty query (an absent `q` included) finds every active service. */
  lemma {:induction false} EmptyQueryFindsAllActive(table: seq<Service>, q: QueryParam)
    requires q.Absent? || q == One("")
    ensures forall s :: s in table && s.isActive ==> s in SearchServices(table, NormaliseQuery(q), false)
  {
    forall s | s in table && s.isActive
      ensures s in SearchServices(table, NormaliseQuery(q), false)
    {
      EmptyTextMatches(s);
      assert multiset(table)[s] > 0;
    }
  }

  /** The sentence above the results. */
  datatype Message = Found(count: nat, query: string) | NoResults(query: string)

  function ResultsMessage(results: seq<Service>, query: string): (m: Message)
    ensures m.Found? <==> results != []
    ensures m.Found? ==> m.count == |results|
    ensures m.query == query
  {
    if |results| > 0 then Found(|results|, query) else NoResults(query)
  }
}
