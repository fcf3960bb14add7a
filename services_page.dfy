/** The services page: `getServices` (the `sortBy` parameter split at ':',
    category and price-cap conditions), `getCategories` and the category
    whose slug the page was opened with. */
module ServicesPage {
  import opened Common
  import opened Ordering
  import opened Catalog

  /** `s.split(sep)`: the maximal pieces between separators. */
  function SplitOn(s: string, sep: char): (parts: seq<string>)
    ensures |parts| >= 1
    ensures forall i :: 0 <= i < |parts| ==> sep !in parts[i]
    ensures Join(parts, sep) == s
  {
    if s == [] then [""]
    else
      var rest := SplitOn(s[1..], sep);
      assert s == [s[0]] + s[1..];
      if s[0] == sep then [""] + rest
      else
        JoinHead([s[0]], rest, sep);
        [[s[0]] + rest[0]] + rest[1..]
  }

  /** `parts.join(sep)`. */
  function Join(parts: seq<string>, sep: char): string
    requires |parts| >= 1
  {
    if |parts| == 1 then parts[0] else parts[0] + [sep] + Join(parts[1..], sep)
  }

  lemma JoinHead(a: string, parts: seq<string>, sep: char)
    requires |parts| >= 1
    ensures Join([a + parts[0]] + parts[1..], sep) == a + Join(parts, sep)
  {
    var p := [a + parts[0]] + parts[1..];
    if |parts| > 1 {
      assert p[1..] == parts[1..];
    }
  }

  /** `const [sortField, sortOrder] = sortBy?.split(':') || ['createdAt', 'desc']`:
      the text before the first ':' is the field; the piece after it, up to a
      second ':' if any, is the direction. */
  function ParseSortBy(sortBy: Option<string>): (r: (string, Option<string>))
    ensures sortBy.None? ==> r == ("createdAt", Some("desc"))
    ensures sortBy.Some? ==> ':' !in r.0 && r.0 <= sortBy.value
    ensures sortBy.Some? ==> (r.1.None? <==> ':' !in sortBy.value)
    ensures sortBy.Some? && r.1.Some? ==> ':' !in r.1.value && r.0 + [':'] + r.1.value <= sortBy.value
    // Neither piece stops short: the field runs to the first ':' or the end,
    // the direction to the second ':' or the end.
    ensures sortBy.Some? && r.1.None? ==> r.0 == sortBy.value
    ensures sortBy.Some? && r.1.Some? ==>
      r.0 + [':'] + r.1.value == sortBy.value || r.0 + [':'] + r.1.value + [':'] <= sortBy.value
  {
    match sortBy
    case None => ("createdAt", Some("desc"))
    case Some(s) =>
      var parts := SplitOn(s, ':');
      JoinPrefixes(parts, ':');
      if |parts| == 1 then (parts[0], None)
      else (parts[0], Some(parts[1]))
  }

  /** The first piece, and with two or more pieces the first two with the
      separator between them, start the joined string; the separator occurs
      in it iff there are two or more pieces. */
  lemma JoinPrefixes(parts: seq<string>, sep: char)
    requires |parts| >= 1
    requires forall i :: 0 <= i < |parts| ==> sep !in parts[i]
    ensures parts[0] <= Join(parts, sep)
    ensures |parts| >= 2 ==> parts[0] + [sep] + parts[1] <= Join(parts, sep)
    ensures sep in Join(parts, sep) <==> |parts| >= 2
    ensures |parts| == 2 ==> parts[0] + [sep] + parts[1] == Join(parts, sep)
    ensures |parts| >= 3 ==> parts[0] + [sep] + parts[1] + [sep] <= Join(parts, sep)
  {
    if |parts| >= 2 {
      var j := Join(parts, sep);
      var tail := Join(parts[1..], sep);
      assert j == parts[0] + [sep] + tail;
      assert j[|parts[0]|] == sep;
      JoinPrefixes(parts[1..], sep);
      assert parts[1..][0] == parts[1];
      assert j == (parts[0] + [sep]) + tail;
    }
  }

  /** How the parsed pair is passed to `orderBy`. */
  datatype OrderBy =
    | Ordered(key: Service -> real, dir: Direction)
    | Unordered   // `{ [field]: undefined }`: Prisma drops the entry
    | Rejected    // the query fails and the page catches the error

  /** The scalar columns of a service that `orderBy` accepts: the numeric and
      boolean ones, and the non-nullable text ones. */
  const OrderableColumns: set<string> :=
    {"createdAt", "price", "duration", "isActive", "id", "title", "description"}

  /** `{ [field]: order }`. A text column is ordered by the database's
      collation, given as `collate`, a rank for each string. */
  function ResolveOrder(field: string, order: Option<string>, collate: string -> real): (o: OrderBy)
    ensures o.Ordered? <==> field in OrderableColumns && order in {Some("asc"), Some("desc")}
    ensures o.Unordered? <==> order.None?
    ensures o.Ordered? ==> o.dir == (if order == Some("asc") then Asc else Desc)
    ensures o.Ordered? && field == "createdAt" ==> forall s :: o.key(s) == s.createdAt as real
    ensures o.Ordered? && field == "price" ==> forall s :: o.key(s) == s.price
    ensures o.Ordered? && field == "duration" ==> forall s :: o.key(s) == s.duration as real
    ensures o.Ordered? && field == "isActive" ==> forall s :: o.key(s) == if s.isActive then 1.0 else 0.0
    ensures o.Ordered? && field == "id" ==> forall s :: o.key(s) == collate(s.id)
    ensures o.Ordered? && field == "title" ==> forall s :: o.key(s) == collate(s.title)
    ensures o.Ordered? && field == "description" ==> forall s :: o.key(s) == collate(s.description)
  {
    match order
    case None => Unordered
    case Some(dir) =>
      if (dir != "asc" && dir != "desc") || field !in OrderableColumns then Rejected
      else
        var d := if dir == "asc" then Asc else Desc;
        match field
        case "createdAt" => Ordered(CreatedAt, d)
        case "price" => Ordered(Price, d)
        case "duration" => Ordered(Duration, d)
        case "isActive" => Ordered(Activity, d)
        case "id" => Ordered((s: Service) => collate(s.id), d)
        case "title" => Ordered((s: Service) => collate(s.title), d)
        case _ => Ordered((s: Service) => collate(s.description), d)
  }

  /** The `where` object of `getServices`. */
  predicate Selected(s: Service, category: Option<string>, priceCap: Option<int>) {
    && s.isActive
    && (Truthy(category) ==> s.category.slug == category.value)
    && (priceCap.Some? ==> s.price <= priceCap.value as real)
  }

  /** `getServices`; `dbFails` stands for a query that throws. Every error
      yields the empty list. */
  function GetServices(table: seq<Service>, category: Option<string>, priceCap: Option<int>,
                       sortBy: Option<string>, collate: string -> real, dbFails: bool): (r: seq<Service>)
    ensures var (field, order) := ParseSortBy(sortBy);
      (dbFails || ResolveOrder(field, order, collate).Rejected?) ==> r == []
    ensures forall s :: s in r ==> s in table && Selected(s, category, priceCap)
    ensures var (field, order) := ParseSortBy(sortBy);
      !dbFails && !ResolveOrder(field, order, collate).Rejected? ==>
        forall s :: s in table && Selected(s, category, priceCap) ==> multiset(r)[s] == multiset(table)[s]
    ensures var (field, order) := ParseSortBy(sortBy);
      var o := ResolveOrder(field, order, collate);
      !dbFails && o.Ordered? ==> Sorted(r, o.key, o.dir)
  {
    var (field, order) := ParseSortBy(sortBy);
    var o := ResolveOrder(field, order, collate);
    if dbFails || o.Rejected? then []
    else
      var rows := Filter(table, (s: Service) => Selected(s, category, priceCap));
      if o.Unordered? then rows
      else
        var r := SortBy(rows, o.key, o.dir);
        assert forall s :: s in r ==> s in multiset(rows);
        r
  }

  /** Without `sortBy`, the result is ordered newest first. */
  lemma DefaultOrderIsNewestFirst(table: seq<Service>, category: Option<string>, priceCap: Option<int>,
                                  collate: string -> real)
    ensures Sorted(GetServices(table, category, priceCap, None, collate, false), CreatedAt, Desc)
  {
  }

  /** `getCategories`: the active categories, or none when the query throws. */
  function GetCategories(table: seq<Category>, dbFails: bool): (r: seq<Category>)
    ensures dbFails ==> r == []
    ensures !dbFails ==> forall c :: c in r <==> c in table && c.isActive
  {
    if dbFails then [] else Filter(table, (c: Category) => c.isActive)
  }

  /** `categories.find(c => c.slug === filters.category)`. */
  function CurrentCategory(categories: seq<Category>, slug: Option<string>): (r: Option<Category>)
    ensures r.Some? ==> slug.Some? && r.value in categories && r.value.slug == slug.value
    ensures r.Some? ==> exists i :: 0 <= i < |categories| && categories[i] == r.value &&
                                 forall j :: 0 <= j < i ==> categories[j].slug != slug.value
    ensures r.None? ==> slug.None? || forall c :: c in categories ==> c.slug != slug.value
  {
    if slug.None? || categories == [] then None
    else if categories[0].slug == slug.value then Some(categories[0])
    else
      var r := CurrentCategory(categories[1..], slug);
      if r.Some? then
        var i :| 0 < i + 1 <= |categories[1..]| && categories[1..][i] == r.value &&
          forall j :: 0 <= j < i ==> categories[1..][j].slug != slug.value;
        assert categories[i + 1] == r.value;
        assert forall j :: 1 <= j < i + 1 ==> categories[j].slug == categories[1..][j - 1].slug;
        r
      else
        assert forall c :: c in categories ==> c == categories[0] || c in categories[1..];
        r
  }
}
