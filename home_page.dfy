/** The home page: each fetched category with the number of fetched services
    that belong to it. */
module HomePage {
  import opened Common
  import opened Ordering
  import opened Catalog

  datatype CategoryWithCount = CategoryWithCount(
    id: string,
    name: string,
    description: Option<string>,
    slug: string,
    icon: Option<string>,
    serviceCount: nat)

  /** `servicesData.filter((s) => s.category.id === c.id).length`. */
  function ServiceCount(services: seq<Service>, categoryId: string): nat {
    |Filter(services, (s: Service) => s.category.id == categoryId)|
  }

  /** The number of positions of `services` holding a service of category
      `categoryId`, counted one service at a time. */
  function Belonging(services: seq<Service>, categoryId: string): nat {
    if services == [] then 0
    else (if services[0].category.id == categoryId then 1 else 0) + Belonging(services[1..], categoryId)
  }

  /** The filter keeps one service per position that belongs. */
  lemma {:induction false} ServiceCountIsBelonging(services: seq<Service>, categoryId: string)
    ensures ServiceCount(services, categoryId) == Belonging(services, categoryId)
  {
    if services != [] {
      ServiceCountIsBelonging(services[1..], categoryId);
      assert services == [services[0]] + services[1..];
    }
  }

  function WithCount(c: Category, services: seq<Service>): (r: CategoryWithCount)
    ensures r.serviceCount == Belonging(services, c.id)
  {
    ServiceCountIsBelonging(services, c.id);
    CategoryWithCount(c.id, c.name, c.description, c.slug, None, ServiceCount(services, c.id))
  }

  /** The page's mapping. `fetched` is `None` when either request failed, in
      which case both lists stay empty. */
  function HomeCategories(fetched: Option<(seq<Category>, seq<Service>)>): (r: seq<CategoryWithCount>)
    ensures fetched.None? ==> r == []
    ensures fetched.Some? ==> |r| == |fetched.value.0|
    ensures fetched.Some? ==> forall i :: 0 <= i < |r| ==>
      var c := fetched.value.0[i];
      && r[i].id == c.id && r[i].name == c.name && r[i].slug == c.slug
      && r[i].description == c.description && r[i].icon.None?
      && r[i].serviceCount == Belonging(fetched.value.1, c.id)
      && (forall s :: s in fetched.value.1 && s.category.id == c.id ==> r[i].serviceCount > 0)
      && r[i].serviceCount <= |fetched.value.1|
  {
    match fetched
    case None => []
    case Some((cats, services)) =>
      seq(|cats|, i requires 0 <= i < |cats| => WithCount(cats[i], services))
  }

  /** A category's count is zero exactly when no fetched service belongs to
      it. */
  lemma CountIsZeroIffNoService(cats: seq<Category>, services: seq<Service>, i: nat)
    requires i < |cats|
    ensures HomeCategories(Some((cats, services)))[i].serviceCount == 0
            <==> forall s :: s in services ==> s.category.id != cats[i].id
  {
    var f := Filter(services, (s: Service) => s.category.id == cats[i].id);
    assert HomeCategories(Some((cats, services)))[i].serviceCount == |f|;
    if |f| > 0 {
      assert f[0] in f;
    }
  }

  /** The number of categories in `cats` whose id is `id`. */
  function Hits(cats: seq<Category>, id: string): nat {
    if cats == [] then 0 else (if cats[0].id == id then 1 else 0) + Hits(cats[1..], id)
  }

  function TotalCount(r: seq<CategoryWithCount>): nat {
    if r == [] then 0 else r[0].serviceCount + TotalCount(r[1..])
  }

  predicate DistinctIds(cats: seq<Category>) {
    forall i, j :: 0 <= i < j < |cats| ==> cats[i].id != cats[j].id
  }

  lemma {:induction false} HitsAtMostOne(cats: seq<Category>, id: string)
    requires DistinctIds(cats)
    ensures Hits(cats, id) <= 1
    ensures (forall c :: c in cats ==> c.id != id) ==> Hits(cats, id) == 0
  {
    if cats != [] {
      HitsAtMostOne(cats[1..], id);
      if cats[0].id == id {
        HitsNone(cats[1..], id);
      }
    }
  }

  lemma {:induction false} HitsNone(cats: seq<Category>, id: string)
    requires forall c :: c in cats ==> c.id != id
    ensures Hits(cats, id) == 0
  {
    if cats != [] {
      HitsNone(cats[1..], id);
    }
  }

  /** Adding one service in front adds, to the total over `cats`, one for each
      category it belongs to. */
  lemma {:induction false} TotalOfCons(cats: seq<Category>, s: Service, services: seq<Service>)
    ensures TotalCount(HomeCategories(Some((cats, [s] + services))))
         == Hits(cats, s.category.id) + TotalCount(HomeCategories(Some((cats, services))))
  {
    var l := [s] + services;
    assert l[1..] == services;
    if cats != [] {
      TotalOfCons(cats[1..], s, services);
      assert HomeCategories(Some((cats, l)))[1..] == HomeCategories(Some((cats[1..], l)));
      assert HomeCategories(Some((cats, services)))[1..] == HomeCategories(Some((cats[1..], services)));
    }
  }

  lemma {:induction false} TotalOfNoServices(cats: seq<Category>)
    ensures TotalCount(HomeCategories(Some((cats, [])))) == 0
  {
    if cats != [] {
      TotalOfNoServices(cats[1..]);
      assert HomeCategories(Some((cats, [])))[1..] == HomeCategories(Some((cats[1..], [])));
    }
  }

  /** With distinct category ids every service is counted at most once, so
      the counts add up to at most the number of services. */
  lemma {:induction false} CountsBounded(cats: seq<Category>, services: seq<Service>)
    requires DistinctIds(cats)
    ensures TotalCount(HomeCategories(Some((cats, services)))) <= |services|
  {
    if services == [] {
      TotalOfNoServices(cats);
    } else {
      assert services == [services[0]] + services[1..];
      TotalOfCons(cats, services[0], services[1..]);
      HitsAtMostOne(cats, services[0].category.id);
      CountsBounded(cats, services[1..]);
    }
  }

  /** A service whose category is not among the fetched categories changes no
      count. */
  lemma {:induction false} UnlistedCategoryCountsNothing(cats: seq<Category>, s: Service, services: seq<Service>)
    requires forall c :: c in cats ==> c.id != s.category.id
    ensures HomeCategories(Some((cats, [s] + services))) == HomeCategories(Some((cats, services)))
  {
    var l := [s] + services;
    assert l[1..] == services;
    forall i | 0 <= i < |cats|
      ensures ServiceCount(l, cats[i].id) == ServiceCount(services, cats[i].id)
    {
      assert cats[i] in cats;
    }
  }
}
