/**
 * The services index page (src/app/services/page.tsx): one section per
 * service category, in the order of `serviceCategories`, listing the
 * services of that category; a category without services renders nothing.
 * Each listed service links to its own page.
 *
 * The service data (`services`, `serviceCategories`) is not part of this
 * model: every function here takes both lists as parameters.
 */
module ServicesPage {
  import opened Wrappers
  import opened Seqs

  /** A service as the page reads it: the fields it renders or compares. */
  datatype Service = Service(name: string, slug: string, category: string, shortDescription: string)

  /** An entry of `serviceCategories`. */
  datatype ServiceCategory = ServiceCategory(name: string, slug: string)

  /** One rendered section: its category heading and its service cards. */
  datatype Section = Section(category: ServiceCategory, services: seq<Service>)

  /** The predicate of the inner `filter(s => s.category === category.slug)`. */
  function InCategory(slug: string): Service -> bool {
    (s: Service) => s.category == slug
  }

  /** `categoryServices`: the services of one category, in the order of `services`. */
  function ServicesIn(services: seq<Service>, category: ServiceCategory): (r: seq<Service>)
    ensures forall s {:trigger s in r} :: s in r <==> s in services && s.category == category.slug
  {
    Filter(services, InCategory(category.slug))
  }

  /**
   * `categoryServices` lists the category's services in the order of
   * `services`: its k-th entry is the k-th service of the category.
   */
  lemma ServicesInOrder(services: seq<Service>, category: ServiceCategory)
    ensures |ServicesIn(services, category)| == |Positions(services, InCategory(category.slug))|
    ensures forall k :: 0 <= k < |ServicesIn(services, category)| ==>
      ServicesIn(services, category)[k] == services[Positions(services, InCategory(category.slug))[k]]
  {
    FilterSelectsPositions(services, InCategory(category.slug));
  }

  /** Each service of the category is listed as often as `services` holds it. */
  lemma ServicesInCounts(services: seq<Service>, category: ServiceCategory)
    ensures forall s {:trigger multiset(ServicesIn(services, category))[s]} ::
      multiset(ServicesIn(services, category))[s] ==
        if s.category == category.slug then multiset(services)[s] else 0
  {
    FilterCounts(services, InCategory(category.slug));
  }

  /**
   * The callback of `serviceCategories.map`: no section (`return null`)
   * exactly when no service is in the category, and otherwise the
   * category with its services.
   */
  function SectionFor(services: seq<Service>, category: ServiceCategory): (r: Option<Section>)
    ensures r.None? <==> ServicesIn(services, category) == []
    ensures r.None? <==> forall s {:trigger s in services} :: s in services ==> s.category != category.slug
    ensures r.Some? ==> r.value.category == category && r.value.services == ServicesIn(services, category)
  {
    var listed := ServicesIn(services, category);
    assert listed != [] ==> listed[0] in listed;
    forall s | s in services && s.category == category.slug ensures s in listed {}
    if |listed| == 0 then None else Some(Section(category, listed))
  }

  /**
   * The sections the page renders: the non-null results of the `map`, in
   * the order of `serviceCategories`. Every section lists exactly its
   * category's services and none is empty.
   */
  function Sections(services: seq<Service>, categories: seq<ServiceCategory>): (r: seq<Section>)
    ensures |r| <= |categories|
    ensures forall i :: 0 <= i < |r| ==> r[i].category in categories
    ensures forall i :: 0 <= i < |r| ==> r[i].services == ServicesIn(services, r[i].category)
    ensures forall i :: 0 <= i < |r| ==> |r[i].services| > 0
  {
    if categories == [] then []
    else
      var init, last := categories[..|categories| - 1], categories[|categories| - 1];
      assert forall c :: c in init ==> c in categories;
      var rest := Sections(services, init);
      match SectionFor(services, last)
      case None => rest
      case Some(section) => rest + [section]
  }

  /** Whether a category gets a section. */
  function HasServices(services: seq<Service>): ServiceCategory -> bool {
    (c: ServiceCategory) => ServicesIn(services, c) != []
  }

  /** A category's section. */
  function SectionOf(services: seq<Service>): ServiceCategory -> Section {
    (c: ServiceCategory) => Section(c, ServicesIn(services, c))
  }

  /**
   * The sections are exactly the categories that have services, kept in the
   * order of `serviceCategories`, each with its services.
   */
  lemma {:induction false} SectionsFollowCategories(services: seq<Service>, categories: seq<ServiceCategory>)
    ensures Sections(services, categories) == Map(Filter(categories, HasServices(services)), SectionOf(services))
  {
    if categories != [] {
      var init, last := categories[..|categories| - 1], categories[|categories| - 1];
      SectionsFollowCategories(services, init);
      InitLast(categories);
      FilterSnoc(init, last, HasServices(services));
      var kept := Filter(init, HasServices(services));
      if ServicesIn(services, last) != [] {
        assert Sections(services, categories) == Sections(services, init) + [SectionOf(services)(last)];
        MapSnoc(kept, last, SectionOf(services));
      } else {
        assert Sections(services, categories) == Sections(services, init);
      }
    }
  }

  /** A category none of whose services exist gets no section. */
  lemma EmptyCategoryHidden(services: seq<Service>, categories: seq<ServiceCategory>, category: ServiceCategory)
    requires forall s {:trigger s in services} :: s in services ==> s.category != category.slug
    ensures forall i :: 0 <= i < |Sections(services, categories)| ==>
      Sections(services, categories)[i].category.slug != category.slug
  {
    var r := Sections(services, categories);
    forall i | 0 <= i < |r| ensures r[i].category.slug != category.slug {
      var s := r[i].services[0];
      assert s in ServicesIn(services, r[i].category);
    }
  }

  /** The card list of one section. */
  function ServicesOf(section: Section): seq<Service> {
    section.services
  }

  /** Every card the page shows, section after section. */
  function Listed(sections: seq<Section>): seq<Service> {
    Flatten(Map(sections, ServicesOf))
  }

  /** The slug of a category, as a named function. */
  function CategorySlug(c: ServiceCategory): string {
    c.slug
  }

  /** One more category appends that category's services to the cards, or nothing when it has none. */
  lemma ListedSnoc(services: seq<Service>, init: seq<ServiceCategory>, last: ServiceCategory)
    ensures Listed(Sections(services, init + [last])) == Listed(Sections(services, init)) + ServicesIn(services, last)
  {
    var categories := init + [last];
    assert categories[..|categories| - 1] == init;
    var rest := Sections(services, init);
    match SectionFor(services, last)
    case None =>
      assert ServicesIn(services, last) == [];
    case Some(section) =>
      MapSnoc(rest, section, ServicesOf);
      FlattenSnoc(Map(rest, ServicesOf), section.services);
  }

  /**
   * A service is shown exactly when it is one of `services` and its
   * category is the slug of some entry of `serviceCategories`.
   */
  lemma {:induction false} ListedExactly(services: seq<Service>, categories: seq<ServiceCategory>, s: Service)
    ensures s in Listed(Sections(services, categories)) <==> s in services && s.category in Map(categories, CategorySlug)
  {
    if categories != [] {
      var init, last := categories[..|categories| - 1], categories[|categories| - 1];
      ListedExactly(services, init, s);
      InitLast(categories);
      ListedSnoc(services, init, last);
      MapSnoc(init, last, CategorySlug);
    }
  }

  /**
   * With distinct category slugs, each service is shown exactly as often as
   * `services` holds it when its category has a slug in the list, and not
   * at all otherwise; so a service listed once in `services` is shown at
   * most once.
   */
  lemma {:induction false} ListedCounts(services: seq<Service>, categories: seq<ServiceCategory>)
    requires Distinct(Map(categories, CategorySlug))
    ensures forall s {:trigger multiset(Listed(Sections(services, categories)))[s]} ::
      multiset(Listed(Sections(services, categories)))[s] ==
        if s.category in Map(categories, CategorySlug) then multiset(services)[s] else 0
  {
    if categories != [] {
      var init, last := categories[..|categories| - 1], categories[|categories| - 1];
      var slugs := Map(categories, CategorySlug);
      InitLast(categories);
      MapSnoc(init, last, CategorySlug);
      assert Distinct(Map(init, CategorySlug));
      assert last.slug !in Map(init, CategorySlug);
      ListedCounts(services, init);
      ListedSnoc(services, init, last);
      ServicesInCounts(services, last);
    }
  }

  /** The slug of a service, as a named function. */
  function ServiceSlug(s: Service): string {
    s.slug
  }

  /** With unique category slugs, the section keys (`key={category.slug}`) are unique. */
  lemma CategoryKeysDistinct(services: seq<Service>, categories: seq<ServiceCategory>)
    requires Distinct(Map(categories, CategorySlug))
    ensures forall i, j :: 0 <= i < j < |Sections(services, categories)| ==>
      Sections(services, categories)[i].category.slug != Sections(services, categories)[j].category.slug
  {
    var slugs := Map(categories, CategorySlug);
    forall i, j | 0 <= i < j < |categories| ensures CategorySlug(categories[i]) != CategorySlug(categories[j]) {
      assert slugs[i] != slugs[j];
    }
    SectionsFollowCategories(services, categories);
    FilterKeepsKeysDistinct(categories, HasServices(services), CategorySlug);
  }

  /** With unique service slugs, the card keys (`key={service.slug}`) within a section are unique. */
  lemma ServiceKeysDistinct(services: seq<Service>, categories: seq<ServiceCategory>, i: nat)
    requires forall j, k :: 0 <= j < k < |services| ==> services[j].slug != services[k].slug
    requires i < |Sections(services, categories)|
    ensures forall j, k :: 0 <= j < k < |Sections(services, categories)[i].services| ==>
      Sections(services, categories)[i].services[j].slug != Sections(services, categories)[i].services[k].slug
  {
    var category := Sections(services, categories)[i].category;
    FilterKeepsKeysDistinct(services, InCategory(category.slug), ServiceSlug);
  }

  /** `/services/${service.slug}`: the link of a service card. */
  function ServiceHref(service: Service): (r: string)
    ensures |r| == 10 + |service.slug|
    ensures r[..10] == "/services/" && r[10..] == service.slug
  {
    "/services/" + service.slug
  }

  /** Two cards link to the same page exactly when their services share a slug. */
  lemma HrefInjective(a: Service, b: Service)
    ensures ServiceHref(a) == ServiceHref(b) <==> a.slug == b.slug
  {
    if ServiceHref(a) == ServiceHref(b) {
      assert a.slug == ServiceHref(a)[10..];
    }
  }
}
