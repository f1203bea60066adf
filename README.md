# New Jersey Basements: service-area data and index pages

This project is a Dafny model of the data layer and two index pages of the
New Jersey Basements website:

- the location table `locations` (74 communities, each with a name, a URL slug,
  a county, an optional population and a description), and its helpers:
  - `getLocationBySlug`, a first-match search by slug;
  - `getLocationsByCounty`, an order-preserving filter;
  - `counties`, the distinct counties sorted in ascending order;
- the service-area page, which:
  - groups the locations into one section per county, in the order of
    `counties`, and drops empty sections;
  - shows two figures: the number of communities served and the number of
    counties covered;
- the services index page, which:
  - renders one section per service category, in the order of
    `serviceCategories`;
  - renders nothing for a category without services;
  - links each service card to `/services/<slug>`.

Every helper takes the table as a parameter. `LocationTable.AllLocations` is
the site's own table, written out row by row, and lemmas about it establish:

- its 74 slugs are distinct, so every location's page resolves back to that
  location;
- its 15 counties, Atlantic to Union, are exactly what `counties` yields;
- the page therefore reads "74+" communities and "15" counties.

Files:

- `wrappers.dfy`: `Option`.
- `seqs.dfy`: the array operations the source uses (`find`, `filter`,
  `map`), a flattening of sections into the cards they list, and their
  properties.
- `strings.dfy`: JavaScript's default string order, sorting, and
  de-duplication in first-occurrence order (what `new Set` keeps).
- `locations.dfy`: the `Location` record and the three helpers of
  `src/data/locations.ts`.
- `location_table.dfy`: the literal table, the facts proved about it, and
  the page figures it yields.
- `locations_page.dfy`: the county grouping and figures of `src/app/locations/page.tsx`.
- `services_page.dfy`: the category grouping and links of `src/app/services/page.tsx`.

## Model

| member | source | states |
|---|---|---|
| Seqs.Find | src/data/locations.ts:87 | `find` returns nothing exactly when no element satisfies the predicate; otherwise it returns the element at the first index that does |
| Seqs.Filter | src/data/locations.ts:91 | `filter` keeps an element exactly when the input holds it and the predicate accepts it, and never lengthens the list |
| Seqs.FilterCounts | src/data/locations.ts:91 | `filter` keeps each accepted element exactly as often as the input holds it, and no rejected element |
| Seqs.FilterSelectsPositions | src/data/locations.ts:91 | `filter` keeps input order: its k-th result is the input element at the k-th accepted position |
| Seqs.FilterKeepsKeysDistinct | src/data/locations.ts:91 | when no two input elements share a key, no two elements of the `filter` result do |
| Seqs.Map | src/data/locations.ts:94 | `map` yields one result per input element, in order: the i-th result is the callback applied to the i-th element |
| Strings.LessIsLexicographic | src/data/locations.ts:94 | the comparator of the comparator-less `sort` (`Strings.Less`) orders `a` before `b` exactly when `a` is a proper prefix of `b` or, at the first index where they differ, `a` has the smaller character |
| Strings.LessTotal | src/data/locations.ts:94 | the default `sort` order is total and asymmetric: two different strings are ordered exactly one way |
| Strings.Sort | src/data/locations.ts:94 | the result of `sort` is ascending and is a permutation of its input |
| Strings.Dedup | src/data/locations.ts:94 | the list made from a `Set` has no repeats and holds the same strings as its input |
| Strings.StrictlySortedUnique | src/data/locations.ts:94 | two strictly ascending lists with the same members are equal, so `counties` does not depend on the sorting algorithm |
| Locations.LocationBySlug | src/data/locations.ts:86-88 | `getLocationBySlug` returns a location of the table with the slug, namely the first one; it returns nothing exactly when no location has the slug |
| Locations.LookupRoundTrip | src/data/locations.ts:86-88 | if the table's slugs are distinct, looking up any location's slug returns that location |
| Locations.LocationsInCounty | src/data/locations.ts:90-92 | `getLocationsByCounty` returns exactly the table's locations in the county, and at most as many as the table has |
| Locations.CountySlugsDistinct | src/data/locations.ts:90-92 | when the table's slugs are unique, so are the slugs of the locations of any one county |
| Locations.CountyListEmpty | src/data/locations.ts:90-92 | the result is empty exactly when no location lies in the county |
| Locations.LocationsInCountyCounts | src/data/locations.ts:90-92 | each location of the county is returned as often as the table lists it |
| Locations.LocationsInCountyInOrder | src/data/locations.ts:90-92 | the result lists the county's locations in table order |
| Locations.CountyColumn | src/data/locations.ts:94 | `locations.map(l => l.county)` has one entry per location, the i-th being the county of the i-th location |
| Locations.Counties | src/data/locations.ts:94 | `counties` is strictly ascending and lists the county of every location |
| Locations.CountiesFromColumn | src/data/locations.ts:94 | `counties` lists nothing but values of the county column |
| Locations.CountyHasLocation | src/data/locations.ts:94 | every name in `counties` is the county of some location of the table |
| LocationTable.AllLocations | src/data/locations.ts:9-84 | the table `locations`, row for row in source order; it has 74 rows |
| LocationTable.AllLocationsSlugsDistinct | src/data/locations.ts:9-84 | no two rows of the table share a slug |
| LocationTable.AllLocationsLookupRoundTrip | src/data/locations.ts:9-88 | looking up the slug of any row of the table returns that row |
| LocationTable.AllLocationsUnknownSlug | src/data/locations.ts:9-88 | a slug that is none of the 74 finds nothing |
| LocationTable.NewarkExample | src/data/locations.ts:9-88 | the slug `newark` finds Newark, in Essex county |
| LocationTable.BostonExample | src/data/locations.ts:9-88 | the slug `boston` finds nothing |
| LocationTable.AllLocationsCountiesKnown | src/data/locations.ts:9-84 | every row lies in one of the 15 counties Atlantic, Bergen, Burlington, Camden, Cumberland, Essex, Hudson, Mercer, Middlesex, Monmouth, Morris, Ocean, Passaic, Somerset, Union |
| LocationTable.CountyNamesOccur | src/data/locations.ts:9-94 | each of those 15 counties is listed in `counties` |
| LocationTable.CountiesWithinNames | src/data/locations.ts:9-94 | `counties` lists no other county |
| LocationTable.CountyNamesSorted | src/data/locations.ts:94 | the 15 names, in the order given, are strictly ascending |
| LocationTable.AllLocationsCounties | src/data/locations.ts:94 | `counties` for the site's table is exactly those 15 names in that order |
| LocationsPage.GroupOf | src/app/locations/page.tsx:13-15 | the `map` callback builds a section named after the county that holds exactly the table's locations in that county |
| LocationsPage.AllGroups | src/app/locations/page.tsx:13-15 | before the final `filter` there is one section per entry of `counties`, in that order, each with that county's locations |
| LocationsPage.LocationsByCountyGroups | src/app/locations/page.tsx:13-16 | every section of `locationsByCounty` lists exactly the locations of its county, is non-empty, and is headed by a county of `counties` |
| LocationsPage.GroupsFollowCounties | src/app/locations/page.tsx:13-16 | no section is dropped: there is one per county, in the order of `counties` |
| LocationsPage.GroupNamesAscending | src/app/locations/page.tsx:13-16 | the county headings appear in strictly ascending order |
| LocationsPage.GroupMembers | src/app/locations/page.tsx:15 | a location is in a section exactly when the table has it and it lies in that section's county |
| LocationsPage.CountiesDistinct | src/data/locations.ts:94 | `counties` has no repeats |
| LocationsPage.GroupsCountedByCounty | src/app/locations/page.tsx:13-16 | section i holds each location of the i-th county exactly as often as the table does, and nothing else |
| LocationsPage.GroupsPartitionTable | src/app/locations/page.tsx:13-16 | the sections, taken in order, list the table's locations with the same multiplicities: none is lost or duplicated |
| LocationsPage.EachLocationListed | src/app/locations/page.tsx:13-16 | every location of the table appears in some section |
| LocationsPage.LocationListedOnce | src/app/locations/page.tsx:13-16 | no location appears in two different sections |
| LocationsPage.CountyKeysDistinct | src/app/locations/page.tsx:72 | the section keys `county.name` are pairwise different |
| LocationsPage.LocationKeysDistinct | src/app/locations/page.tsx:80 | when the table's slugs are unique, the link keys `location.slug` within each section are pairwise different |
| LocationsPage.PageFigures | src/app/locations/page.tsx:48-52 | the "Communities Served" figure equals the number of entries the page lists, and "Counties Covered" equals the number of sections it shows |
| LocationTable.AllLocationsFigures | src/app/locations/page.tsx:48-52 | for the site's table the page shows 74 communities and 15 counties |
| ServicesPage.ServicesIn | src/app/services/page.tsx:42 | `categoryServices` holds exactly the services whose `category` is the category's slug |
| ServicesPage.ServicesInOrder | src/app/services/page.tsx:42 | `categoryServices` keeps the order of `services` |
| ServicesPage.ServicesInCounts | src/app/services/page.tsx:42 | each service of the category is kept as often as `services` holds it |
| ServicesPage.SectionFor | src/app/services/page.tsx:42-43 | the callback returns no section exactly when no service is in the category; otherwise it returns the category with its services |
| ServicesPage.Sections | src/app/services/page.tsx:41-43 | there are at most as many sections as categories; each lists exactly its category's services and none is empty |
| ServicesPage.SectionsFollowCategories | src/app/services/page.tsx:41-43 | the sections are the categories that have services, each with its services, in the order of `serviceCategories` |
| ServicesPage.EmptyCategoryHidden | src/app/services/page.tsx:43 | no section carries the slug of a category that has no services |
| ServicesPage.ListedSnoc | src/app/services/page.tsx:41-43 | appending a category appends its services to the cards shown, and adds nothing when it has none |
| ServicesPage.ListedExactly | src/app/services/page.tsx:41-42 | a service is shown exactly when it is in `services` and its category equals the slug of some category |
| ServicesPage.ListedCounts | src/app/services/page.tsx:41-42 | with distinct category slugs, every shown service appears as often as `services` holds it, so each service is shown at most once |
| ServicesPage.CategoryKeysDistinct | src/app/services/page.tsx:46 | when the category slugs are unique, the section keys `category.slug` are pairwise different |
| ServicesPage.ServiceKeysDistinct | src/app/services/page.tsx:53 | when the service slugs are unique, the card keys `service.slug` within each section are pairwise different |
| ServicesPage.ServiceHref | src/app/services/page.tsx:54 | a card's link is `/services/` followed by the service's slug |
| ServicesPage.HrefInjective | src/app/services/page.tsx:54 | two cards link to the same page exactly when their slugs are equal |

Neither page's sections are a plain partition of its list:

- The category sections do not always hold `services` exactly once. The
  page drops a service whose `category` matches no category slug
  (`ServicesPage.ListedExactly`). It shows a service once for each category
  that has its slug, so `ServicesPage.ListedCounts` requires distinct slugs.
- The county sections, taken together, list the table's locations in
  county order, not in table order. Only the multiplicities are kept
  (`LocationsPage.GroupsPartitionTable`).

## Left out

- Markup, styling, metadata, icons and the static texts of both pages are
  not modelled, nor is the fixed "2,500+ Projects Completed" figure. The
  phone link built from the site configuration is also out.
- The service data file (`services`, `serviceCategories`, the service
  lookups) is not part of this model. The services page is modelled over
  any two lists given as parameters. A service keeps only the fields the
  page reads.
- Header, footer, contact form, home page and the per-location and
  per-service route pages are not part of this model. This includes the
  `/locations/<slug>` link at src/app/locations/page.tsx:81.
- The inline filter at src/app/locations/page.tsx:15 is the same
  predicate as `getLocationsByCounty`, so the model reuses
  `Locations.LocationsInCounty` for it.
- Strings.Less: compares Dafny characters, where JavaScript's default
  `sort` compares UTF-16 code units. The two agree on the ASCII county
  names of the table. Surrogate pairs outside the Basic Multilingual Plane
  are not modelled.
- Strings.Sort: an insertion sort stands in for the engine's sort.
  `Strings.StrictlySortedUnique` shows that any correct sort of distinct
  strings gives the same list.
- Strings.Dedup: keeps the first occurrence of each county, as a `Set`'s
  insertion order does. That order is only observable before the sort.
- `population` is an optional integer, not a JavaScript number. Nothing
  computes with it.
- React's rendering of `null` children is modelled only through its
  result: `Sections` omits the null entries. React's checks of `key` props
  are not modelled. The key lemmas state that the keys are unique. For the
  services page they assume unique slugs, because the service data is not
  part of this model.
