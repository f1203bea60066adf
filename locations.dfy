/**
 * The table of communities the business serves and its three query helpers
 * (src/data/locations.ts). The helpers read the module-level array
 * `locations`; here they take the table as a parameter, and `LocationTable.AllLocations`
 * is that array.
 */
module Locations {
  import opened Wrappers
  import opened Seqs
  import opened Strings

  /** A served community. The source leaves `population` optional. */
  datatype Location = Location(
    name: string,
    slug: string,
    county: string,
    population: Option<int>,
    description: string)

  /** The predicate of `getLocationBySlug`'s `find`. */
  function HasSlug(slug: string): Location -> bool {
    (l: Location) => l.slug == slug
  }

  /** The predicate of `getLocationsByCounty`'s `filter`. */
  function InCounty(county: string): Location -> bool {
    (l: Location) => l.county == county
  }

  /** Slugs are unique keys of the table. */
  predicate SlugsDistinct(table: seq<Location>) {
    forall i, j :: 0 <= i < j < |table| ==> table[i].slug != table[j].slug
  }

  /**
   * `getLocationBySlug`: the first location with the given slug, or `None`
   * (the source's `undefined`, which its callers turn into a not-found page).
   */
  function LocationBySlug(table: seq<Location>, slug: string): (r: Option<Location>)
    ensures r.Some? ==> r.value in table && r.value.slug == slug
    ensures r.None? <==> forall l {:trigger l in table} :: l in table ==> l.slug != slug
    ensures r.Some? ==>
      exists i :: 0 <= i < |table| && r.value == table[i] && forall j :: 0 <= j < i ==> table[j].slug != slug
  {
    Find(table, HasSlug(slug))
  }

  /** With unique slugs, looking up the slug of any location finds that location. */
  lemma LookupRoundTrip(table: seq<Location>, l: Location)
    requires SlugsDistinct(table)
    requires l in table
    ensures LocationBySlug(table, l.slug) == Some(l)
  {
    var r := LocationBySlug(table, l.slug);
    var i :| 0 <= i < |table| && r.value == table[i] && forall j :: 0 <= j < i ==> table[j].slug != l.slug;
    var k :| 0 <= k < |table| && table[k] == l;
    assert !(k < i) && !(i < k);
  }

  /**
   * `getLocationsByCounty`: the locations of the county, and nothing else;
   * how often each is kept is `LocationsInCountyCounts` and the order is
   * `LocationsInCountyInOrder`.
   */
  function LocationsInCounty(table: seq<Location>, county: string): (r: seq<Location>)
    ensures forall l {:trigger l in r} {:trigger l in table} :: l in r <==> l in table && l.county == county
    ensures |r| <= |table|
  {
    var r := Filter(table, InCounty(county));
    // Names a member of a non-empty result, so that the membership clause
    // of `Filter` applies to it.
    assert r != [] ==> r[0] in r;
    r
  }

  /** The list is empty exactly when no location lies in the county. */
  lemma CountyListEmpty(table: seq<Location>, county: string)
    ensures LocationsInCounty(table, county) == [] <==> forall l {:trigger l in table} :: l in table ==> l.county != county
  {
    var r := LocationsInCounty(table, county);
    // A non-empty result has a member, which lies in the county.
    assert r != [] ==> r[0] in r;
  }

  /** The slug of a location, as a named function. */
  function SlugOf(l: Location): string {
    l.slug
  }

  /** With unique slugs in the table, the locations of one county have unique slugs. */
  lemma CountySlugsDistinct(table: seq<Location>, county: string)
    requires SlugsDistinct(table)
    ensures SlugsDistinct(LocationsInCounty(table, county))
  {
    FilterKeepsKeysDistinct(table, InCounty(county), SlugOf);
  }

  /**
   * Each location of the county is kept exactly as often as the table lists
   * it, and every other location not at all.
   */
  lemma LocationsInCountyCounts(table: seq<Location>, county: string)
    ensures forall l {:trigger multiset(LocationsInCounty(table, county))[l]} ::
      multiset(LocationsInCounty(table, county))[l] ==
        if l.county == county then multiset(table)[l] else 0
  {
    FilterCounts(table, InCounty(county));
  }

  /**
   * The result of `getLocationsByCounty` lists the table's locations of the
   * county in table order: its k-th entry is the table row at the k-th
   * position whose county matches.
   */
  lemma LocationsInCountyInOrder(table: seq<Location>, county: string)
    ensures |LocationsInCounty(table, county)| == |Positions(table, InCounty(county))|
    ensures forall k :: 0 <= k < |LocationsInCounty(table, county)| ==>
      LocationsInCounty(table, county)[k] == table[Positions(table, InCounty(county))[k]]
  {
    FilterSelectsPositions(table, InCounty(county));
  }

  /** The county a location lies in, as a named function. */
  function CountyOf(l: Location): string {
    l.county
  }

  /** The county of each location, in table order (`locations.map(l => l.county)`). */
  function CountyColumn(table: seq<Location>): (r: seq<string>)
    ensures |r| == |table|
    ensures forall i :: 0 <= i < |table| ==> r[i] == table[i].county
  {
    Map(table, CountyOf)
  }

  /**
   * `counties`: every county that some location lies in, once each, in
   * ascending order. Which county a listed name comes from is
   * `CountyHasLocation`.
   */
  function Counties(table: seq<Location>): (r: seq<string>)
    ensures StrictlySorted(r)
    ensures forall l {:trigger l in table} :: l in table ==> l.county in r
  {
    var column := CountyColumn(table);
    var names := Dedup(column);
    var r := Sort(names);
    SortKeepsDistinct(names);
    SortedDistinctIsStrict(r);
    assert forall c :: c in r <==> c in names by {
      forall c ensures c in r <==> c in names {
        assert c in r <==> c in multiset(r);
        assert c in names <==> c in multiset(names);
      }
    }
    assert forall l {:trigger l in table} :: l in table ==> l.county in column by {
      forall l {:trigger l in table} | l in table ensures l.county in column {
        var i :| 0 <= i < |table| && table[i] == l;
        assert column[i] == l.county;
      }
    }
    r
  }

  /** `counties` names nothing but counties of the table's column. */
  lemma CountiesFromColumn(table: seq<Location>)
    ensures forall c :: c in Counties(table) ==> c in CountyColumn(table)
  {
    var column := CountyColumn(table);
    var names := Dedup(column);
    var r := Sort(names);
    assert r == Counties(table);
    forall c | c in r ensures c in column {
      assert c in multiset(r);
      assert c in multiset(names);
    }
  }

  /** Every name in `counties` is the county of some location of the table. */
  lemma CountyHasLocation(table: seq<Location>, c: string)
    requires c in Counties(table)
    ensures exists l {:trigger l in table} :: l in table && l.county == c
  {
    CountiesFromColumn(table);
    var column := CountyColumn(table);
    var i :| 0 <= i < |column| && column[i] == c;
    assert table[i] in table;
  }
}
