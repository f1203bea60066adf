/**
 * The grouping behind the service-area page (src/app/locations/page.tsx):
 * one section per county, in the order of `counties`, listing that county's
 * locations, with empty sections dropped; and the page's two count figures.
 */
module LocationsPage {
  import opened Seqs
  import opened Strings
  import opened Locations

  /** One county section: the county's name and its locations. */
  datatype CountyGroup = CountyGroup(name: string, locations: seq<Location>)

  /** The section for one county, before empty sections are dropped. */
  function GroupOf(table: seq<Location>, county: string): (r: CountyGroup)
    ensures r.name == county
    ensures forall l {:trigger l in r.locations} :: l in r.locations <==> l in table && l.county == county
  {
    CountyGroup(county, LocationsInCounty(table, county))
  }

  /** `counties.map(county => ({ name: county, locations: ... }))`. */
  function AllGroups(table: seq<Location>): (r: seq<CountyGroup>)
    ensures |r| == |Counties(table)|
    ensures forall i :: 0 <= i < |r| ==> r[i] == GroupOf(table, Counties(table)[i])
    ensures forall g {:trigger g in r} :: g in r ==> g.locations == LocationsInCounty(table, g.name) && g.name in Counties(table)
  {
    Map(Counties(table), (county: string) => GroupOf(table, county))
  }

  /** The predicate of the final `filter(c => c.locations.length > 0)`. */
  predicate NonEmpty(g: CountyGroup) {
    |g.locations| > 0
  }

  /**
   * `locationsByCounty`: every section lists exactly the table's locations of
   * its county, no section is empty, and each section's county is one of
   * `counties`.
   */
  function LocationsByCountyGroups(table: seq<Location>): (r: seq<CountyGroup>)
    ensures forall i :: 0 <= i < |r| ==> r[i].locations == LocationsInCounty(table, r[i].name)
    ensures forall i :: 0 <= i < |r| ==> |r[i].locations| > 0
    ensures forall i :: 0 <= i < |r| ==> r[i].name in Counties(table)
  {
    var r := Filter(AllGroups(table), NonEmpty);
    assert forall i :: 0 <= i < |r| ==> r[i] in r;
    r
  }

  /** The location list of each section. */
  function Lists(groups: seq<CountyGroup>): seq<seq<Location>> {
    Map(groups, (g: CountyGroup) => g.locations)
  }

  /** The locations of all sections, section after section. */
  function Listed(groups: seq<CountyGroup>): seq<Location> {
    Flatten(Lists(groups))
  }

  /**
   * Every county of `counties` has a location, so dropping empty sections
   * removes nothing: there is one section per county, in the order of
   * `counties`.
   */
  lemma GroupsFollowCounties(table: seq<Location>)
    ensures |LocationsByCountyGroups(table)| == |Counties(table)|
    ensures forall i :: 0 <= i < |Counties(table)| ==> LocationsByCountyGroups(table)[i] == GroupOf(table, Counties(table)[i])
  {
    var all := AllGroups(table);
    var counties := Counties(table);
    forall i | 0 <= i < |all| ensures NonEmpty(all[i]) {
      assert all[i] == GroupOf(table, counties[i]);
      CountyHasLocation(table, counties[i]);
      var l :| l in table && l.county == counties[i];
      assert l in LocationsInCounty(table, counties[i]);
    }
    FilterKeepsAll(all, NonEmpty);
  }

  /** The section headings are strictly ascending. */
  lemma GroupNamesAscending(table: seq<Location>)
    ensures forall i, j :: 0 <= i < j < |LocationsByCountyGroups(table)| ==>
      Less(LocationsByCountyGroups(table)[i].name, LocationsByCountyGroups(table)[j].name)
  {
    GroupsFollowCounties(table);
  }

  /** A location is listed in a section exactly when the table has it and it lies in that section's county. */
  lemma GroupMembers(table: seq<Location>, i: nat, l: Location)
    requires i < |LocationsByCountyGroups(table)|
    ensures l in LocationsByCountyGroups(table)[i].locations <==> l in table && l.county == LocationsByCountyGroups(table)[i].name
  {
  }

  /** `counties` has no repeats. */
  lemma CountiesDistinct(table: seq<Location>)
    ensures Distinct(Counties(table))
  {
    var counties := Counties(table);
    forall i, j | 0 <= i < j < |counties| ensures counties[i] != counties[j] {
      LessTotal(counties[i], counties[j]);
    }
  }

  /**
   * The sections together list every location of the table exactly as often
   * as the table holds it: grouping neither loses nor duplicates a location.
   */
  lemma GroupsPartitionTable(table: seq<Location>)
    ensures multiset(Listed(LocationsByCountyGroups(table))) == multiset(table)
  {
    var counties := Counties(table);
    var groups := Lists(LocationsByCountyGroups(table));
    GroupsCountedByCounty(table);
    CountiesDistinct(table);
    FlattenGroupCounts(groups, counties, CountyOf, table);
    forall l ensures multiset(Flatten(groups))[l] == multiset(table)[l] {
      if l in table {
        assert CountyOf(l) in counties;
      }
    }
    assert multiset(Flatten(groups)) == multiset(table);
  }

  /** Section `i` holds each location of the i-th county as often as the table does, and nothing else. */
  lemma GroupsCountedByCounty(table: seq<Location>)
    ensures |Lists(LocationsByCountyGroups(table))| == |Counties(table)|
    ensures forall i, l {:trigger multiset(Lists(LocationsByCountyGroups(table))[i])[l]} :: 0 <= i < |Counties(table)| ==>
      multiset(Lists(LocationsByCountyGroups(table))[i])[l] ==
        if CountyOf(l) == Counties(table)[i] then multiset(table)[l] else 0
  {
    var r := LocationsByCountyGroups(table);
    var counties := Counties(table);
    var groups := Lists(r);
    GroupsFollowCounties(table);
    forall i, l {:trigger multiset(groups[i])[l]} | 0 <= i < |counties|
      ensures multiset(groups[i])[l] == if CountyOf(l) == counties[i] then multiset(table)[l] else 0
    {
      assert groups[i] == r[i].locations;
      assert r[i] == GroupOf(table, counties[i]);
      LocationsInCountyCounts(table, counties[i]);
    }
  }

  /** Each location of the table is listed in some section. */
  lemma EachLocationListed(table: seq<Location>, l: Location)
    requires l in table
    ensures exists i :: 0 <= i < |LocationsByCountyGroups(table)| && l in LocationsByCountyGroups(table)[i].locations
  {
    var r := LocationsByCountyGroups(table);
    var counties := Counties(table);
    GroupsFollowCounties(table);
    assert l.county in counties;
    var k :| 0 <= k < |counties| && counties[k] == l.county;
    assert l in r[k].locations;
  }

  /** No location is listed in two different sections. */
  lemma LocationListedOnce(table: seq<Location>, l: Location, i: nat, j: nat)
    requires i < |LocationsByCountyGroups(table)| && j < |LocationsByCountyGroups(table)|
    requires l in LocationsByCountyGroups(table)[i].locations && l in LocationsByCountyGroups(table)[j].locations
    ensures i == j
  {
    var r := LocationsByCountyGroups(table);
    var counties := Counties(table);
    GroupsFollowCounties(table);
    CountiesDistinct(table);
    assert r[i] == GroupOf(table, counties[i]) && r[j] == GroupOf(table, counties[j]);
    assert counties[i] == l.county == counties[j];
  }

  /** The section keys (`key={county.name}`) are unique. */
  lemma CountyKeysDistinct(table: seq<Location>)
    ensures forall i, j :: 0 <= i < j < |LocationsByCountyGroups(table)| ==>
      LocationsByCountyGroups(table)[i].name != LocationsByCountyGroups(table)[j].name
  {
    var r := LocationsByCountyGroups(table);
    GroupNamesAscending(table);
    forall i, j | 0 <= i < j < |r| ensures r[i].name != r[j].name {
      LessIrreflexive(r[i].name);
    }
  }

  /** With unique slugs in the table, the link keys (`key={location.slug}`) within a section are unique. */
  lemma LocationKeysDistinct(table: seq<Location>, i: nat)
    requires SlugsDistinct(table)
    requires i < |LocationsByCountyGroups(table)|
    ensures SlugsDistinct(LocationsByCountyGroups(table)[i].locations)
  {
    CountySlugsDistinct(table, LocationsByCountyGroups(table)[i].name);
  }

  /** The two computed figures of the page's statistics band. */
  datatype Figures = Figures(communities: nat, counties: nat)

  /**
   * `{locations.length}+` communities served and `{counties.length}`
   * counties covered: the first is the number of entries the page lists,
   * the second the number of sections it shows.
   */
  function PageFigures(table: seq<Location>): (r: Figures)
    ensures r.communities == |Listed(LocationsByCountyGroups(table))|
    ensures r.counties == |LocationsByCountyGroups(table)|
  {
    GroupsFollowCounties(table);
    GroupsPartitionTable(table);
    assert |Listed(LocationsByCountyGroups(table))| == |multiset(table)|;
    Figures(|table|, |Counties(table)|)
  }
}
