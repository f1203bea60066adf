/**
 * The literal table `locations` (src/data/locations.ts:9-84) and the facts
 * about it that the site relies on: unique slugs, so that every location's
 * page resolves back to it, and 15 counties.
 *
 * The table is written as eight blocks of at most ten rows, so that facts
 * about all rows are proved block by block, each proof small enough for the
 * verifier. Two certificates carry those facts: `SlugRow`, which gives the
 * row of each slug, and `CountyRank`, which gives the position of each county
 * in `CountyNames`. The page figures for this table close the module.
 */
module LocationTable {
  import opened Wrappers
  import opened Seqs
  import opened Strings
  import opened Locations
  import opened LocationsPage

  /** Rows 0 to 9 (src/data/locations.ts:10-19). */
  const Block0: seq<Location> := [
    Location("Newark", "newark", "Essex", Some(311549), "New Jersey's largest city and a major commercial hub"),
    Location("Jersey City", "jersey-city", "Hudson", Some(292449), "Vibrant waterfront city across from Manhattan"),
    Location("Paterson", "paterson", "Passaic", Some(159732), "Historic silk city with rich industrial heritage"),
    Location("Elizabeth", "elizabeth", "Union", Some(137298), "Gateway to Newark Airport and major retail destination"),
    Location("Edison", "edison", "Middlesex", Some(107588), "Named after Thomas Edison, known for diverse community"),
    Location("Woodbridge Township", "woodbridge-township", "Middlesex", Some(103353), "Sprawling township with multiple distinct neighborhoods"),
    Location("Lakewood Township", "lakewood-township", "Ocean", Some(135158), "Fast-growing community in Ocean County"),
    Location("Toms River", "toms-river", "Ocean", Some(95438), "Ocean County seat and Jersey Shore gateway"),
    Location("Hamilton Township", "hamilton-township", "Mercer", Some(92297), "Large suburban township near Trenton"),
    Location("Trenton", "trenton", "Mercer", Some(90871), "New Jersey's historic capital city")
  ]

  /** Rows 10 to 19 (src/data/locations.ts:20-29). */
  const Block1: seq<Location> := [
    Location("Clifton", "clifton", "Passaic", Some(90296), "Diverse city with strong community feel"),
    Location("Brick Township", "brick-township", "Ocean", Some(77520), "Popular Shore community with excellent schools"),
    Location("Camden", "camden", "Camden", Some(73742), "Waterfront city experiencing urban renewal"),
    Location("Cherry Hill", "cherry-hill", "Camden", Some(74553), "Upscale suburb with excellent shopping and dining"),
    Location("Bayonne", "bayonne", "Hudson", Some(71852), "Peninsula city with waterfront development"),
    Location("Passaic", "passaic", "Passaic", Some(72307), "Diverse city along the Passaic River"),
    Location("East Orange", "east-orange", "Essex", Some(69673), "Historic city with strong community pride"),
    Location("Franklin Township", "franklin-township", "Somerset", Some(68104), "Growing township with excellent schools"),
    Location("Union City", "union-city", "Hudson", Some(73999), "Densely populated city with vibrant culture"),
    Location("Old Bridge Township", "old-bridge-township", "Middlesex", Some(68195), "Family-friendly township with parks")
  ]

  /** Rows 20 to 29 (src/data/locations.ts:30-39). */
  const Block2: seq<Location> := [
    Location("Middletown Township", "middletown-township", "Monmouth", Some(67106), "Bayshore community with historic villages"),
    Location("Piscataway", "piscataway", "Middlesex", Some(60571), "Home to Rutgers University campus"),
    Location("Hoboken", "hoboken", "Hudson", Some(60419), "Trendy waterfront city with Manhattan views"),
    Location("Perth Amboy", "perth-amboy", "Middlesex", Some(55436), "Historic waterfront city with diverse community"),
    Location("Plainfield", "plainfield", "Union", Some(54586), "Historic city with Victorian architecture"),
    Location("New Brunswick", "new-brunswick", "Middlesex", Some(56100), "College town home to Rutgers University"),
    Location("Howell Township", "howell-township", "Monmouth", Some(54711), "Large suburban township with rural character"),
    Location("Bloomfield", "bloomfield", "Essex", Some(53510), "Diverse township with small-town charm"),
    Location("North Bergen", "north-bergen", "Hudson", Some(64793), "Township with stunning NYC skyline views"),
    Location("West New York", "west-new-york", "Hudson", Some(54997), "Densely populated town on the Hudson")
  ]

  /** Rows 30 to 39 (src/data/locations.ts:40-49). */
  const Block3: seq<Location> := [
    Location("Irvington", "irvington", "Essex", Some(54110), "Township with convenient Newark access"),
    Location("Union Township", "union-township", "Union", Some(59987), "Central location with excellent transit"),
    Location("Jackson Township", "jackson-township", "Ocean", Some(58651), "Home to Six Flags Great Adventure"),
    Location("Wayne", "wayne", "Passaic", Some(53892), "Upscale township with excellent schools"),
    Location("Parsippany-Troy Hills", "parsippany-troy-hills", "Morris", Some(56000), "Corporate hub with diverse housing"),
    Location("Mount Laurel", "mount-laurel", "Burlington", Some(45505), "Growing suburb with excellent amenities"),
    Location("Bridgewater Township", "bridgewater-township", "Somerset", Some(46596), "Affluent township with top-rated schools"),
    Location("Manalapan Township", "manalapan-township", "Monmouth", Some(40203), "Upscale suburban community"),
    Location("Hackensack", "hackensack", "Bergen", Some(46030), "Bergen County seat with medical centers"),
    Location("Sayreville", "sayreville", "Middlesex", Some(47589), "Waterfront borough with redevelopment")
  ]

  /** Rows 40 to 49 (src/data/locations.ts:50-59). */
  const Block4: seq<Location> := [
    Location("Linden", "linden", "Union", Some(44951), "Industrial city with residential neighborhoods"),
    Location("Kearny", "kearny", "Hudson", Some(44016), "Town with Scottish heritage and history"),
    Location("Atlantic City", "atlantic-city", "Atlantic", Some(40226), "Famous resort city with casinos and beaches"),
    Location("Teaneck", "teaneck", "Bergen", Some(41484), "Diverse township with strong schools"),
    Location("Vineland", "vineland", "Cumberland", Some(60470), "South Jersey's largest city by area"),
    Location("Monroe Township", "monroe-township", "Middlesex", Some(48594), "Active adult communities and families"),
    Location("Bergenfield", "bergenfield", "Bergen", Some(28473), "Diverse borough with community spirit"),
    Location("Paramus", "paramus", "Bergen", Some(27653), "Major retail destination with blue laws"),
    Location("Fair Lawn", "fair-lawn", "Bergen", Some(35926), "Family-friendly borough with parks"),
    Location("Marlboro Township", "marlboro-township", "Monmouth", Some(40466), "Affluent township with top schools")
  ]

  /** Rows 50 to 59 (src/data/locations.ts:60-69). */
  const Block5: seq<Location> := [
    Location("Carteret", "carteret", "Middlesex", Some(25151), "Diverse borough with waterfront access"),
    Location("Livingston", "livingston", "Essex", Some(31047), "Upscale township with excellent schools"),
    Location("Maplewood", "maplewood", "Essex", Some(26118), "Charming township with village center"),
    Location("Millburn", "millburn", "Essex", Some(21710), "Affluent township with Paper Mill Playhouse"),
    Location("Summit", "summit", "Union", Some(22794), "Upscale city with vibrant downtown"),
    Location("Morristown", "morristown", "Morris", Some(20166), "Historic town with thriving downtown"),
    Location("South Orange", "south-orange", "Essex", Some(17470), "College town with excellent transit"),
    Location("Nutley", "nutley", "Essex", Some(29891), "Township with small-town character"),
    Location("Montclair", "montclair", "Essex", Some(41023), "Arts community with diverse neighborhoods"),
    Location("Ridgewood", "ridgewood", "Bergen", Some(26215), "Upscale village with charming downtown")
  ]

  /** Rows 60 to 69 (src/data/locations.ts:70-79). */
  const Block6: seq<Location> := [
    Location("Princeton", "princeton", "Mercer", Some(31822), "Ivy League town with historic character"),
    Location("Somerville", "somerville", "Somerset", Some(13029), "County seat with revitalized downtown"),
    Location("Freehold Borough", "freehold-borough", "Monmouth", Some(12052), "Historic downtown with antique shops"),
    Location("Long Branch", "long-branch", "Monmouth", Some(33565), "Beachfront city with boardwalk"),
    Location("Asbury Park", "asbury-park", "Monmouth", Some(16795), "Revitalized Shore town with music scene"),
    Location("Neptune Township", "neptune-township", "Monmouth", Some(28010), "Shore community near Ocean Grove"),
    Location("Englewood", "englewood", "Bergen", Some(29861), "Diverse city with hospital and arts"),
    Location("Westfield", "westfield", "Union", Some(32036), "Upscale town with vibrant downtown"),
    Location("Scotch Plains", "scotch-plains", "Union", Some(24747), "Township with excellent schools"),
    Location("Rahway", "rahway", "Union", Some(32724), "City with arts district and transit")
  ]

  /** Rows 70 to 73 (src/data/locations.ts:80-83). */
  const Block7: seq<Location> := [
    Location("Roselle", "roselle", "Union", Some(22866), "First community lit by electricity"),
    Location("Lodi", "lodi", "Bergen", Some(26980), "Diverse borough with strong community"),
    Location("Fort Lee", "fort-lee", "Bergen", Some(40199), "High-rise borough at GW Bridge"),
    Location("Secaucus", "secaucus", "Hudson", Some(21783), "Outlet shopping and transit hub")
  ]

  /** The served communities in source order (`locations`): 74 rows. */
  function AllLocations(): (r: seq<Location>)
    ensures |r| == 74
  {
    Block0 + Block1 + Block2 + Block3 + Block4 + Block5 + Block6 + Block7
  }

  /**
   * A certificate that the table's slugs are unique: the row of each slug of
   * the table, and -1 for every other string.
   */
  function SlugRow(slug: string): int {
    match |slug|
    case 4 =>
      (match slug
      case "lodi" => 71
      case _ => -1)
    case 5 =>
      (match slug
      case "wayne" => 33
      case _ => -1)
    case 6 =>
      (match slug
      case "newark" => 0
      case "edison" => 4
      case "camden" => 12
      case "linden" => 40
      case "kearny" => 41
      case "summit" => 54
      case "nutley" => 57
      case "rahway" => 69
      case _ => -1)
    case 7 =>
      (match slug
      case "trenton" => 9
      case "clifton" => 10
      case "bayonne" => 14
      case "passaic" => 15
      case "hoboken" => 22
      case "teaneck" => 43
      case "paramus" => 47
      case "roselle" => 70
      case _ => -1)
    case 8 =>
      (match slug
      case "paterson" => 2
      case "vineland" => 44
      case "carteret" => 50
      case "millburn" => 53
      case "fort-lee" => 72
      case "secaucus" => 73
      case _ => -1)
    case 9 =>
      (match slug
      case "elizabeth" => 3
      case "irvington" => 30
      case "fair-lawn" => 48
      case "maplewood" => 52
      case "montclair" => 58
      case "ridgewood" => 59
      case "princeton" => 60
      case "englewood" => 66
      case "westfield" => 67
      case _ => -1)
    case 10 =>
      (match slug
      case "toms-river" => 7
      case "union-city" => 18
      case "piscataway" => 21
      case "plainfield" => 24
      case "bloomfield" => 27
      case "hackensack" => 38
      case "sayreville" => 39
      case "livingston" => 51
      case "morristown" => 55
      case "somerville" => 61
      case _ => -1)
    case 11 =>
      (match slug
      case "jersey-city" => 1
      case "cherry-hill" => 13
      case "east-orange" => 16
      case "perth-amboy" => 23
      case "bergenfield" => 46
      case "long-branch" => 63
      case "asbury-park" => 64
      case _ => -1)
    case 12 =>
      (match slug
      case "north-bergen" => 28
      case "mount-laurel" => 35
      case "south-orange" => 56
      case _ => -1)
    case 13 =>
      (match slug
      case "new-brunswick" => 25
      case "west-new-york" => 29
      case "atlantic-city" => 42
      case "scotch-plains" => 68
      case _ => -1)
    case 14 =>
      (match slug
      case "brick-township" => 11
      case "union-township" => 31
      case _ => -1)
    case 15 =>
      (match slug
      case "howell-township" => 26
      case "monroe-township" => 45
      case _ => -1)
    case 16 =>
      (match slug
      case "jackson-township" => 32
      case "freehold-borough" => 62
      case "neptune-township" => 65
      case _ => -1)
    case 17 =>
      (match slug
      case "lakewood-township" => 6
      case "hamilton-township" => 8
      case "franklin-township" => 17
      case "marlboro-township" => 49
      case _ => -1)
    case 18 =>
      (match slug
      case "manalapan-township" => 37
      case _ => -1)
    case 19 =>
      (match slug
      case "woodbridge-township" => 5
      case "old-bridge-township" => 19
      case "middletown-township" => 20
      case _ => -1)
    case 20 =>
      (match slug
      case "bridgewater-township" => 36
      case _ => -1)
    case 21 =>
      (match slug
      case "parsippany-troy-hills" => 34
      case _ => -1)
    case _ => -1
  }

  /** Every row of a block whose slugs the certificate numbers from `first`. */
  predicate Numbered(block: seq<Location>, first: int) {
    forall k :: 0 <= k < |block| ==> SlugRow(block[k].slug) == first + k
  }

  lemma NumberedConcat(a: seq<Location>, b: seq<Location>, first: int)
    requires Numbered(a, first) && Numbered(b, first + |a|)
    ensures Numbered(a + b, first)
  {
    forall k | 0 <= k < |a + b| ensures SlugRow((a + b)[k].slug) == first + k {
      if k >= |a| { assert (a + b)[k] == b[k - |a|]; }
    }
  }

  // A block of ten rows is numbered in two halves of five: the verifier
  // checks each half directly, but ten rows at once are too costly for it.
  lemma Block0Numbered()
    ensures Numbered(Block0, 0)
  {
    Block0Head();
    Block0Tail();
  }

  lemma Block0Head()
    ensures forall i :: 0 <= i < 5 ==> SlugRow(Block0[i].slug) == 0 + i
  {
  }

  lemma Block0Tail()
    ensures forall i :: 5 <= i < |Block0| ==> SlugRow(Block0[i].slug) == 0 + i
  {
  }

  lemma Block1Numbered()
    ensures Numbered(Block1, 10)
  {
    Block1Head();
    Block1Tail();
  }

  lemma Block1Head()
    ensures forall i :: 0 <= i < 5 ==> SlugRow(Block1[i].slug) == 10 + i
  {
  }

  lemma Block1Tail()
    ensures forall i :: 5 <= i < |Block1| ==> SlugRow(Block1[i].slug) == 10 + i
  {
  }

  lemma Block2Numbered()
    ensures Numbered(Block2, 20)
  {
    Block2Head();
    Block2Tail();
  }

  lemma Block2Head()
    ensures forall i :: 0 <= i < 5 ==> SlugRow(Block2[i].slug) == 20 + i
  {
  }

  lemma Block2Tail()
    ensures forall i :: 5 <= i < |Block2| ==> SlugRow(Block2[i].slug) == 20 + i
  {
  }

  lemma Block3Numbered()
    ensures Numbered(Block3, 30)
  {
    Block3Head();
    Block3Tail();
  }

  lemma Block3Head()
    ensures forall i :: 0 <= i < 5 ==> SlugRow(Block3[i].slug) == 30 + i
  {
  }

  lemma Block3Tail()
    ensures forall i :: 5 <= i < |Block3| ==> SlugRow(Block3[i].slug) == 30 + i
  {
  }

  lemma Block4Numbered()
    ensures Numbered(Block4, 40)
  {
    Block4Head();
    Block4Tail();
  }

  lemma Block4Head()
    ensures forall i :: 0 <= i < 5 ==> SlugRow(Block4[i].slug) == 40 + i
  {
  }

  lemma Block4Tail()
    ensures forall i :: 5 <= i < |Block4| ==> SlugRow(Block4[i].slug) == 40 + i
  {
  }

  lemma Block5Numbered()
    ensures Numbered(Block5, 50)
  {
    Block5Head();
    Block5Tail();
  }

  lemma Block5Head()
    ensures forall i :: 0 <= i < 5 ==> SlugRow(Block5[i].slug) == 50 + i
  {
  }

  lemma Block5Tail()
    ensures forall i :: 5 <= i < |Block5| ==> SlugRow(Block5[i].slug) == 50 + i
  {
  }

  lemma Block6Numbered()
    ensures Numbered(Block6, 60)
  {
    Block6Head();
    Block6Tail();
  }

  lemma Block6Head()
    ensures forall i :: 0 <= i < 5 ==> SlugRow(Block6[i].slug) == 60 + i
  {
  }

  lemma Block6Tail()
    ensures forall i :: 5 <= i < |Block6| ==> SlugRow(Block6[i].slug) == 60 + i
  {
  }

  lemma Block7Numbered()
    ensures Numbered(Block7, 70)
  {
  }

  /** The certificate numbers every row of the table. */
  lemma AllLocationsNumbered()
    ensures Numbered(AllLocations(), 0)
  {
    Block0Numbered();
    Block1Numbered();
    NumberedConcat(Block0, Block1, 0);
    Block2Numbered();
    NumberedConcat(Block0 + Block1, Block2, 0);
    Block3Numbered();
    NumberedConcat(Block0 + Block1 + Block2, Block3, 0);
    Block4Numbered();
    NumberedConcat(Block0 + Block1 + Block2 + Block3, Block4, 0);
    Block5Numbered();
    NumberedConcat(Block0 + Block1 + Block2 + Block3 + Block4, Block5, 0);
    Block6Numbered();
    NumberedConcat(Block0 + Block1 + Block2 + Block3 + Block4 + Block5, Block6, 0);
    Block7Numbered();
    NumberedConcat(Block0 + Block1 + Block2 + Block3 + Block4 + Block5 + Block6, Block7, 0);
  }

  /** The table's 74 slugs are pairwise distinct. */
  lemma AllLocationsSlugsDistinct()
    ensures SlugsDistinct(AllLocations())
  {
    AllLocationsNumbered();
  }

  /** Every location of the table is what looking up its slug returns. */
  lemma AllLocationsLookupRoundTrip(l: Location)
    requires l in AllLocations()
    ensures LocationBySlug(AllLocations(), l.slug) == Some(l)
  {
    AllLocationsSlugsDistinct();
    LookupRoundTrip(AllLocations(), l);
  }

  /** A slug that is not one of the table's 74 finds nothing. */
  lemma AllLocationsUnknownSlug(slug: string)
    requires SlugRow(slug) < 0
    ensures LocationBySlug(AllLocations(), slug) == None
  {
    AllLocationsNumbered();
  }

  /** The slug `newark` resolves to Newark, in Essex county. */
  lemma NewarkExample()
    ensures LocationBySlug(AllLocations(), "newark").Some?
    ensures LocationBySlug(AllLocations(), "newark").value.name == "Newark"
    ensures LocationBySlug(AllLocations(), "newark").value.county == "Essex"
  {
    assert AllLocations()[0] == Block0[0];
    AllLocationsLookupRoundTrip(AllLocations()[0]);
  }

  /** The slug `boston` resolves to nothing. */
  lemma BostonExample()
    ensures LocationBySlug(AllLocations(), "boston") == None
  {
    AllLocationsUnknownSlug("boston");
  }

  /** The counties of the table, in ascending order. */
  const CountyNames: seq<string> := [
    "Atlantic",
    "Bergen",
    "Burlington",
    "Camden",
    "Cumberland",
    "Essex",
    "Hudson",
    "Mercer",
    "Middlesex",
    "Monmouth",
    "Morris",
    "Ocean",
    "Passaic",
    "Somerset",
    "Union"
  ]

  /** A certificate for `CountyNames`: the index of each county in it, and -1 for every other string. */
  function CountyRank(county: string): int {
    match county
    case "Atlantic" => 0
    case "Bergen" => 1
    case "Burlington" => 2
    case "Camden" => 3
    case "Cumberland" => 4
    case "Essex" => 5
    case "Hudson" => 6
    case "Mercer" => 7
    case "Middlesex" => 8
    case "Monmouth" => 9
    case "Morris" => 10
    case "Ocean" => 11
    case "Passaic" => 12
    case "Somerset" => 13
    case "Union" => 14
    case _ => -1
  }

  lemma CountyRankSound(county: string)
    requires CountyRank(county) >= 0
    ensures county in CountyNames
  {
    assert CountyNames[CountyRank(county)] == county;
  }

  /** Every row of a block lies in a county of `CountyNames`. */
  predicate CountiesRanked(block: seq<Location>) {
    forall k :: 0 <= k < |block| ==> CountyRank(block[k].county) >= 0
  }

  lemma CountiesRankedConcat(a: seq<Location>, b: seq<Location>)
    requires CountiesRanked(a) && CountiesRanked(b)
    ensures CountiesRanked(a + b)
  {
    forall k | 0 <= k < |a + b| ensures CountyRank((a + b)[k].county) >= 0 {
      if k >= |a| { assert (a + b)[k] == b[k - |a|]; }
    }
  }

  lemma Block0Counties()
    ensures CountiesRanked(Block0)
  {
  }

  lemma Block1Counties()
    ensures CountiesRanked(Block1)
  {
  }

  lemma Block2Counties()
    ensures CountiesRanked(Block2)
  {
  }

  lemma Block3Counties()
    ensures CountiesRanked(Block3)
  {
  }

  lemma Block4Counties()
    ensures CountiesRanked(Block4)
  {
  }

  lemma Block5Counties()
    ensures CountiesRanked(Block5)
  {
  }

  lemma Block6Counties()
    ensures CountiesRanked(Block6)
  {
  }

  lemma Block7Counties()
    ensures CountiesRanked(Block7)
  {
  }

  /** Every location of the table lies in one of `CountyNames`. */
  lemma AllLocationsCountiesKnown()
    ensures forall l {:trigger l in AllLocations()} :: l in AllLocations() ==> l.county in CountyNames
  {
    Block0Counties();
    Block1Counties();
    CountiesRankedConcat(Block0, Block1);
    Block2Counties();
    CountiesRankedConcat(Block0 + Block1, Block2);
    Block3Counties();
    CountiesRankedConcat(Block0 + Block1 + Block2, Block3);
    Block4Counties();
    CountiesRankedConcat(Block0 + Block1 + Block2 + Block3, Block4);
    Block5Counties();
    CountiesRankedConcat(Block0 + Block1 + Block2 + Block3 + Block4, Block5);
    Block6Counties();
    CountiesRankedConcat(Block0 + Block1 + Block2 + Block3 + Block4 + Block5, Block6);
    Block7Counties();
    CountiesRankedConcat(Block0 + Block1 + Block2 + Block3 + Block4 + Block5 + Block6, Block7);
    forall l {:trigger l in AllLocations()} | l in AllLocations() ensures l.county in CountyNames {
      var i :| 0 <= i < |AllLocations()| && AllLocations()[i] == l;
      CountyRankSound(l.county);
    }
  }

  /**
   * One location of each county of `CountyNames`, in the same order: Atlantic
   * City, Hackensack, Mount Laurel, Camden, Vineland, Newark, Jersey City,
   * Hamilton Township, Edison, Middletown Township, Parsippany-Troy Hills,
   * Lakewood Township, Paterson, Franklin Township and Elizabeth.
   */
  const Seats: seq<Location> := [
    Block4[2], Block3[8], Block3[5], Block1[2], Block4[4],
    Block0[0], Block0[1], Block0[8], Block0[4], Block2[0],
    Block3[4], Block0[6], Block0[2], Block1[7], Block0[3]
  ]

  /** The i-th seat lies in the i-th of `CountyNames`. */
  lemma SeatsMatchNames()
    ensures |Seats| == |CountyNames|
    ensures forall i :: 0 <= i < |Seats| ==> Seats[i].county == CountyNames[i]
  {
  }

  /** Every seat is a location of the table. */
  lemma SeatsInTable()
    ensures forall l :: l in Seats ==> l in AllLocations()
  {
  }

  /** Every one of `CountyNames` is listed in `counties`, as its seat's county. */
  lemma CountyNamesOccur()
    ensures forall c :: c in CountyNames ==> c in Counties(AllLocations())
  {
    SeatsMatchNames();
    SeatsInTable();
    forall c | c in CountyNames ensures c in Counties(AllLocations()) {
      var i :| 0 <= i < |CountyNames| && CountyNames[i] == c;
      assert Seats[i] in Seats;
    }
  }

  /** `counties` lists nothing outside `CountyNames`. */
  lemma CountiesWithinNames()
    ensures forall c :: c in Counties(AllLocations()) ==> c in CountyNames
  {
    AllLocationsCountiesKnown();
    forall c | c in Counties(AllLocations()) ensures c in CountyNames {
      CountyHasLocation(AllLocations(), c);
    }
  }

  /** `CountyNames` is strictly ascending. */
  lemma CountyNamesSorted()
    ensures StrictlySorted(CountyNames)
  {
    assert Less("Atlantic", "Bergen");
    assert Less("Bergen", "Burlington");
    assert Less("Burlington", "Camden");
    assert Less("Camden", "Cumberland");
    assert Less("Cumberland", "Essex");
    assert Less("Essex", "Hudson");
    assert Less("Hudson", "Mercer");
    assert Less("Mercer", "Middlesex");
    assert Less("Middlesex", "Monmouth");
    assert Less("Monmouth", "Morris");
    assert Less("Morris", "Ocean");
    assert Less("Ocean", "Passaic");
    assert Less("Passaic", "Somerset");
    assert Less("Somerset", "Union");
    AscendingFromSorted(CountyNames, 0);
    assert CountyNames[0..] == CountyNames;
  }

  /** `counties` is exactly `CountyNames`: the table's locations lie in 15 counties. */
  lemma AllLocationsCounties()
    ensures Counties(AllLocations()) == CountyNames
    ensures |Counties(AllLocations())| == 15
  {
    CountiesWithinNames();
    CountyNamesOccur();
    CountyNamesSorted();
    StrictlySortedUnique(Counties(AllLocations()), CountyNames);
  }

  /** The service-area page reads "74+ Communities Served" and "15 Counties Covered". */
  lemma AllLocationsFigures()
    ensures PageFigures(AllLocations()) == Figures(74, 15)
  {
    AllLocationsCounties();
  }
}
