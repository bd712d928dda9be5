/**
 * The crop advisory tables of server/cropData.js: the season calendar, the
 * region bounding boxes, and the per-region, per-season crop lists.
 */
module CropData {
  import opened Wrappers

  /** A season label; Unknown is the sentinel getSeason falls back to. */
  datatype Season = Rabi | Kharif | Zaid | Unknown {
    function Name(): string {
      match this
      case Rabi => "Rabi"
      case Kharif => "Kharif"
      case Zaid => "Zaid"
      case Unknown => "Unknown"
    }
  }

  /** A closed interval; both bounds are inclusive. */
  datatype Range = Range(lo: real, hi: real) {
    predicate Contains(x: real) {
      lo <= x <= hi
    }
  }

  /** One entry of the crop database: a named region, its box and its crop lists. */
  datatype RegionEntry = RegionEntry(
    name: string,
    latRange: Range,
    lonRange: Range,
    seasons: map<Season, seq<string>>)
  {
    predicate Covers(lat: real, lon: real) {
      latRange.Contains(lat) && lonRange.Contains(lon)
    }
  }

  const UnknownRegion: string := "Unknown"

  /** The database, in the key order a for...in loop visits it. */
  const CropDatabase: seq<RegionEntry> := [
    RegionEntry(
      "Indo-Gangetic Plain",
      Range(23.0, 31.0),
      Range(74.0, 88.0),
      map[
        Rabi := ["Wheat", "Barley", "Mustard", "Gram (Chickpea)", "Lentil (Masoor)"],
        Kharif := ["Rice (Paddy)", "Maize", "Sugarcane", "Soybean", "Cotton"],
        Zaid := ["Watermelon", "Muskmelon", "Cucumber", "Moong Dal"]]),
    RegionEntry(
      "Deccan Plateau",
      Range(15.0, 21.0),
      Range(73.0, 80.0),
      map[
        Rabi := ["Sorghum (Jowar)", "Chickpea", "Safflower", "Wheat"],
        Kharif := ["Cotton", "Millets (Bajra)", "Tur Dal (Arhar)", "Groundnut"],
        Zaid := ["Groundnut", "Maize", "Watermelon"]])
  ]

  // ---------------------------------------------------------------- seasons

  /**
   * The season of a calendar month (1 = January). The if-chain tests Rabi,
   * then Kharif, then Zaid; the first test that holds decides.
   */
  function GetSeason(month: int): (s: Season)
    ensures s == Rabi <==> month >= 10 || month <= 3
    ensures s == Kharif <==> 6 <= month <= 9
    ensures s == Zaid <==> 4 <= month <= 5
    ensures s != Unknown
  {
    if month >= 10 || month <= 3 then Rabi
    else if month >= 6 && month <= 9 then Kharif
    else if month >= 3 && month <= 5 then Zaid
    else Unknown
  }

  // ---------------------------------------------------------------- regions

  /** The index of the first entry at or after i whose box covers the point. */
  function FirstCovering(table: seq<RegionEntry>, i: nat, lat: real, lon: real): (r: Option<nat>)
    requires i <= |table|
    ensures r.Some? ==> i <= r.value < |table| && table[r.value].Covers(lat, lon)
    ensures r.Some? ==> forall j :: i <= j < r.value ==> !table[j].Covers(lat, lon)
    ensures r.None? ==> forall j :: i <= j < |table| ==> !table[j].Covers(lat, lon)
    decreases |table| - i
  {
    if i == |table| then None
    else if table[i].Covers(lat, lon) then Some(i)
    else FirstCovering(table, i + 1, lat, lon)
  }

  /** The region name getRegion computes over a given table. */
  function RegionIn(table: seq<RegionEntry>, lat: real, lon: real): string {
    match FirstCovering(table, 0, lat, lon)
    case Some(i) => table[i].name
    case None => UnknownRegion
  }

  /** The region of a point: the first entry, in table order, whose box covers it. */
  function GetRegion(lat: real, lon: real): (r: string)
    ensures r == UnknownRegion <==> forall j :: 0 <= j < |CropDatabase| ==> !CropDatabase[j].Covers(lat, lon)
    ensures r != UnknownRegion ==>
      exists i :: 0 <= i < |CropDatabase| && CropDatabase[i].name == r && CropDatabase[i].Covers(lat, lon)
        && forall j :: 0 <= j < i ==> !CropDatabase[j].Covers(lat, lon)
  {
    var r := RegionIn(CropDatabase, lat, lon);
    assert CropDatabase[0].name != UnknownRegion && CropDatabase[1].name != UnknownRegion;
    r
  }

  // ---------------------------------------------------------------- lookup

  /** The entry stored under a name, as cropDatabase[name] reads it. */
  function EntryNamed(table: seq<RegionEntry>, name: string): (r: Option<RegionEntry>)
    ensures r.Some? ==> r.value in table && r.value.name == name
    ensures r.None? ==> forall j :: 0 <= j < |table| ==> table[j].name != name
  {
    if table == [] then None
    else if table[0].name == name then Some(table[0])
    else EntryNamed(table[1..], name)
  }

  /** cropDatabase[region].seasons[season]; None where JavaScript would read undefined. */
  function Lookup(region: string, season: Season): (r: Option<seq<string>>)
    ensures r.Some? <==>
      season != Unknown && exists i :: 0 <= i < |CropDatabase| && CropDatabase[i].name == region
    ensures r.Some? ==>
      exists i :: 0 <= i < |CropDatabase| && CropDatabase[i].name == region
        && season in CropDatabase[i].seasons && r.value == CropDatabase[i].seasons[season]
  {
    assert CropDatabase[0].seasons.Keys == CropDatabase[1].seasons.Keys == {Rabi, Kharif, Zaid};
    match EntryNamed(CropDatabase, region)
    case None => None
    case Some(e) =>
      assert e == CropDatabase[0] || e == CropDatabase[1];
      if season in e.seasons then Some(e.seasons[season])
      else
        assert season.Unknown?;
        None
  }

  // ---------------------------------------------------------------- properties

  /** No two entries of a table have overlapping boxes. */
  predicate Disjoint(table: seq<RegionEntry>) {
    forall i, j :: 0 <= i < j < |table| ==> BoxesDisjoint(table[i], table[j])
  }

  predicate BoxesDisjoint(a: RegionEntry, b: RegionEntry) {
    a.latRange.hi < b.latRange.lo || b.latRange.hi < a.latRange.lo
    || a.lonRange.hi < b.lonRange.lo || b.lonRange.hi < a.lonRange.lo
  }

  /** In a table of disjoint boxes, the region found is the one box that covers the point. */
  lemma DisjointFindsCovering(table: seq<RegionEntry>, k: nat, lat: real, lon: real)
    requires Disjoint(table)
    requires k < |table| && table[k].Covers(lat, lon)
    ensures FirstCovering(table, 0, lat, lon) == Some(k)
    ensures RegionIn(table, lat, lon) == table[k].name
  {
  }

  /** The two boxes of the database do not overlap: latitudes [23,31] and [15,21] are apart. */
  lemma DatabaseDisjoint()
    ensures Disjoint(CropDatabase)
  {
  }

  /** With the current data, the result does not depend on the order of the table. */
  lemma RegionOrderIrrelevant(lat: real, lon: real)
    ensures GetRegion(lat, lon) == RegionIn([CropDatabase[1], CropDatabase[0]], lat, lon)
  {
    var swapped := [CropDatabase[1], CropDatabase[0]];
    DatabaseDisjoint();
    assert Disjoint(swapped) by {
      assert BoxesDisjoint(swapped[0], swapped[1]);
    }
    if CropDatabase[0].Covers(lat, lon) {
      DisjointFindsCovering(CropDatabase, 0, lat, lon);
      DisjointFindsCovering(swapped, 1, lat, lon);
    } else if CropDatabase[1].Covers(lat, lon) {
      DisjointFindsCovering(CropDatabase, 1, lat, lon);
      DisjointFindsCovering(swapped, 0, lat, lon);
    } else {
    }
  }

  /** Every latitude strictly between 21 and 23 falls between the two boxes. */
  lemma LatitudeGapIsUnknown(lat: real, lon: real)
    requires 21.0 < lat < 23.0
    ensures GetRegion(lat, lon) == UnknownRegion
  {
  }

  /** A point inside a box classifies as that box's region, bounds included. */
  lemma RegionOfBoxPoint(lat: real, lon: real)
    ensures 23.0 <= lat <= 31.0 && 74.0 <= lon <= 88.0 ==> GetRegion(lat, lon) == "Indo-Gangetic Plain"
    ensures 15.0 <= lat <= 21.0 && 73.0 <= lon <= 80.0 ==> GetRegion(lat, lon) == "Deccan Plateau"
  {
  }

  /** Every region getRegion can return has a non-empty list for each of the three seasons. */
  lemma LookupTotal(lat: real, lon: real, season: Season)
    requires GetRegion(lat, lon) != UnknownRegion && season != Unknown
    ensures Lookup(GetRegion(lat, lon), season).Some?
    ensures |Lookup(GetRegion(lat, lon), season).value| > 0
  {
  }

  /** The Indo-Gangetic Plain in Kharif. */
  lemma IndoGangeticKharif()
    ensures Lookup("Indo-Gangetic Plain", Kharif)
      == Some(["Rice (Paddy)", "Maize", "Sugarcane", "Soybean", "Cotton"])
  {
  }
}
