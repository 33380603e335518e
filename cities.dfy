/**
 * The fixed coordinate table of known cities, the free-text city extractor and
 * the distance guard of the freight predictor (app.py, Predictor.extract_city
 * and Predictor.get_distance).
 */
module Cities {
  import opened Wrappers

  /** A (latitude, longitude) pair in degrees. */
  datatype Coord = Coord(lat: real, lng: real)

  /** One entry of CITY_COORDINATES: a city name and its coordinates. */
  datatype CityEntry = CityEntry(name: string, coord: Coord)

  /**
   * The geodesic distance in kilometres between two coordinates. The ellipsoid
   * computation belongs to a foreign library; all the model relies on is that a
   * distance is never negative.
   */
  type Geodesic = g: (Coord, Coord) -> real | forall a, b :: g(a, b) >= 0.0
    witness (a: Coord, b: Coord) => 0.0

  /**
   * Where distances come from: a coordinate table (CITY_COORDINATES, or any
   * other table in the same shape) and the geodesic function.
   */
  datatype Atlas = Atlas(table: seq<CityEntry>, geodesic: Geodesic)

  /** CITY_COORDINATES, in declaration order (Python dictionaries iterate in insertion order). */
  const CityTable: seq<CityEntry> := [
    CityEntry("霍尔果斯", Coord(44.2167, 80.4167)),
    CityEntry("阿拉木图", Coord(43.2220, 76.8512)),
    CityEntry("阿斯塔纳", Coord(51.1694, 71.4491)),
    CityEntry("塔什干", Coord(41.2995, 69.2401)),
    CityEntry("莫斯科", Coord(55.7558, 37.6173)),
    CityEntry("阿塞拜疆", Coord(40.4093, 49.8671)),
    CityEntry("卡拉干达", Coord(49.8047, 73.1094)),
    CityEntry("希姆肯特", Coord(42.3417, 69.5967)),
    CityEntry("阿克托别", Coord(50.2839, 57.1670)),
    CityEntry("比什凯克", Coord(42.8746, 74.5698)),
    CityEntry("撒马尔罕", Coord(39.6542, 66.9597)),
    CityEntry("新西伯利亚", Coord(55.0084, 82.9357)),
    CityEntry("叶卡捷琳堡", Coord(56.8389, 60.6057)),
    CityEntry("第比利斯", Coord(41.7151, 44.8271))
  ]

  /** CITIES_WITH_HISTORY: the destinations that have historical spreadsheet data. */
  const CitiesWithHistory: seq<string> := ["阿拉木图", "阿斯塔纳", "塔什干", "莫斯科", "阿塞拜疆"]

  /** No two entries of the table share a name, as for the keys of a Python dict. */
  predicate DistinctNames(table: seq<CityEntry>) {
    forall i, j :: 0 <= i < j < |table| ==> table[i].name != table[j].name
  }

  /** CITY_COORDINATES has distinct names, so the first entry CoordOf finds is the dictionary lookup. */
  lemma CityTableDistinct()
    ensures DistinctNames(CityTable)
  {
    var names := Names(CityTable);
    assert names == ["霍尔果斯", "阿拉木图", "阿斯塔纳", "塔什干", "莫斯科", "阿塞拜疆", "卡拉干达",
                     "希姆肯特", "阿克托别", "比什凯克", "撒马尔罕", "新西伯利亚", "叶卡捷琳堡", "第比利斯"];
    assert forall i, j :: 0 <= i < j < |names| ==> names[i] != names[j];
  }

  /** Every city with history has coordinates: CITIES_WITH_HISTORY is entries 1 to 5 of the table. */
  lemma HistoryCitiesKnown()
    ensures forall c :: c in CitiesWithHistory ==> Known(CityTable, c)
  {
    forall k | 0 <= k < |CitiesWithHistory|
      ensures Known(CityTable, CitiesWithHistory[k])
    {
      assert CitiesWithHistory[k] == CityTable[k + 1].name;
      assert Names(CityTable)[k + 1] == CitiesWithHistory[k];
    }
  }

  /** The keys of a coordinate table, in table order. */
  function Names(table: seq<CityEntry>): (names: seq<string>)
    ensures |names| == |table|
    ensures forall i :: 0 <= i < |table| ==> names[i] == table[i].name
  {
    seq(|table|, i requires 0 <= i < |table| => table[i].name)
  }

  /** Python's `name in CITY_COORDINATES`. */
  predicate Known(table: seq<CityEntry>, name: string) {
    name in Names(table)
  }

  /** `pattern` occurs in `text` starting at position `i`. */
  predicate OccursAt(text: string, pattern: string, i: int) {
    0 <= i <= |text| - |pattern| && text[i..i + |pattern|] == pattern
  }

  /** Python's substring test `pattern in text`. */
  predicate Contains(text: string, pattern: string) {
    exists i | 0 <= i <= |text| - |pattern| :: OccursAt(text, pattern, i)
  }

  /** `k` is the first position of `names` whose name occurs in `text`. */
  predicate FirstOccurring(names: seq<string>, text: string, k: int) {
    0 <= k < |names| && Contains(text, names[k]) &&
    forall j :: 0 <= j < k ==> !Contains(text, names[j])
  }

  /**
   * The first name of `names`, in order, that is a substring of `text`, or
   * None when no name is.
   */
  function FirstContained(names: seq<string>, text: string): (r: Option<string>)
    ensures r.None? <==> forall j :: 0 <= j < |names| ==> !Contains(text, names[j])
    ensures r.Some? ==> exists k :: FirstOccurring(names, text, k) && names[k] == r.value
  {
    if names == [] then None
    else if Contains(text, names[0]) then
      assert FirstOccurring(names, text, 0);
      Some(names[0])
    else
      var r := FirstContained(names[1..], text);
      if r.Some? then
        var k :| FirstOccurring(names[1..], text, k) && names[1..][k] == r.value;
        assert FirstOccurring(names, text, k + 1);
        r
      else r
  }

  /**
   * Predictor.extract_city: an NA cell (None) gives None; otherwise the first
   * city of the table, in declaration order, whose name occurs in the text.
   */
  function ExtractCity(table: seq<CityEntry>, text: Option<string>): (r: Option<string>)
    ensures text.None? ==> r.None?
    ensures r.Some? ==> Known(table, r.value) && Contains(text.value, r.value)
    ensures r.Some? ==> exists k :: FirstOccurring(Names(table), text.value, k) && Names(table)[k] == r.value
    ensures text.Some? && r.None? ==> forall c :: c in Names(table) ==> !Contains(text.value, c)
  {
    match text
    case None => None
    case Some(t) => FirstContained(Names(table), t)
  }

  /**
   * `CITY_COORDINATES[name]` for a known city: the coordinates of the first
   * entry with that name (the only one in a Python dict).
   */
  function CoordOf(table: seq<CityEntry>, name: string): (c: Coord)
    requires name in Names(table)
    ensures exists i :: 0 <= i < |table| && table[i] == CityEntry(name, c) &&
                        forall j :: 0 <= j < i ==> table[j].name != name
  {
    if table[0].name == name then table[0].coord
    else
      assert name in Names(table[1..]) by {
        var i :| 0 <= i < |table| && Names(table)[i] == name;
        assert Names(table[1..])[i - 1] == name;
      }
      var c := CoordOf(table[1..], name);
      ghost var i :| 0 <= i < |table[1..]| && table[1..][i] == CityEntry(name, c) &&
        forall j :: 0 <= j < i ==> table[1..][j].name != name;
      assert table[i + 1] == CityEntry(name, c);
      assert forall j :: 0 <= j < i + 1 ==> table[j].name != name by {
        forall j | 0 <= j < i + 1 ensures table[j].name != name {
          if j > 0 { assert table[j] == table[1..][j - 1]; }
        }
      }
      c
  }

  /**
   * Predictor.get_distance: None when either city is missing from the table,
   * otherwise the geodesic distance between their coordinates.
   */
  function GetDistance(atlas: Atlas, fromCity: string, toCity: string): (d: Option<real>)
    ensures d.None? <==> !Known(atlas.table, fromCity) || !Known(atlas.table, toCity)
    ensures d.Some? ==> d.value >= 0.0
    ensures d.Some? ==>
      d.value == atlas.geodesic(CoordOf(atlas.table, fromCity), CoordOf(atlas.table, toCity))
  {
    if !Known(atlas.table, fromCity) || !Known(atlas.table, toCity) then None
    else Some(atlas.geodesic(CoordOf(atlas.table, fromCity), CoordOf(atlas.table, toCity)))
  }

  /** Python truthiness of a distance: `if distance:` is false for None and for 0.0. */
  predicate Truthy(d: Option<real>) {
    d.Some? && d.value != 0.0
  }
}
