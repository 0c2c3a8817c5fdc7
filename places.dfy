/** The static catalogue of places and regions, and the pure queries over it:
    the lookup behind the details view, the case-insensitive trip search and
    the region filter. */
module Places {
  import opened Seqs
  import opened Text

  datatype Place = Place(name: string, lat: real, lng: real, foods: seq<string>, region: string)

  /** The map view a region zooms to. */
  datatype Region = Region(lat: real, lng: real, zoom: nat)

  const PlaceList: seq<Place> := [
    Place("But First Coffee, Santa Rosa", 38.4404, -122.7141, ["Strawberry Frappe", "Vanilla Latte", "Croissant"], "USA"),
    Place("But First Coffee, Biñan", 14.3347, 121.0847, ["Strawberry Frappe", "Chocolate Mocha", "Bagel"], "Philippines"),
    Place("Ichiran Ramen, Tokyo", 35.6762, 139.6503, ["Tonkotsu Ramen", "Miso Ramen", "Gyoza"], "Japan"),
    Place("Café de Flore, Paris", 48.8566, 2.3522, ["Croissant", "Espresso", "Quiche"], "France"),
    Place("Starbucks, New York", 40.7128, -74.0060, ["Pumpkin Spice Latte", "Blueberry Muffin", "Chicken Sandwich"], "USA")
  ]

  const Regions: map<string, Region> := map[
    "Japan" := Region(36.2048, 138.2529, 6),
    "USA" := Region(37.0902, -95.7129, 4),
    "Philippines" := Region(12.8797, 121.7740, 6),
    "France" := Region(46.2276, 2.2137, 6)
  ]

  /** The first place called `name`, or `None` when no place has that name. */
  function Find(ps: seq<Place>, name: string): (r: Option<Place>)
    ensures r.None? <==> forall i :: 0 <= i < |ps| ==> ps[i].name != name
    ensures r.Some? ==> r.value in ps && r.value.name == name
  {
    if ps == [] then None
    else if ps[0].name == name then Some(ps[0])
    else Find(ps[1..], name)
  }

  /** What `Find` returns is the place at the first position carrying that name. */
  lemma {:induction false} FindReturnsFirst(ps: seq<Place>, name: string)
    requires Find(ps, name).Some?
    ensures exists i :: FirstNamed(ps, name, i) && ps[i] == Find(ps, name).value
  {
    if ps[0].name == name {
      assert FirstNamed(ps, name, 0);
    } else {
      FindReturnsFirst(ps[1..], name);
      var i :| FirstNamed(ps[1..], name, i) && ps[1..][i] == Find(ps[1..], name).value;
      assert FirstNamed(ps, name, i + 1);
    }
  }

  /** Position `i` holds the first place of `ps` called `name`. */
  ghost predicate FirstNamed(ps: seq<Place>, name: string, i: int)
  {
    0 <= i < |ps| && ps[i].name == name && forall j :: 0 <= j < i ==> ps[j].name != name
  }

  /** Whether a place's name, lower-cased, contains the lower-cased query. */
  predicate MatchesQuery(p: Place, query: string)
  {
    Includes(Lower(p.name), Lower(query))
  }

  /** The places whose name contains `query`, ignoring ASCII case, in catalogue order. */
  function TripFilter(ps: seq<Place>, query: string): (r: seq<Place>)
    ensures forall k :: 0 <= k < |r| ==> r[k] in ps && MatchesQuery(r[k], query)
    ensures forall k :: 0 <= k < |ps| && MatchesQuery(ps[k], query) ==> ps[k] in r
    ensures IsSubsequence(r, ps)
    ensures Embeds(r, ps, Positions(p => MatchesQuery(p, query), ps))
  {
    FilterIsSubsequence(p => MatchesQuery(p, query), ps);
    FilterPicksPositions(p => MatchesQuery(p, query), ps);
    Filter(p => MatchesQuery(p, query), ps)
  }

  /** A place matches exactly when the lower-cased query occurs at some
      position of its lower-cased name. */
  lemma MatchesQueryIffOccurs(p: Place, query: string)
    ensures MatchesQuery(p, query) <==> exists i: nat :: OccursAt(Lower(p.name), Lower(query), i)
  {
    assert MatchesQuery(p, query) == Includes(Lower(p.name), Lower(query));
    IncludesIffOccurs(Lower(p.name), Lower(query));
  }

  /** An empty query keeps every place. */
  lemma TripFilterEmptyQuery(ps: seq<Place>)
    ensures TripFilter(ps, "") == ps
  {
    FilterKeepAll(p => MatchesQuery(p, ""), ps);
  }

  /** Queries that differ only in ASCII case select the same places. */
  lemma TripFilterIgnoresCase(ps: seq<Place>, q: string, q': string)
    requires Lower(q) == Lower(q')
    ensures TripFilter(ps, q) == TripFilter(ps, q')
  {
    FilterCongruent(p => MatchesQuery(p, q), p => MatchesQuery(p, q'), ps);
  }

  /** What the region zoom applies: the view to move to and the places to mark. */
  datatype RegionZoom = RegionZoom(view: Region, markers: seq<Place>)

  /** The zoom for region key `r`: nothing when `r` is not a known region,
      otherwise that region's view and the places of that region in order. */
  function ZoomRegion(regions: map<string, Region>, ps: seq<Place>, r: string): (z: Option<RegionZoom>)
    ensures z.None? <==> r !in regions
    ensures z.Some? ==> z.value.view == regions[r]
    ensures z.Some? ==> forall k :: 0 <= k < |z.value.markers| ==> z.value.markers[k] in ps && z.value.markers[k].region == r
    ensures z.Some? ==> forall k :: 0 <= k < |ps| && ps[k].region == r ==> ps[k] in z.value.markers
    ensures z.Some? ==> IsSubsequence(z.value.markers, ps)
    ensures z.Some? ==> Embeds(z.value.markers, ps, Positions((p: Place) => p.region == r, ps))
  {
    if r !in regions then None
    else
      FilterIsSubsequence((p: Place) => p.region == r, ps);
      FilterPicksPositions((p: Place) => p.region == r, ps);
      Some(RegionZoom(regions[r], Filter((p: Place) => p.region == r, ps)))
  }
}
