/**
 * `LocationHandler`: the dispatch of a location query to directions, a nearby search or a
 * general search; the place-type table, the request the nearby search sends, its radius
 * escalation and fallbacks, the grocery reordering and the truncation of the results; the
 * travel mode of a directions query and the location a query names.
 *
 * The Places, Geocoding and Directions services are oracles from a request to a reply, and
 * the capture groups of the handler's regular expressions are oracles on the query text.
 * Coordinates are kept as the text they are sent as.
 */
module Location {
  import opened Wrappers
  import opened Text

  /** Coordinates, as the text of `f"{lat},{lng}"`'s two parts. */
  datatype Point = Point(lat: string, lng: string)

  const DefaultPoint: Point := Point("55.9086", "-3.3203")
  const DefaultName: string := "Heriot-Watt University"

  // ---------------------------------------------------------------------------
  // Dispatch

  const DirectionsTerms: seq<string> := ["directions to", "how to get to", "route to"]
  const NearbyTerms: seq<string> := ["nearest", "nearby", "closest", "near me"]

  datatype Route = Directions | Nearby | General

  /** `process_location_query` on the lower-cased query: directions first, then nearby, then a general search. */
  function RouteOf(q: string): (r: Route)
    ensures r == Directions <==> ContainsAny(q, DirectionsTerms)
    ensures r == Nearby <==> !ContainsAny(q, DirectionsTerms) && ContainsAny(q, NearbyTerms)
    ensures r == General <==> !ContainsAny(q, DirectionsTerms) && !ContainsAny(q, NearbyTerms)
  {
    if ContainsAny(q, DirectionsTerms) then Directions
    else if ContainsAny(q, NearbyTerms) then Nearby
    else General
  }

  // ---------------------------------------------------------------------------
  // Replies of the Places service

  /** One place; `rating` is the text of a non-zero rating, `openNow` is absent without `opening_hours`. */
  datatype Place = Place(name: string, address: Option<string>, vicinity: Option<string>, rating: Option<string>, openNow: Option<bool>)

  /** The decoded reply of a Places request, or the exception the request raised. */
  datatype SearchReply = Answer(status: string, results: seq<Place>) | RequestFailed

  /** `data['status'] == 'OK' and data.get('results')`. */
  predicate Found(r: SearchReply) {
    r.Answer? && r.status == "OK" && r.results != []
  }

  /** A text search: the query, and the point a 5 km radius is centred on when a location was named. */
  datatype TextRequest = TextRequest(query: string, near: Option<Point>)

  /** A nearby search: the centre, the `type` and `keyword` parameters (absent when `None`), and the radius in metres. */
  datatype NearbyRequest = NearbyRequest(at: Point, placeType: Option<string>, keyword: Option<string>, radius: nat)

  datatype DirectionsRequest = DirectionsRequest(origin: string, destination: string, mode: string)

  /** The first leg of the first route of an `OK` reply, another status, or a failure. */
  datatype DirectionsReply = Leg(distance: string, duration: string, steps: seq<string>) | DirectionsStatus(status: string) | DirectionsFailed

  /** The service oracles and the capture groups of the regular expressions, applied to the lower-cased query. */
  datatype Services = Services(
    typeGroup: string -> Option<string>,
    placeGroup: string -> Option<string>,
    destinationGroup: string -> Option<string>,
    originGroup: string -> Option<string>,
    geocode: string -> Option<Point>,
    nearby: NearbyRequest -> SearchReply,
    textSearch: TextRequest -> SearchReply,
    directions: DirectionsRequest -> DirectionsReply)

  // ---------------------------------------------------------------------------
  // The location a query names

  const GenericTerms: seq<string> := ["the area", "the city", "here", "there", "the location", "this place"]

  datatype LocationInfo = LocationInfo(at: Point, name: string)

  /** `_extract_location_from_query`. */
  function LocationOf(q: string, svc: Services): (r: Option<LocationInfo>)
    ensures Contains(Lower(q), "near me") ==> r == Some(LocationInfo(DefaultPoint, DefaultName))
    ensures !Contains(Lower(q), "near me") && svc.placeGroup(q).None? ==> r.None?
    ensures !Contains(Lower(q), "near me") && svc.placeGroup(q).Some? ==>
      var name := Strip(svc.placeGroup(q).value);
      r.Some? && (if Lower(name) in GenericTerms then r.value == LocationInfo(DefaultPoint, DefaultName)
                  else r.value.name == name && (svc.geocode(name).Some? ==> r.value.at == svc.geocode(name).value)
                       && (svc.geocode(name).None? ==> r.value.at == DefaultPoint))
  {
    if Contains(Lower(q), "near me") then Some(LocationInfo(DefaultPoint, DefaultName))
    else match svc.placeGroup(q)
      case None => None
      case Some(g) =>
        var name := Strip(g);
        if Lower(name) in GenericTerms then Some(LocationInfo(DefaultPoint, DefaultName))
        else Some(LocationInfo(svc.geocode(name).GetOr(DefaultPoint), name))
  }

  // ---------------------------------------------------------------------------
  // The place-type table

  /** `type_patterns` in declared order. */
  const TypePatterns: seq<(string, string)> := [
    ("restaurant", "restaurant"), ("restaurants", "restaurant"), ("dining", "restaurant"), ("diner", "restaurant"),
    ("caf\U{221A}\U{A9}", "cafe"), ("cafe", "cafe"), ("coffee", "cafe"), ("coffee shop", "cafe"),
    ("gas", "gas_station"), ("gas station", "gas_station"), ("petrol", "gas_station"), ("fuel", "gas_station"),
    ("petrol station", "gas_station"),
    ("grocery", "grocery_store"), ("supermarket", "grocery_store"), ("food store", "grocery_store"),
    ("grocery store", "grocery_store"), ("markets", "grocery_store"),
    ("pharmacy", "pharmacy"), ("chemist", "pharmacy"), ("drugstore", "pharmacy"),
    ("hospital", "hospital"), ("medical center", "hospital"), ("emergency room", "hospital"),
    ("atm", "atm"), ("cash machine", "atm"), ("bank", "bank"),
    ("hotel", "lodging"), ("motel", "lodging"), ("lodging", "lodging"), ("inn", "lodging"), ("accommodation", "lodging"),
    ("school", "school"), ("university", "university"), ("college", "university"),
    ("park", "park"), ("playground", "park"), ("garden", "park"), ("parking", "parking"), ("car park", "parking"),
    ("post office", "post_office"), ("postal", "post_office"),
    ("cinema", "movie_theater"), ("theater", "movie_theater"), ("movie", "movie_theater"), ("films", "movie_theater"),
    ("mall", "shopping_mall"), ("shopping center", "shopping_mall"), ("shopping", "shopping_mall"),
    ("shopping centre", "shopping_mall"),
    ("store", "store"), ("shop", "store"), ("retail", "store"), ("library", "library"),
    ("book store", "book_store"), ("bookstore", "book_store"),
    ("museum", "museum"), ("gallery", "museum"), ("exhibition", "museum"),
    ("bar", "bar"), ("pub", "bar"), ("tavern", "bar"),
    ("night club", "night_club"), ("nightclub", "night_club"), ("club", "night_club"), ("disco", "night_club")]

  /** The index of the first key of `table` at or after `i` that occurs in `s`. */
  function KeyIndexFrom(table: seq<(string, string)>, s: string, i: nat): (r: Option<nat>)
    ensures r.Some? ==> i <= r.value < |table| && Contains(s, table[r.value].0)
    ensures r.Some? ==> forall j :: i <= j < r.value ==> !Contains(s, table[j].0)
    ensures r.None? ==> forall j :: i <= j < |table| ==> !Contains(s, table[j].0)
    decreases |table| - i
  {
    if i >= |table| then None
    else if Contains(s, table[i].0) then Some(i)
    else KeyIndexFrom(table, s, i + 1)
  }

  /** The value of the first key of `table` that occurs in `s`. */
  function FirstMatch(table: seq<(string, string)>, s: string): Option<string> {
    match KeyIndexFrom(table, s, 0)
    case None => None
    case Some(i) => Some(table[i].1)
  }

  /** The type value of the first pattern in `s`. */
  function TypeOf(s: string): Option<string> {
    FirstMatch(TypePatterns, s)
  }

  /** The `for pattern, type_value in type_patterns.items()` loop with its `break`, over any table. */
  method LookupIn(table: seq<(string, string)>, s: string) returns (value: Option<string>)
    ensures value == FirstMatch(table, s)
  {
    var i := 0;
    while i < |table|
      invariant 0 <= i <= |table|
      invariant KeyIndexFrom(table, s, 0) == KeyIndexFrom(table, s, i)
    {
      if Contains(s, table[i].0) {
        return Some(table[i].1);
      }
      i := i + 1;
    }
    return None;
  }

  method LookupType(s: string) returns (placeType: Option<string>)
    ensures placeType == TypeOf(s)
  {
    placeType := LookupIn(TypePatterns, s);
  }

  /** `value in type_patterns.values()`. */
  predicate IsKnownType(t: string) {
    exists i :: 0 <= i < |TypePatterns| && TypePatterns[i].1 == t
  }

  /** Every key of an entry past `k` that contains the key of entry `k` is shadowed by it. */
  lemma {:induction false} ShadowedEntry(s: string, k: nat, m: nat)
    requires k < m < |TypePatterns| && Contains(TypePatterns[m].0, TypePatterns[k].0)
    ensures KeyIndexFrom(TypePatterns, s, 0) != Some(m)
  {
    if KeyIndexFrom(TypePatterns, s, 0) == Some(m) {
      ContainsTransitive(s, TypePatterns[m].0, TypePatterns[k].0);
      assert false;
    }
  }

  lemma ParkingEntries()
    ensures TypePatterns[35].0 == "park" && TypePatterns[38] == ("parking", "parking") && TypePatterns[39] == ("car park", "parking")
  {
  }

  lemma ParkingKeysContainPark()
    ensures Contains("parking", "park") && Contains("car park", "park")
  {
    ContainsAt("parking", "park", 0);
    ContainsAt("car park", "park", 4);
  }

  /**
   * The two "parking" entries are shadowed by the earlier "park", so a query about parking is
   * looked up as a park.
   */
  lemma ParkingIsLookedUpAsPark(s: string)
    ensures KeyIndexFrom(TypePatterns, s, 0) != Some(38) && KeyIndexFrom(TypePatterns, s, 0) != Some(39)
    ensures Contains(s, "parking") ==> KeyIndexFrom(TypePatterns, s, 0).Some? && KeyIndexFrom(TypePatterns, s, 0).value <= 35
  {
    ParkingEntries();
    ParkingKeysContainPark();
    ShadowedEntry(s, 35, 38);
    ShadowedEntry(s, 35, 39);
    if Contains(s, "parking") {
      ContainsTransitive(s, "parking", "park");
    }
  }

  lemma BookStoreEntries()
    ensures TypePatterns[50].0 == "store" && TypePatterns[54] == ("book store", "book_store") && TypePatterns[55] == ("bookstore", "book_store")
  {
  }

  lemma BookStoreKeysContainStore()
    ensures Contains("book store", "store") && Contains("bookstore", "store")
  {
    ContainsAt("book store", "store", 5);
    ContainsAt("bookstore", "store", 4);
  }

  /** Likewise both "book store" keys are shadowed by "store". */
  lemma BookStoreIsLookedUpAsStore(s: string)
    ensures KeyIndexFrom(TypePatterns, s, 0) != Some(54) && KeyIndexFrom(TypePatterns, s, 0) != Some(55)
  {
    BookStoreEntries();
    BookStoreKeysContainStore();
    ShadowedEntry(s, 50, 54);
    ShadowedEntry(s, 50, 55);
  }

  // ---------------------------------------------------------------------------
  // The nearby search

  /** Python truthiness of the place type. */
  predicate HasType(t: Option<string>) { t.Some? && t.value != [] }

  /** The place type: the table on the query, else the table on the words after "nearest", else those words themselves. */
  function ResolvedType(q: string, svc: Services): (r: Option<string>)
    ensures TypeOf(q).Some? ==> r == TypeOf(q)
    ensures TypeOf(q).None? && svc.typeGroup(q).None? ==> r.None?
    ensures TypeOf(q).None? && svc.typeGroup(q).Some? ==>
      r == (if TypeOf(Strip(svc.typeGroup(q).value)).Some? then TypeOf(Strip(svc.typeGroup(q).value))
            else Some(Strip(svc.typeGroup(q).value)))
  {
    match TypeOf(q)
    case Some(t) => Some(t)
    case None =>
      match svc.typeGroup(q)
      case None => None
      case Some(g) =>
        var extracted := Strip(g);
        match TypeOf(extracted)
        case Some(t) => Some(t)
        case None => Some(extracted)
  }

  const GroceryType: string := "grocery_store"
  const GroceryKeyword: string := "supermarket grocery"

  /** The nearby request at one radius: a known type goes in `type` (grocery adds a keyword), anything else in `keyword`. */
  function NearbyAt(at: Point, t: Option<string>, radius: nat): (r: NearbyRequest)
    ensures r.at == at && r.radius == radius
    ensures t.Some? && IsKnownType(t.value) ==> r.placeType == t
    ensures t.Some? && IsKnownType(t.value) ==> (r.keyword == Some(GroceryKeyword) <==> t.value == GroceryType)
    ensures !(t.Some? && IsKnownType(t.value)) ==> r.placeType.None? && r.keyword == t
  {
    if t.Some? && IsKnownType(t.value) then
      NearbyRequest(at, t, if t.value == GroceryType then Some(GroceryKeyword) else None, radius)
    else NearbyRequest(at, None, t, radius)
  }

  /** `f"{place_type}"`. */
  function TypeText(t: Option<string>): string {
    if t.Some? then t.value else "None"
  }

  function TextFallback(t: Option<string>, name: string): TextRequest {
    TextRequest(TypeText(t) + " near " + name, None)
  }

  const Radii: seq<nat> := [2000, 5000, 10000, 20000]

  /** What one radius yields: the nearby results, or on `INVALID_REQUEST` the text-search results. */
  function RadiusResults(at: Point, t: Option<string>, name: string, radius: nat, svc: Services): Option<seq<Place>> {
    var reply := svc.nearby(NearbyAt(at, t, radius));
    if Found(reply) then Some(reply.results)
    else if reply.Answer? && reply.status == "INVALID_REQUEST" && Found(svc.textSearch(TextFallback(t, name))) then
      Some(svc.textSearch(TextFallback(t, name)).results)
    else None
  }

  /** The radius loop from `Radii[k]` on: the first radius that yields results wins. */
  function RadiusSearch(at: Point, t: Option<string>, name: string, svc: Services, k: nat): (r: seq<Place>)
    ensures r != [] ==>
      (exists j :: k <= j < |Radii| && RadiusResults(at, t, name, Radii[j], svc) == Some(r) &&
                   (forall i :: k <= i < j ==> RadiusResults(at, t, name, Radii[i], svc).None?))
    ensures r == [] ==> forall i :: k <= i < |Radii| ==> RadiusResults(at, t, name, Radii[i], svc).None?
    decreases |Radii| - k
  {
    if k >= |Radii| then []
    else match RadiusResults(at, t, name, Radii[k], svc)
      case Some(rs) => rs
      case None => RadiusSearch(at, t, name, svc, k + 1)
  }

  /** `for radius in [2000, 5000, 10000, 20000]` with its `break`s. */
  method SearchRadii(at: Point, t: Option<string>, name: string, svc: Services) returns (results: seq<Place>)
    ensures results == RadiusSearch(at, t, name, svc, 0)
  {
    results := [];
    var k := 0;
    while k < |Radii|
      invariant 0 <= k <= |Radii|
      invariant RadiusSearch(at, t, name, svc, 0) == RadiusSearch(at, t, name, svc, k)
    {
      var reply := svc.nearby(NearbyAt(at, t, Radii[k]));
      if Found(reply) {
        results := reply.results;
        break;
      }
      if reply.Answer? && reply.status == "INVALID_REQUEST" {
        var text := svc.textSearch(TextFallback(t, name));
        if Found(text) {
          results := text.results;
          break;
        }
      }
      k := k + 1;
    }
  }

  /** The results after the radius loop and the last text-search fallback, which needs a place type. */
  function NearbyResults(at: Point, t: Option<string>, name: string, svc: Services): (r: seq<Place>) {
    var rs := RadiusSearch(at, t, name, svc, 0);
    if rs == [] && HasType(t) && Found(svc.textSearch(TextFallback(t, name))) then svc.textSearch(TextFallback(t, name)).results
    else rs
  }

  // ---------------------------------------------------------------------------
  // The grocery filter

  const ExcludedTerms: seq<string> := ["hotel", "apartment", "accommodation"]
  const GroceryTerms: seq<string> := ["grocery", "supermarket", "food", "market", "store"]

  /** Where the filter puts a place: dropped, inserted at the front, or appended. */
  datatype Rank = Dropped | Front | Back

  function RankOf(p: Place): Rank {
    var name := Lower(p.name);
    if ContainsAny(name, ExcludedTerms) then Dropped
    else if ContainsAny(name, GroceryTerms) then Front
    else Back
  }

  /** `filtered_results` after the loop: prioritised places inserted at the front, ordinary ones appended. */
  function GroceryOrder(ps: seq<Place>): seq<Place> {
    if ps == [] then []
    else
      var init := GroceryOrder(ps[..|ps| - 1]);
      var p := ps[|ps| - 1];
      match RankOf(p)
      case Dropped => init
      case Front => [p] + init
      case Back => init + [p]
  }

  /** The places of `ps` of rank `k`, in order. */
  function Keep(ps: seq<Place>, k: Rank): seq<Place> {
    if ps == [] then []
    else
      var init := Keep(ps[..|ps| - 1], k);
      if RankOf(ps[|ps| - 1]) == k then init + [ps[|ps| - 1]] else init
  }

  lemma {:induction false} KeepMembers(ps: seq<Place>, k: Rank)
    ensures forall p :: p in Keep(ps, k) <==> p in ps && RankOf(p) == k
  {
    if ps != [] {
      KeepMembers(ps[..|ps| - 1], k);
      assert ps == ps[..|ps| - 1] + [ps[|ps| - 1]];
    }
  }

  /** The filter keeps exactly the places whose names name no lodging. */
  lemma {:induction false} GroceryOrderMembers(ps: seq<Place>)
    ensures forall p :: p in GroceryOrder(ps) <==> p in ps && RankOf(p) != Dropped
  {
    if ps != [] {
      GroceryOrderMembers(ps[..|ps| - 1]);
      assert ps == ps[..|ps| - 1] + [ps[|ps| - 1]];
    }
  }

  function Reversed<T>(s: seq<T>): seq<T> {
    if s == [] then [] else [s[|s| - 1]] + Reversed(s[..|s| - 1])
  }

  lemma ReversedSnoc<T>(s: seq<T>, x: T)
    ensures Reversed(s + [x]) == [x] + Reversed(s)
  {
    assert (s + [x])[..|s|] == s;
  }

  /** How the last place of a reply extends the reordered list and the two kept lists. */
  lemma LastPlace(ps: seq<Place>)
    requires ps != []
    ensures var init, p := ps[..|ps| - 1], ps[|ps| - 1];
      match RankOf(p)
      case Dropped => GroceryOrder(ps) == GroceryOrder(init) && Keep(ps, Front) == Keep(init, Front) && Keep(ps, Back) == Keep(init, Back)
      case Front => GroceryOrder(ps) == [p] + GroceryOrder(init) && Keep(ps, Front) == Keep(init, Front) + [p] && Keep(ps, Back) == Keep(init, Back)
      case Back => GroceryOrder(ps) == GroceryOrder(init) + [p] && Keep(ps, Front) == Keep(init, Front) && Keep(ps, Back) == Keep(init, Back) + [p]
  {
  }

  lemma Reassociate<T>(x: T, r: seq<T>, o: seq<T>)
    ensures [x] + (r + o) == ([x] + r) + o && (r + o) + [x] == r + (o + [x])
  {
  }

  /**
   * The reordered list is the prioritised places in reverse order of the reply, then the
   * ordinary places in the reply's order; excluded places are dropped.
   */
  lemma {:induction false} GroceryOrderShape(ps: seq<Place>)
    ensures GroceryOrder(ps) == Reversed(Keep(ps, Front)) + Keep(ps, Back)
  {
    if ps != [] {
      var init := ps[..|ps| - 1];
      var p := ps[|ps| - 1];
      GroceryOrderShape(init);
      LastPlace(ps);
      ReversedSnoc(Keep(init, Front), p);
      Reassociate(p, Reversed(Keep(init, Front)), Keep(init, Back));
    }
  }

  /** The filter loop: `continue` past excluded names, `insert(0, …)` prioritised ones, `append` the rest. */
  method FilterGroceries(ps: seq<Place>) returns (filtered: seq<Place>)
    ensures filtered == GroceryOrder(ps)
  {
    filtered := [];
    var k := 0;
    while k < |ps|
      invariant 0 <= k <= |ps|
      invariant filtered == GroceryOrder(ps[..k])
    {
      assert ps[..k + 1][..k] == ps[..k];
      var p := ps[k];
      var name := Lower(p.name);
      if ContainsAny(name, ExcludedTerms) {
        k := k + 1;
        continue;
      }
      if ContainsAny(name, GroceryTerms) {
        filtered := [p] + filtered;
      } else {
        filtered := filtered + [p];
      }
      k := k + 1;
    }
    assert ps[..k] == ps;
  }

  /** The results a reply shows: the grocery order when it keeps anything, then the first `n`. */
  function Shown(rs: seq<Place>, t: Option<string>, n: nat): (r: seq<Place>)
    ensures |r| <= n
    ensures t != Some(GroceryType) || GroceryOrder(rs) == [] ==> r == rs[..if |rs| < n then |rs| else n]
    ensures t == Some(GroceryType) && GroceryOrder(rs) != [] ==>
      r == GroceryOrder(rs)[..if |GroceryOrder(rs)| < n then |GroceryOrder(rs)| else n]
    ensures t == Some(GroceryType) && GroceryOrder(rs) != [] ==> forall p :: p in r ==> p in rs && RankOf(p) != Dropped
  {
    GroceryOrderMembers(rs);
    var ordered := if t == Some(GroceryType) && GroceryOrder(rs) != [] then GroceryOrder(rs) else rs;
    var r := ordered[..if |ordered| < n then |ordered| else n];
    assert forall p :: p in r ==> p in ordered;
    r
  }

  // ---------------------------------------------------------------------------
  // Reply texts

  /** The address a nearby line shows: the vicinity, else the formatted address. */
  function NearbyAddress(p: Place): string {
    if p.vicinity.Some? then p.vicinity.value else p.address.GetOr("Address not available")
  }

  /** The address a general-search line shows. */
  function GeneralAddress(p: Place): string {
    p.address.GetOr("Address not available")
  }

  /** One numbered line: name, address, rating, opening state. */
  function PlaceLine(i: nat, p: Place, address: string): string {
    NatToString(i) + ". " + p.name + " - " + address + ". "
      + (if p.rating.Some? then "Rated " + p.rating.value + "/5. " else "")
      + (if p.openNow.Some? then "Currently " + (if p.openNow.value then "open" else "closed") + ". " else "")
      + "\n"
  }

  /** The numbered lines of `ps`, built from the end like the `+=` loop. */
  function PlaceLines(ps: seq<Place>, nearby: bool): string {
    if ps == [] then ""
    else
      var p := ps[|ps| - 1];
      PlaceLines(ps[..|ps| - 1], nearby) + PlaceLine(|ps|, p, if nearby then NearbyAddress(p) else GeneralAddress(p))
  }

  /** The `for i, place in enumerate(results, 1)` loop. */
  method FormatPlaces(ps: seq<Place>, nearby: bool) returns (text: string)
    ensures text == PlaceLines(ps, nearby)
  {
    text := "";
    var k := 0;
    while k < |ps|
      invariant 0 <= k <= |ps|
      invariant text == PlaceLines(ps[..k], nearby)
    {
      assert ps[..k + 1][..k] == ps[..k];
      var p := ps[k];
      text := text + PlaceLine(k + 1, p, if nearby then NearbyAddress(p) else GeneralAddress(p));
      k := k + 1;
    }
    assert ps[..k] == ps;
  }

  const NearbyHeader: string := "Here are the results"
  const GeneralHeader: string := "Here's what I found:\n"

  function NothingNearby(t: Option<string>, name: string): string {
    "I couldn't find any " + (if HasType(t) then t.value else "places") + " nearby " + name + "."
  }

  /** `_handle_nearby_query`. */
  function NearbyReply(q: string, svc: Services): string {
    var t := ResolvedType(q, svc);
    var info := LocationOf(q, svc).GetOr(LocationInfo(DefaultPoint, DefaultName));
    var rs := NearbyResults(info.at, t, info.name, svc);
    if rs == [] then NothingNearby(t, info.name)
    else NearbyHeader + PlaceLines(Shown(rs, t, 3), true)
  }

  /** The place-type lookup of `_handle_nearby_query`: the table, then the words after "nearest". */
  method ResolveType(q: string, svc: Services) returns (t: Option<string>)
    ensures t == ResolvedType(q, svc)
  {
    t := LookupType(q);
    if t.None? {
      var group := svc.typeGroup(q);
      if group.Some? {
        var extracted := Strip(group.value);
        t := LookupType(extracted);
        if t.None? {
          t := Some(extracted);
        }
      }
    }
  }

  /** The radius loop and the text-search fallback after it. */
  method CollectResults(at: Point, t: Option<string>, name: string, svc: Services) returns (results: seq<Place>)
    ensures results == NearbyResults(at, t, name, svc)
  {
    results := SearchRadii(at, t, name, svc);
    if results == [] && HasType(t) {
      var fallback := svc.textSearch(TextFallback(t, name));
      if Found(fallback) {
        results := fallback.results;
      }
    }
  }

  /** `_handle_nearby_query` as the handler runs it. */
  method HandleNearby(q: string, svc: Services) returns (reply: string)
    ensures reply == NearbyReply(q, svc)
  {
    var t := ResolveType(q, svc);
    var info := LocationOf(q, svc).GetOr(LocationInfo(DefaultPoint, DefaultName));
    var results := CollectResults(info.at, t, info.name, svc);
    if results == [] {
      return NothingNearby(t, info.name);
    }
    if t == Some(GroceryType) {
      var filtered := FilterGroceries(results);
      if filtered != [] {
        results := filtered;
      }
    }
    results := results[..if |results| < 3 then |results| else 3];
    var lines := FormatPlaces(results, true);
    reply := NearbyHeader + lines;
  }

  // ---------------------------------------------------------------------------
  // The general search

  const GeneralError: string := "I encountered an error while searching. Please try again."
  const ServiceTrouble: string := "I'm having trouble connecting to the location service. Please try again later."
  const NothingMatching: string := "I couldn't find any places matching your search."

  function NoPlacesMatching(q: string): string {
    "I couldn't find any places matching '" + q + "'."
  }

  function GeneralRequest(q: string, svc: Services): TextRequest {
    TextRequest(q, match LocationOf(q, svc) case None => None case Some(info) => Some(info.at))
  }

  /**
   * `_handle_general_query` as written: `data = response.json` binds the method without
   * calling it, so `data['status']` raises and every general search ends in the error reply.
   */
  function GeneralReplyAsWritten(q: string, svc: Services): string {
    match svc.textSearch(GeneralRequest(q, svc))
    case RequestFailed => GeneralError
    case Answer(_, _) => GeneralError
  }

  /** Even a search that finds places is answered with the error reply instead of the list. */
  lemma GeneralSearchAlwaysFailsAsWritten(q: string, svc: Services)
    requires Found(svc.textSearch(GeneralRequest(q, svc)))
    ensures GeneralReplyAsWritten(q, svc) == GeneralError
    ensures var rs := svc.textSearch(GeneralRequest(q, svc)).results;
      GeneralReply(q, svc) == GeneralHeader + PlaceLines(rs[..FirstFive(rs)], false)
  {
  }

  /** `_handle_general_query` with `response.json()` called: the status checks, then the first five places. */
  function GeneralReply(q: string, svc: Services): (r: string)
    ensures svc.textSearch(GeneralRequest(q, svc)).RequestFailed? ==> r == GeneralError
    ensures Found(svc.textSearch(GeneralRequest(q, svc))) ==>
      r == GeneralHeader + PlaceLines(svc.textSearch(GeneralRequest(q, svc)).results[..FirstFive(svc.textSearch(GeneralRequest(q, svc)).results)], false)
    ensures var reply := svc.textSearch(GeneralRequest(q, svc));
      reply.Answer? && !Found(reply) ==>
        r == (if reply.status == "ZERO_RESULTS" then NoPlacesMatching(q)
              else if reply.status == "REQUEST_DENIED" then ServiceTrouble else NothingMatching)
  {
    match svc.textSearch(GeneralRequest(q, svc))
    case RequestFailed => GeneralError
    case Answer(status, results) =>
      if status != "OK" || results == [] then
        if status == "ZERO_RESULTS" then NoPlacesMatching(q)
        else if status == "REQUEST_DENIED" then ServiceTrouble
        else NothingMatching
      else GeneralHeader + PlaceLines(results[..FirstFive(results)], false)
  }

  /** `len(results[:5])`. */
  function FirstFive(rs: seq<Place>): (n: nat)
    ensures n <= |rs| && n <= 5
    ensures |rs| >= 5 ==> n == 5
  {
    if |rs| < 5 then |rs| else 5
  }

  // ---------------------------------------------------------------------------
  // Directions

  const WalkTerms: seq<string> := ["walking", "on foot", "walk"]
  const TransitTerms: seq<string> := ["transit", "bus", "train", "public transport"]
  const CycleTerms: seq<string> := ["bicycle", "bike", "cycling"]

  /** The travel mode: walking before transit before bicycling, driving otherwise. */
  function TravelMode(q: string): (m: string)
    ensures m == "walking" <==> ContainsAny(q, WalkTerms)
    ensures m == "transit" <==> !ContainsAny(q, WalkTerms) && ContainsAny(q, TransitTerms)
    ensures m == "bicycling" <==> !ContainsAny(q, WalkTerms) && !ContainsAny(q, TransitTerms) && ContainsAny(q, CycleTerms)
    ensures m == "driving" <==> !ContainsAny(q, WalkTerms) && !ContainsAny(q, TransitTerms) && !ContainsAny(q, CycleTerms)
  {
    if ContainsAny(q, WalkTerms) then "walking"
    else if ContainsAny(q, TransitTerms) then "transit"
    else if ContainsAny(q, CycleTerms) then "bicycling"
    else "driving"
  }

  const NoDestination: string := "I need a destination to provide directions. Where would you like to go?"
  const DirectionsError: string := "I encountered an error while getting directions. Please try again."

  /** The origin: the text between "from" and "to", else the default location's name. */
  function Origin(q: string, svc: Services): (r: string)
    ensures r != []
    ensures svc.originGroup(q).Some? && Strip(svc.originGroup(q).value) != [] ==> r == Strip(svc.originGroup(q).value)
    ensures svc.originGroup(q).None? || Strip(svc.originGroup(q).value) == [] ==> r == DefaultName
  {
    var o := if svc.originGroup(q).Some? then Strip(svc.originGroup(q).value) else "";
    if o == [] then DefaultName else o
  }

  /** The numbered steps `1. … 2. … `, starting at number `from`. */
  function StepLines(steps: seq<string>, from: nat): string
    decreases |steps|
  {
    if steps == [] then "" else NatToString(from) + ". " + steps[0] + ". " + StepLines(steps[1..], from + 1)
  }

  /** All steps when there are at most three, otherwise the first two and an offer of the rest. */
  function StepsText(steps: seq<string>): string {
    if |steps| <= 3 then "Here are the directions: " + StepLines(steps, 1)
    else "Here's how to start: " + StepLines(steps[..2], 1) + "Would you like the complete directions?"
  }

  /** `_handle_directions_query`. */
  function DirectionsReplyText(q: string, svc: Services): (r: string)
    ensures svc.destinationGroup(q).None? ==> r == NoDestination
  {
    match svc.destinationGroup(q)
    case None => NoDestination
    case Some(g) =>
      var destination := Strip(g);
      var origin := Origin(q, svc);
      var mode := TravelMode(q);
      match svc.directions(DirectionsRequest(origin, destination, mode))
      case DirectionsFailed => DirectionsError
      case DirectionsStatus(status) =>
        if status == "ZERO_RESULTS" then "I couldn't find directions from " + origin + " to " + destination + " by " + mode + "."
        else "I couldn't find directions to " + destination + "."
      case Leg(distance, duration, steps) =>
        "To get from " + origin + " to " + destination + ": "
          + "It's about " + distance + " away and will take approximately " + duration + " by " + mode + ". "
          + StepsText(steps)
  }

  // ---------------------------------------------------------------------------
  // The whole query

  /** `process_location_query`, with the general search reading the reply it receives. */
  function LocationReply(query: string, svc: Services): string {
    var q := Lower(query);
    match RouteOf(q)
    case Directions => DirectionsReplyText(q, svc)
    case Nearby => NearbyReply(q, svc)
    case General => GeneralReply(q, svc)
  }

  /** A query naming both directions and something nearby is a directions query. */
  lemma DirectionsComeFirst(query: string, svc: Services)
    requires ContainsAny(Lower(query), DirectionsTerms)
    ensures LocationReply(query, svc) == DirectionsReplyText(Lower(query), svc)
  {
  }

  /** `process_location_query`. */
  method ProcessLocationQuery(query: string, svc: Services) returns (reply: string)
    ensures reply == LocationReply(query, svc)
  {
    var q := Lower(query);
    if ContainsAny(q, DirectionsTerms) {
      return DirectionsReplyText(q, svc);
    }
    if ContainsAny(q, NearbyTerms) {
      reply := HandleNearby(q, svc);
      return;
    }
    return GeneralReply(q, svc);
  }
}
