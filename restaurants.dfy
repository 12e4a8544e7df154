/**
 * The parts of the nearby-restaurants page that do not depend on the
 * document or on the maps service: choosing and ordering the places to
 * show, dispatching on the search status, the star string, the marker
 * colour, the geolocation error message and the map/list view switch.
 *
 * Ratings are compared and rounded only, so they are modelled as `real`.
 */
module Restaurants {
  import opened Wrappers

  /** Minimum rating a place needs to be shown. */
  const MIN_RATING: real := 4.0
  /** How many places are kept at most. */
  const MAX_RESULTS: nat := 20

  /** A place as the nearby search returns it: `rating` is None when undefined. */
  datatype Place = Place(name: string, rating: Option<real>)

  // ---------------------------------------------------------------------
  // Ranking: filter, sort, slice
  // ---------------------------------------------------------------------

  /** `place.rating || 0`: the sort key. */
  function RatingOrZero(p: Place): (k: real)
    ensures p.rating.Some? ==> k == p.rating.value
    ensures p.rating.None? ==> k == 0.0
  {
    p.rating.GetOr(0.0)
  }

  /**
   * `place.rating && place.rating >= MIN_RATING`: a truthy rating of at
   * least 4.0. Since 4.0 is itself truthy, the truthiness test never decides.
   */
  predicate HighlyRated(p: Place): (b: bool)
    ensures b <==> p.rating.Some? && RatingOrZero(p) >= MIN_RATING
  {
    p.rating.Some? && p.rating.value != 0.0 && p.rating.value >= MIN_RATING
  }

  /** `results.filter(place => place.rating && place.rating >= MIN_RATING)`. */
  function FilterHighlyRated(s: seq<Place>): (r: seq<Place>)
    ensures forall p :: multiset(r)[p] == if HighlyRated(p) then multiset(s)[p] else 0
  {
    if s == [] then []
    else
      assert s == [s[0]] + s[1..];
      (if HighlyRated(s[0]) then [s[0]] else []) + FilterHighlyRated(s[1..])
  }

  /** Non-increasing order of the sort key. */
  predicate SortedByRatingDesc(s: seq<Place>) {
    forall i, j :: 0 <= i < j < |s| ==> RatingOrZero(s[i]) >= RatingOrZero(s[j])
  }

  /**
   * Inserts `p` before the first element whose key is not larger, so that
   * among equal keys the inserted element comes first.
   */
  function InsertByRating(p: Place, s: seq<Place>): (r: seq<Place>)
    requires SortedByRatingDesc(s)
    ensures SortedByRatingDesc(r)
    ensures multiset(r) == multiset(s) + multiset{p}
    ensures |r| == |s| + 1
    ensures r != [] && (r[0] == p || (s != [] && r[0] == s[0]))
  {
    if s == [] || RatingOrZero(p) >= RatingOrZero(s[0]) then [p] + s
    else
      assert s == [s[0]] + s[1..];
      [s[0]] + InsertByRating(p, s[1..])
  }

  /**
   * `.sort((a, b) => (b.rating || 0) - (a.rating || 0))`: a stable sort by
   * rating, highest first.
   */
  function SortByRatingDesc(s: seq<Place>): (r: seq<Place>)
    ensures SortedByRatingDesc(r)
    ensures multiset(r) == multiset(s)
  {
    if s == [] then []
    else
      assert s == [s[0]] + s[1..];
      InsertByRating(s[0], SortByRatingDesc(s[1..]))
  }

  /** Every place in `s` has a truthy rating of at least 4.0. */
  predicate AllHighlyRated(s: seq<Place>) {
    forall p :: p in s ==> HighlyRated(p)
  }

  lemma FilterAllHighlyRated(s: seq<Place>)
    ensures AllHighlyRated(FilterHighlyRated(s))
  {
  }

  /**
   * A prefix of a list sorted by rating is sorted by rating, contains its
   * elements no more often than the list does, and keeps any property that
   * all of the list's elements have.
   */
  lemma PrefixKeeps(s: seq<Place>, k: nat)
    requires k <= |s|
    ensures SortedByRatingDesc(s) ==> SortedByRatingDesc(s[..k])
    ensures multiset(s[..k]) <= multiset(s)
    ensures AllHighlyRated(s) ==> AllHighlyRated(s[..k])
  {
    assert s == s[..k] + s[k..];
    assert forall i :: 0 <= i < k ==> s[..k][i] == s[i];
  }

  /**
   * In a list sorted by rating, a place that occurs more often in the whole
   * list than in its first `k` entries lies beyond them, so none of those
   * entries is rated lower.
   */
  lemma SortedPrefixDominates(s: seq<Place>, k: nat, p: Place, q: Place)
    requires k <= |s| && SortedByRatingDesc(s)
    requires multiset(s[..k])[p] < multiset(s)[p]
    requires q in s[..k]
    ensures k < |s|
    ensures RatingOrZero(q) >= RatingOrZero(p)
  {
    assert s == s[..k] + s[k..];
    assert multiset(s) == multiset(s[..k]) + multiset(s[k..]);
    assert p in multiset(s[k..]);
    var j :| k <= j < |s| && s[j] == p;
    var i :| 0 <= i < k && s[..k][i] == q;
    assert s[i] == q;
  }

  /**
   * The list the page shows: `.slice(0, 20)` of the sorted filtered results.
   * It is that list's prefix of length `min(20, n)` for `n` highly rated
   * results, is in non-increasing rating order, holds only places with a
   * truthy rating of at least 4.0, and draws each entry from the results no
   * more often than it occurs there.
   */
  function TopRated(results: seq<Place>): (r: seq<Place>)
    ensures |r| <= MAX_RESULTS
    ensures |r| == if |FilterHighlyRated(results)| <= MAX_RESULTS then |FilterHighlyRated(results)| else MAX_RESULTS
    ensures r == SortByRatingDesc(FilterHighlyRated(results))[..|r|]
    ensures SortedByRatingDesc(r)
    ensures AllHighlyRated(r)
    ensures multiset(r) <= multiset(results)
  {
    var filtered := FilterHighlyRated(results);
    var ranked := SortByRatingDesc(filtered);
    var k := if |ranked| <= MAX_RESULTS then |ranked| else MAX_RESULTS;
    FilterAllHighlyRated(results);
    assert AllHighlyRated(ranked) by {
      forall p | p in ranked ensures HighlyRated(p) {
        assert p in multiset(filtered);
      }
    }
    PrefixKeeps(ranked, k);
    assert multiset(filtered) <= multiset(results);
    ranked[..k]
  }

  /**
   * The list keeps the best places: when a highly rated result is left out
   * (fewer copies of it are kept than the results hold), the list is full
   * and no place on it is rated lower than the one left out.
   */
  lemma TopRatedKeepsBest(results: seq<Place>, p: Place, q: Place)
    requires HighlyRated(p) && multiset(TopRated(results))[p] < multiset(results)[p]
    requires q in TopRated(results)
    ensures |TopRated(results)| == MAX_RESULTS
    ensures RatingOrZero(q) >= RatingOrZero(p)
  {
    var ranked := SortByRatingDesc(FilterHighlyRated(results));
    var r := TopRated(results);
    assert multiset(ranked)[p] == multiset(results)[p];
    SortedPrefixDominates(ranked, |r|, p, q);
  }

  /**
   * A highly rated result is left out (fewer copies of it are kept than the
   * results hold) only when the list is full.
   */
  lemma TopRatedFullWhenLeftOut(results: seq<Place>, p: Place)
    requires HighlyRated(p) && multiset(TopRated(results))[p] < multiset(results)[p]
    ensures |TopRated(results)| == MAX_RESULTS
  {
    var ranked := SortByRatingDesc(FilterHighlyRated(results));
    var r := TopRated(results);
    assert multiset(ranked)[p] == multiset(results)[p];
    assert r != ranked;
    assert ranked[..|ranked|] == ranked;
  }

  /** The list is empty exactly when no result has a truthy rating of at least 4.0. */
  lemma TopRatedEmptyIff(results: seq<Place>)
    ensures TopRated(results) == [] <==> forall p :: p in results ==> !HighlyRated(p)
  {
  }

  // ---------------------------------------------------------------------
  // Status dispatch
  // ---------------------------------------------------------------------

  /** The status the places service reports with the results. */
  datatype PlacesStatus =
    | OK
    | ZERO_RESULTS
    | INVALID_REQUEST
    | OVER_QUERY_LIMIT
    | REQUEST_DENIED
    | UNKNOWN_ERROR
    | NOT_FOUND

  const NO_HIGHLY_RATED: string := "No highly-rated restaurants found in your area."
  const NO_RESTAURANTS: string := "No restaurants found in your area."
  const SEARCH_FAILED: string := "Error fetching restaurants. Please try again."

  /** What the page shows after a search: the ranked places, or an error message. */
  datatype SearchView = ShowRestaurants(places: seq<Place>) | ShowMessage(message: string)

  /** The search callback's choice between displaying the places and one of three error messages. */
  function DispatchSearch(status: PlacesStatus, results: seq<Place>): (v: SearchView)
    ensures v.ShowRestaurants? <==> status == OK && exists p :: p in results && HighlyRated(p)
    ensures v.ShowRestaurants? ==> v.places == TopRated(results) && v.places != []
    ensures status == OK && (forall p :: p in results ==> !HighlyRated(p)) ==> v == ShowMessage(NO_HIGHLY_RATED)
    ensures status == ZERO_RESULTS ==> v == ShowMessage(NO_RESTAURANTS)
    ensures status != OK && status != ZERO_RESULTS ==> v == ShowMessage(SEARCH_FAILED)
  {
    TopRatedEmptyIff(results);
    if status == OK then
      var ranked := TopRated(results);
      if |ranked| > 0 then ShowRestaurants(ranked) else ShowMessage(NO_HIGHLY_RATED)
    else if status == ZERO_RESULTS then ShowMessage(NO_RESTAURANTS)
    else ShowMessage(SEARCH_FAILED)
  }

  // ---------------------------------------------------------------------
  // Stars
  // ---------------------------------------------------------------------

  /** `Math.round(x)`: the nearest integer, halves rounded up. */
  function Round(x: real): (n: int)
    ensures n as real - 0.5 <= x < n as real + 0.5
  {
    (x + 0.5).Floor
  }

  const FULL_STAR: char := '\U{2605}'
  const EMPTY_STAR: char := '\U{2606}'

  /** The RangeError `String.prototype.repeat` raises for a negative count. */
  datatype RangeError = RangeError

  /** `c.repeat(n)`. */
  function Repeat(c: char, n: int): (r: Result<string, RangeError>)
    ensures r.Success? <==> n >= 0
    ensures r.Success? ==> |r.value| == n && forall i :: 0 <= i < n ==> r.value[i] == c
  {
    if n < 0 then Failure(RangeError) else Success(seq(n, _ => c))
  }

  /**
   * `generateStars`: `Math.round(rating)` full stars, then empty stars up to
   * five. A rounded rating outside 0..5 makes one of the repeats throw.
   */
  function GenerateStars(rating: real): (r: Result<string, RangeError>)
    ensures r.Success? <==> 0 <= Round(rating) <= 5
    ensures r.Success? ==> |r.value| == 5
    ensures r.Success? ==> forall i :: 0 <= i < 5 ==>
      r.value[i] == if i < Round(rating) then FULL_STAR else EMPTY_STAR
  {
    var stars := Round(rating);
    match Repeat(FULL_STAR, stars)
    case Failure(e) => Failure(e)
    case Success(full) =>
      match Repeat(EMPTY_STAR, 5 - stars)
      case Failure(e) => Failure(e)
      case Success(empty) => Success(full + empty)
  }

  /** Stars are produced exactly for ratings in [-0.5, 5.5), so for every rating a place can have. */
  lemma GenerateStarsDefined(rating: real)
    ensures GenerateStars(rating).Success? <==> -0.5 <= rating < 5.5
  {
  }

  // ---------------------------------------------------------------------
  // Marker colour
  // ---------------------------------------------------------------------

  /** The marker colour of `createCustomIcon`, checked from the top band down. */
  function IconColor(rating: Option<real>): (c: string)
    ensures c == "#FFD700" <==> rating.Some? && rating.value >= 4.8
    ensures c == "#F2BD12" <==> rating.Some? && 4.5 <= rating.value < 4.8
    ensures c == "#FF9800" <==> rating.Some? && 4.0 <= rating.value < 4.5
    ensures c == "#666" <==> rating.None? || rating.value < 4.0
  {
    if rating.Some? && rating.value >= 4.8 then "#FFD700"
    else if rating.Some? && rating.value >= 4.5 then "#F2BD12"
    else if rating.Some? && rating.value >= 4.0 then "#FF9800"
    else "#666"
  }

  /** The template literal's line break and indentation, then the icon directory URL. */
  const ICON_INDENT: string := "\n    "
  const ICON_HOST: string := "http://maps.google.com"
  const ICON_DIRECTORY: string := "/mapfiles/ms/icons/"
  const ICON_URL_HEAD: string := ICON_INDENT + ICON_HOST + ICON_DIRECTORY
  const ICON_URL_TAIL: string := "-dot.png\n  "

  /**
   * `createCustomIcon`: the template literal around the colour, whitespace
   * included. The colour can be read back from between the fixed head and tail.
   */
  function CreateCustomIcon(rating: Option<real>): (u: string)
    ensures |u| == |ICON_URL_HEAD| + |IconColor(rating)| + |ICON_URL_TAIL|
    ensures u[..|ICON_URL_HEAD|] == ICON_URL_HEAD
    ensures u[|ICON_URL_HEAD|..|u| - |ICON_URL_TAIL|] == IconColor(rating)
    ensures u[|u| - |ICON_URL_TAIL|..] == ICON_URL_TAIL
  {
    var u := ICON_URL_HEAD + IconColor(rating) + ICON_URL_TAIL;
    assert u[..|ICON_URL_HEAD|] == ICON_URL_HEAD;
    assert u[|ICON_URL_HEAD|..|u| - |ICON_URL_TAIL|] == IconColor(rating);
    assert u[|u| - |ICON_URL_TAIL|..] == ICON_URL_TAIL;
    u
  }

  /** The colour band rank: 0 for grey up to 3 for gold. */
  function Band(c: string): nat {
    if c == "#FFD700" then 3 else if c == "#F2BD12" then 2 else if c == "#FF9800" then 1 else 0
  }

  /** A higher rating never gets a lower colour band. */
  lemma IconColorMonotone(a: real, b: real)
    requires a <= b
    ensures Band(IconColor(Some(a))) <= Band(IconColor(Some(b)))
  {
  }

  /** Different colours give different icon URLs. */
  lemma CreateCustomIconInjective(a: Option<real>, b: Option<real>)
    requires IconColor(a) != IconColor(b)
    ensures CreateCustomIcon(a) != CreateCustomIcon(b)
  {
  }

  /** The part of a URL before its first `#`, that is, without the fragment. */
  function BeforeFragment(s: string): (r: string)
    ensures r <= s && '#' !in r
    ensures |r| < |s| ==> s[|r|] == '#'
  {
    if s == [] || s[0] == '#' then [] else [s[0]] + BeforeFragment(s[1..])
  }

  /**
   * Every colour starts with `#`, so in every icon URL the colour and the
   * file name after it form the fragment: the part before it is the same
   * directory URL whatever the rating.
   */
  lemma CreateCustomIconSameResource(rating: Option<real>)
    ensures BeforeFragment(CreateCustomIcon(rating)) == ICON_URL_HEAD
  {
    var u := CreateCustomIcon(rating);
    var h := |ICON_URL_HEAD|;
    HeadHasNoFragment();
    assert u[h] == IconColor(rating)[0] == '#';
    assert u == u[..h] + u[h..];
    BeforeFragmentAppend(ICON_URL_HEAD, u[h..]);
  }

  lemma HeadHasNoFragment()
    ensures '#' !in ICON_URL_HEAD
  {
    assert '#' !in ICON_INDENT;
    assert '#' !in ICON_HOST;
    assert '#' !in ICON_DIRECTORY;
  }

  /** Text without `#` followed by a fragment is exactly what `BeforeFragment` keeps. */
  lemma {:induction false} BeforeFragmentAppend(h: string, t: string)
    requires '#' !in h && t != [] && t[0] == '#'
    ensures BeforeFragment(h + t) == h
  {
    if h != [] {
      assert (h + t)[1..] == h[1..] + t;
      BeforeFragmentAppend(h[1..], t);
    }
  }

  /** No place on the shown list gets the grey marker. */
  lemma TopRatedNeverGrey(results: seq<Place>)
    ensures forall p :: p in TopRated(results) ==> IconColor(p.rating) != "#666"
  {
  }

  // ---------------------------------------------------------------------
  // Geolocation errors
  // ---------------------------------------------------------------------

  /** The `code` values of a geolocation position error. */
  const PERMISSION_DENIED: int := 1
  const POSITION_UNAVAILABLE: int := 2
  const TIMEOUT: int := 3

  const LOCATION_PREFIX: string := "Unable to get your location. "

  /** The `switch (error.code)` of `handleGeolocationError`. */
  datatype GeolocationFailure = PermissionDenied | PositionUnavailable | TimedOut | Unknown

  function ClassifyGeolocation(code: int): (f: GeolocationFailure)
    ensures f == PermissionDenied <==> code == PERMISSION_DENIED
    ensures f == PositionUnavailable <==> code == POSITION_UNAVAILABLE
    ensures f == TimedOut <==> code == TIMEOUT
  {
    if code == PERMISSION_DENIED then PermissionDenied
    else if code == POSITION_UNAVAILABLE then PositionUnavailable
    else if code == TIMEOUT then TimedOut
    else Unknown
  }

  /** The sentence that follows the prefix: a non-empty sentence ending in a full stop. */
  function GeolocationSuffix(f: GeolocationFailure): (s: string)
    ensures |s| > 0 && s[|s| - 1] == '.'
  {
    match f
    case PermissionDenied => "Permission denied. Please enable geolocation in your browser settings."
    case PositionUnavailable => "Location information is unavailable."
    case TimedOut => "The request to get user location timed out."
    case Unknown => "An unknown error occurred."
  }

  /** The message `handleGeolocationError` shows for an error code. */
  function GeolocationMessage(code: int): (m: string)
    ensures |m| > |LOCATION_PREFIX| && m[..|LOCATION_PREFIX|] == LOCATION_PREFIX
  {
    LOCATION_PREFIX + GeolocationSuffix(ClassifyGeolocation(code))
  }

  /** Two error codes get the same message exactly when they fall in the same case. */
  lemma GeolocationMessageDistinguishes(a: int, b: int)
    ensures GeolocationMessage(a) == GeolocationMessage(b) <==> ClassifyGeolocation(a) == ClassifyGeolocation(b)
  {
  }

  // ---------------------------------------------------------------------
  // View switching
  // ---------------------------------------------------------------------

  /** The `active-view` / `active` classes of the two containers and their two buttons. */
  datatype ViewState = ViewState(mapActive: bool, listActive: bool, mapButtonActive: bool, listButtonActive: bool)

  /** `switchView(view)`: adds or removes each of the four classes. */
  function SwitchState(s: ViewState, view: string): (t: ViewState)
    ensures t.mapActive <==> view == "map"
    ensures t.mapActive != t.listActive
    ensures t.mapButtonActive == t.mapActive && t.listButtonActive == t.listActive
  {
    if view == "map" then s.(mapActive := true, listActive := false, mapButtonActive := true, listButtonActive := false)
    else s.(mapActive := false, listActive := true, mapButtonActive := false, listButtonActive := true)
  }

  /** Switching twice to the same view is the same as switching once, from any state. */
  lemma SwitchStateIdempotent(s: ViewState, view: string)
    ensures SwitchState(SwitchState(s, view), view) == SwitchState(s, view)
  {
  }
}
