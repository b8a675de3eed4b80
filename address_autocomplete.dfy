/**
 * The street-address input with a suggestion list: typing, the fetched
 * suggestions, keyboard navigation, choosing a suggestion and clicking
 * outside. Each handler is specified by a function on the component's
 * state; the class applies it to its fields.
 */
module AddressAutocomplete {
  import opened Wrappers

  /** The address parts a geocoding result may carry. */
  datatype PlaceAddress = PlaceAddress(
    road: Option<string>,
    city: Option<string>,
    town: Option<string>,
    village: Option<string>,
    state: Option<string>,
    postcode: Option<string>)

  datatype Place = Place(placeId: int, displayName: string, lat: string, lon: string, address: Option<PlaceAddress>)

  /** The form fields the component writes. */
  datatype AddressFields = AddressFields(address1: string, city: string, state: string, postalCode: string)

  /** The component's state; `selectedLocation` keeps the chosen place's coordinates as given. */
  datatype State = State(
    query: string,
    results: seq<Place>,
    activeIndex: int,
    showMap: bool,
    selectedLocation: Option<(string, string)>,
    fields: AddressFields)

  /** What a key press did: handled, or it threw before changing anything. */
  datatype KeyOutcome = Handled | Threw

  /** The first present, non-empty string of the list, or "" when there is none. */
  function FirstTruthy(options: seq<Option<string>>): (r: string)
    ensures r == "" <==> forall k :: 0 <= k < |options| ==> !Truthy(options[k])
    ensures r != "" ==> exists k :: 0 <= k < |options| && Truthy(options[k]) && r == options[k].value
                                    && forall j :: 0 <= j < k ==> !Truthy(options[j])
  {
    if options == [] then ""
    else if Truthy(options[0]) then options[0].value
    else
      var r := FirstTruthy(options[1..]);
      assert forall k :: 1 <= k < |options| ==> options[k] == options[1..][k - 1];
      r
  }

  /** The first option decides if it is truthy; otherwise the rest do. */
  lemma FirstTruthyCons(o: Option<string>, rest: seq<Option<string>>)
    ensures FirstTruthy([o] + rest) == if Truthy(o) then o.value else FirstTruthy(rest)
  {
    assert ([o] + rest)[1..] == rest;
  }

  /** `place.address || {}` read field by field: a place without address parts has none of them. */
  function AddressPart(place: Place): PlaceAddress {
    if place.address.Some? then place.address.value else PlaceAddress(None, None, None, None, None, None)
  }

  /** The form fields chosen from a place, each with its fallback chain ending in "". */
  function FieldsFromPlace(place: Place): (f: AddressFields)
    ensures var a := AddressPart(place);
      && f.address1 == FirstTruthy([a.road, Some(place.displayName)])
      && f.city == FirstTruthy([a.city, a.town, a.village])
      && f.state == FirstTruthy([a.state])
      && f.postalCode == FirstTruthy([a.postcode])
  {
    var a := AddressPart(place);
    FirstTruthyCons(a.city, [a.town, a.village]);
    FirstTruthyCons(a.town, [a.village]);
    FirstTruthyCons(a.village, []);
    FirstTruthyCons(a.road, [Some(place.displayName)]);
    FirstTruthyCons(Some(place.displayName), []);
    FirstTruthyCons(a.state, []);
    FirstTruthyCons(a.postcode, []);
    AddressFields(
      OrElse(a.road, OrElse(Some(place.displayName), "")),
      OrElse(a.city, OrElse(a.town, OrElse(a.village, ""))),
      OrElse(a.state, ""),
      OrElse(a.postcode, ""))
  }

  function Initial(fields: AddressFields): State {
    State("", [], -1, false, None, fields)
  }

  /** The input's change handler: new query, the street field follows it, the map closes. */
  function OnChangeSpec(s: State, value: string): (t: State)
    ensures t.query == value && t.fields.address1 == value && !t.showMap
    ensures t.fields.city == s.fields.city && t.fields.state == s.fields.state && t.fields.postalCode == s.fields.postalCode
    ensures t.results == s.results && t.activeIndex == s.activeIndex && t.selectedLocation == s.selectedLocation
  {
    s.(query := value, fields := s.fields.(address1 := value), showMap := false)
  }

  /** The debounced search: queries that are empty or shorter than three characters fetch nothing. */
  function FetchSpec(s: State, q: string, response: seq<Place>): (t: State)
    ensures |q| < 3 ==> t == s
    ensures |q| >= 3 ==> t.results == response && t == s.(results := response)
  {
    if q == "" || |q| < 3 then s else s.(results := response)
  }

  /** A mouse press: outside the component it clears the list, closes the map and drops the highlight. */
  function MouseDownSpec(s: State, insideComponent: bool): (t: State)
    ensures insideComponent ==> t == s
    ensures !insideComponent ==> t.results == [] && !t.showMap && t.activeIndex == -1
    ensures t.query == s.query && t.fields == s.fields && t.selectedLocation == s.selectedLocation
  {
    if insideComponent then s else s.(results := [], showMap := false, activeIndex := -1)
  }

  /** Choosing a place: fill the fields, remember its coordinates, show the map, clear the list. */
  function SelectSpec(s: State, place: Place): (t: State)
    ensures t.fields == FieldsFromPlace(place) && t.selectedLocation == Some((place.lat, place.lon))
    ensures t.showMap && t.results == []
    ensures t.query == s.query && t.activeIndex == s.activeIndex
  {
    s.(fields := FieldsFromPlace(place), selectedLocation := Some((place.lat, place.lon)), showMap := true, results := [])
  }

  /** Hovering a suggestion highlights it. */
  function MouseEnterSpec(s: State, index: int): (t: State)
    requires 0 <= index < |s.results|
    ensures t.activeIndex == index && 0 <= t.activeIndex < |t.results|
    ensures t.query == s.query && t.results == s.results && t.showMap == s.showMap
    ensures t.selectedLocation == s.selectedLocation && t.fields == s.fields
  {
    s.(activeIndex := index)
  }

  /**
   * The key handler. With no suggestions nothing happens. ArrowDown and ArrowUp
   * move the highlight, clamped to the list; Enter chooses the highlighted
   * suggestion when there is one. A highlight left beyond the end of a newer,
   * shorter list makes Enter pass `undefined` to the selection handler, which
   * throws before it changes anything.
   */
  function KeyDownSpec(s: State, key: string): (r: (State, KeyOutcome))
    ensures r.1 == Threw <==> s.results != [] && key == "Enter" && s.activeIndex >= |s.results|
    ensures r.1 == Threw ==> r.0 == s
    ensures s.results == [] ==> r == (s, Handled)
    ensures s.results != [] && s.activeIndex >= -1 && key == "ArrowDown" ==>
      0 <= r.0.activeIndex < |s.results| && r.0 == s.(activeIndex := r.0.activeIndex)
    ensures s.results != [] && s.activeIndex <= |s.results| && key == "ArrowUp" ==>
      0 <= r.0.activeIndex < |s.results| && r.0 == s.(activeIndex := r.0.activeIndex)
    ensures key != "ArrowDown" && key != "ArrowUp" && key != "Enter" ==> r == (s, Handled)
  {
    var n := |s.results|;
    if n == 0 then (s, Handled)
    else if key == "ArrowDown" then (s.(activeIndex := if s.activeIndex + 1 < n - 1 then s.activeIndex + 1 else n - 1), Handled)
    else if key == "ArrowUp" then (s.(activeIndex := if s.activeIndex - 1 > 0 then s.activeIndex - 1 else 0), Handled)
    else if key == "Enter" then
      if s.activeIndex < 0 then (s, Handled)
      else if s.activeIndex < n then (SelectSpec(s, s.results[s.activeIndex]), Handled)
      else (s, Threw)
    else (s, Handled)
  }

  // ---------------------------------------------------------------------------
  // Properties of the handlers
  // ---------------------------------------------------------------------------

  /** The highlight never goes below -1. */
  ghost predicate HighlightFloor(s: State) {
    s.activeIndex >= -1
  }

  lemma HandlersKeepHighlightFloor(s: State, value: string, q: string, response: seq<Place>, inside: bool, place: Place, key: string)
    requires HighlightFloor(s)
    ensures HighlightFloor(OnChangeSpec(s, value)) && HighlightFloor(FetchSpec(s, q, response)) && HighlightFloor(MouseDownSpec(s, inside))
    ensures HighlightFloor(SelectSpec(s, place)) && HighlightFloor(KeyDownSpec(s, key).0)
  {
  }

  /** With no suggestions every key press leaves the state as it was. */
  lemma KeysIgnoredWithoutResults(s: State, key: string)
    requires s.results == []
    ensures KeyDownSpec(s, key) == (s, Handled)
  {
  }

  /** ArrowDown lands within the list; ArrowUp never goes below the first entry, and from -1 or 0 goes to 0. */
  lemma ArrowKeysClamp(s: State)
    requires HighlightFloor(s) && s.results != []
    ensures var d := KeyDownSpec(s, "ArrowDown").0.activeIndex;
      && 0 <= d <= |s.results| - 1
      && (s.activeIndex + 1 <= |s.results| - 1 ==> d == s.activeIndex + 1)
      && (s.activeIndex + 1 > |s.results| - 1 ==> d == |s.results| - 1)
    ensures var u := KeyDownSpec(s, "ArrowUp").0.activeIndex;
      u >= 0 && (s.activeIndex <= 0 ==> u == 0) && (s.activeIndex > 0 ==> u == s.activeIndex - 1)
  {
  }

  /**
   * Enter with a highlight inside the list is exactly the selection of that
   * suggestion: it fills the fields, opens the map and clears the list, and
   * keeps the query and the highlight as they were.
   */
  lemma EnterSelectsHighlighted(s: State)
    requires 0 <= s.activeIndex < |s.results|
    ensures KeyDownSpec(s, "Enter") == (SelectSpec(s, s.results[s.activeIndex]), Handled)
    ensures var (t, outcome) := KeyDownSpec(s, "Enter");
      && outcome == Handled
      && t.query == s.query && t.activeIndex == s.activeIndex
      && t.fields == FieldsFromPlace(s.results[s.activeIndex])
      && t.showMap && t.results == []
      && t.selectedLocation == Some((s.results[s.activeIndex].lat, s.results[s.activeIndex].lon))
  {
  }

  /** Enter without a highlight does nothing; a key press throws only for Enter on a highlight past the end. */
  lemma EnterOutcomes(s: State, key: string)
    requires HighlightFloor(s)
    ensures s.activeIndex == -1 ==> KeyDownSpec(s, "Enter") == (s, Handled)
    ensures KeyDownSpec(s, key).1 == Threw <==> key == "Enter" && s.results != [] && s.activeIndex >= |s.results|
    ensures KeyDownSpec(s, key).1 == Threw ==> KeyDownSpec(s, key).0 == s
  {
  }

  /** A query shorter than three characters leaves the suggestions as they were. */
  lemma ShortQueryNoFetch(s: State, q: string, response: seq<Place>)
    requires |q| < 3
    ensures FetchSpec(s, q, response) == s
  {
  }

  /** The street field prefers the road, then the place's display name; a place without address parts leaves city, state and postal code empty. */
  lemma SelectFallbacks(place: Place)
    ensures place.address.None? ==>
      FieldsFromPlace(place) == AddressFields(place.displayName, "", "", "")
    ensures place.address.Some? && Truthy(place.address.value.road) ==>
      FieldsFromPlace(place).address1 == place.address.value.road.value
    ensures place.address.Some? && !Truthy(place.address.value.city) && !Truthy(place.address.value.town) ==>
      FieldsFromPlace(place).city == OrElse(place.address.value.village, "")
  {
  }

  /**
   * The highlight is not reset when a new, shorter list arrives: highlight the
   * third of three suggestions, choose it, type on, receive one suggestion and
   * press Enter, and the handler throws.
   */
  lemma StaleHighlightThrows(fields: AddressFields, p: Place)
    ensures
      var s0 := FetchSpec(Initial(fields), "main", [p, p, p]);
      var s1 := KeyDownSpec(s0, "ArrowDown").0;
      var s2 := KeyDownSpec(s1, "ArrowDown").0;
      var s3 := KeyDownSpec(s2, "ArrowDown").0;
      var s4 := KeyDownSpec(s3, "Enter").0;
      var s5 := OnChangeSpec(s4, "main st");
      var s6 := FetchSpec(s5, "main st", [p]);
      && s3.activeIndex == 2 && s6.activeIndex == 2 && |s6.results| == 1
      && KeyDownSpec(s6, "Enter").1 == Threw
  {
  }

  // ---------------------------------------------------------------------------
  // Corrected search: new suggestions drop the highlight
  // ---------------------------------------------------------------------------

  /** The search as evidently intended: receiving suggestions also resets the highlight to -1. */
  function FetchResettingSpec(s: State, q: string, response: seq<Place>): (t: State)
    ensures |q| < 3 ==> t == s
    ensures |q| >= 3 ==> t.results == response && t.activeIndex == -1 && t == FetchSpec(s, q, response).(activeIndex := -1)
  {
    if q == "" || |q| < 3 then s else s.(results := response, activeIndex := -1)
  }

  /** The highlight is -1 or names a suggestion, whenever there are suggestions. */
  ghost predicate HighlightInList(s: State) {
    s.activeIndex >= -1 && (s.results == [] || s.activeIndex < |s.results|)
  }

  /** With the corrected search, every handler keeps the highlight inside the list. */
  lemma CorrectedHandlersKeepHighlight(s: State, value: string, q: string, response: seq<Place>, inside: bool,
                                       place: Place, key: string, index: int)
    requires HighlightInList(s)
    ensures HighlightInList(OnChangeSpec(s, value))
    ensures HighlightInList(FetchResettingSpec(s, q, response))
    ensures HighlightInList(MouseDownSpec(s, inside))
    ensures HighlightInList(SelectSpec(s, place))
    ensures HighlightInList(KeyDownSpec(s, key).0)
    ensures 0 <= index < |s.results| ==> HighlightInList(MouseEnterSpec(s, index))
  {
  }

  /** Under that invariant no key press throws. */
  lemma CorrectedNeverThrows(s: State, key: string)
    requires HighlightInList(s)
    ensures KeyDownSpec(s, key).1 == Handled
  {
  }

  // ---------------------------------------------------------------------------
  // The component
  // ---------------------------------------------------------------------------

  /**
   * The component, with the search corrected to drop the highlight when new
   * suggestions arrive; every handler keeps the highlight inside the list, so
   * Enter never reads past its end.
   */
  class Autocomplete {
    var query: string
    var results: seq<Place>
    var activeIndex: int
    var showMap: bool
    var selectedLocation: Option<(string, string)>
    var fields: AddressFields

    function Current(): State
      reads this
    {
      State(query, results, activeIndex, showMap, selectedLocation, fields)
    }

    ghost predicate Valid()
      reads this
    {
      HighlightInList(Current())
    }

    constructor (initialFields: AddressFields)
      ensures Current() == Initial(initialFields) && Valid()
    {
      query, results, activeIndex, showMap, selectedLocation, fields := "", [], -1, false, None, initialFields;
    }

    method OnChange(value: string)
      requires Valid()
      modifies this
      ensures Current() == OnChangeSpec(old(Current()), value) && Valid()
    {
      query := value;
      fields := fields.(address1 := value);
      showMap := false;
    }

    /** The debounced fetch for `q`, with `response` standing for the geocoder's answer. */
    method FetchAddresses(q: string, response: seq<Place>)
      requires Valid()
      modifies this
      ensures Current() == FetchResettingSpec(old(Current()), q, response) && Valid()
    {
      if q == "" || |q| < 3 {
        return;
      }
      results := response;
      activeIndex := -1;
    }

    method MouseDown(insideComponent: bool)
      requires Valid()
      modifies this
      ensures Current() == MouseDownSpec(old(Current()), insideComponent) && Valid()
    {
      if !insideComponent {
        results := [];
        showMap := false;
        activeIndex := -1;
      }
    }

    method MouseEnter(index: int)
      requires Valid() && 0 <= index < |results|
      modifies this
      ensures Current() == MouseEnterSpec(old(Current()), index) && Valid()
    {
      activeIndex := index;
    }

    method Select(place: Place)
      requires Valid()
      modifies this
      ensures Current() == SelectSpec(old(Current()), place) && Valid()
    {
      fields := FieldsFromPlace(place);
      selectedLocation := Some((place.lat, place.lon));
      showMap := true;
      results := [];
    }

    method KeyDown(key: string)
      requires Valid()
      modifies this
      ensures (Current(), Handled) == KeyDownSpec(old(Current()), key) && Valid()
    {
      if |results| == 0 {
        return;
      }
      if key == "ArrowDown" {
        activeIndex := if activeIndex + 1 < |results| - 1 then activeIndex + 1 else |results| - 1;
      } else if key == "ArrowUp" {
        activeIndex := if activeIndex - 1 > 0 then activeIndex - 1 else 0;
      } else if key == "Enter" && activeIndex >= 0 {
        Select(results[activeIndex]);
      }
    }
  }
}
