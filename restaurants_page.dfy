/**
 * The page state the restaurant script changes in place: the four classes
 * that `switchView` adds and removes, which containers are displayed, the
 * error text, and the module-level list of restaurants.
 */
module RestaurantsPage {
  import opened Restaurants

  /** The `active-view` classes of the map and list containers and the `active` classes of their buttons. */
  class ViewToggle {
    var mapActive: bool
    var listActive: bool
    var mapButtonActive: bool
    var listButtonActive: bool

    function State(): ViewState
      reads this
    {
      ViewState(mapActive, listActive, mapButtonActive, listButtonActive)
    }

    constructor (initial: ViewState)
      ensures State() == initial
    {
      mapActive := initial.mapActive;
      listActive := initial.listActive;
      mapButtonActive := initial.mapButtonActive;
      listButtonActive := initial.listButtonActive;
    }

    /**
     * `switchView(view)`: `'map'` activates the map view and its button and
     * deactivates the list's; anything else does the reverse. Afterwards
     * exactly one view is active and the buttons match the views.
     */
    method SwitchView(view: string)
      modifies this
      ensures State() == SwitchState(old(State()), view)
      ensures mapActive != listActive
      ensures mapButtonActive == mapActive && listButtonActive == listActive
    {
      if view == "map" {
        mapActive := true;
        listActive := false;
        mapButtonActive := true;
        listButtonActive := false;
      } else {
        mapActive := false;
        listActive := true;
        mapButtonActive := false;
        listButtonActive := true;
      }
    }

    /** `listContainer.classList.add('active-view')`: the other three classes are left as they were. */
    method ActivateList()
      modifies this
      ensures State() == old(State()).(listActive := true)
    {
      listActive := true;
    }
  }

  /** Which of the page's containers are displayed. */
  datatype Visibility = Visibility(loadingShown: bool, errorShown: bool, toggleShown: bool, mapShown: bool, listShown: bool)

  /** What `showError` leaves displayed: the error container only. */
  const ERROR_VISIBILITY: Visibility := Visibility(false, true, false, false, false)
  /** What `displayRestaurants` leaves displayed: the toggle, the map and the list. */
  const RESULTS_VISIBILITY: Visibility := Visibility(false, false, true, true, true)

  class Page {
    const views: ViewToggle
    var visible: Visibility
    var errorText: string
    var restaurants: seq<Place>

    constructor (views: ViewToggle, visible: Visibility)
      ensures this.views == views && this.visible == visible
      ensures errorText == "" && restaurants == []
    {
      this.views := views;
      this.visible := visible;
      errorText := "";
      restaurants := [];
    }

    /** `showError(message)`: only the error container stays displayed, showing `message`. */
    method ShowError(message: string)
      modifies this
      ensures visible == ERROR_VISIBILITY && errorText == message
      ensures restaurants == old(restaurants)
    {
      visible := ERROR_VISIBILITY;
      errorText := message;
    }

    /**
     * `displayRestaurants`: the toggle, map and list containers are displayed
     * and the list view is marked active, whatever the map view's class was.
     */
    method DisplayRestaurants()
      modifies this, views
      ensures visible == RESULTS_VISIBILITY
      ensures views.State() == old(views.State()).(listActive := true)
      ensures errorText == old(errorText) && restaurants == old(restaurants)
    {
      visible := RESULTS_VISIBILITY;
      views.ActivateList();
    }

    /**
     * The nearby-search callback: on `OK` the module-level list becomes the
     * ranked results, which are displayed when there are any; every other
     * case shows its error message and leaves the list as it was.
     */
    method HandleNearbySearch(status: PlacesStatus, results: seq<Place>)
      modifies this, views
      ensures restaurants == if status == OK then TopRated(results) else old(restaurants)
      ensures match DispatchSearch(status, results)
        case ShowRestaurants(places) =>
          restaurants == places && visible == RESULTS_VISIBILITY && errorText == old(errorText)
          && views.State() == old(views.State()).(listActive := true)
        case ShowMessage(message) =>
          visible == ERROR_VISIBILITY && errorText == message && views.State() == old(views.State())
    {
      if status == OK {
        restaurants := TopRated(results);
        if |restaurants| > 0 {
          DisplayRestaurants();
        } else {
          ShowError(NO_HIGHLY_RATED);
        }
      } else if status == ZERO_RESULTS {
        ShowError(NO_RESTAURANTS);
      } else {
        ShowError(SEARCH_FAILED);
      }
    }

    /** `handleGeolocationError(error)`: shows the message for the error's code. */
    method HandleGeolocationError(code: int)
      modifies this
      ensures visible == ERROR_VISIBILITY && errorText == GeolocationMessage(code)
      ensures errorText[..|LOCATION_PREFIX|] == LOCATION_PREFIX
      ensures restaurants == old(restaurants)
    {
      ShowError(GeolocationMessage(code));
    }
  }
}
