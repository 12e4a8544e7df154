# Foodie: retrying fetch and restaurant ranking, modelled in Dafny

This project models the two pieces of logic in the Foodie site's browser scripts.

- **`fetchWithRetry`** (`js/fetch-utils.js`) makes up to `retries + 1` attempts at a request.
  - A missing response, a non-ok status, a timeout or a rejected call is a failure.
  - If the caller's signal is aborted when a failure is caught, that failure is thrown at once.
  - Between failures it waits `backoff * 2^(attempt-1)`.
  - When the attempts run out it throws the last error.
- **The nearby-restaurants page** (`js/google-maps-restaurants.js`):
  - `fetchNearbyRestaurants` keeps the places rated at least 4.0, sorts them best first and keeps 20. It then shows them or one of three error messages.
  - `generateStars` builds the star string.
  - `createCustomIcon` picks the marker colour.
  - `handleGeolocationError` builds its message.
  - `switchView`, `showError` and `displayRestaurants` change the page state.

The modules are:

- `Wrappers` (`wrappers.dfy`): the `Option` and `Result` types.
- `FetchUtils` (`fetch_utils.dfy`):
  - The method `FetchWithRetry` is the source's `while` loop, with its counter, `lastErr`, early returns and `break`.
  - It is proved equal to the recursive reference definition `Fetch`.
  - Lemmas about `Fetch` give a loop-free description of any call.
  - The transport is an input: each attempt is one `Attempt` value, made of the reply the race settled with and whether the caller's signal was aborted when the failure was caught.
  - `outcomes[i]` is what attempt `i + 1` gets. The method requires one entry for every attempt the budget allows.
- `Restaurants` (`restaurants.dfy`): the pure parts.
  - Ranking, status dispatch, stars, icon colour, the geolocation message and the view-switch transition.
  - Ratings are `real`. `Math.round(r)` is `(r + 0.5).Floor`.
- `RestaurantsPage` (`restaurants_page.dfy`): the state the script changes in place.
  - `ViewToggle` holds the four class flags that `switchView` sets.
  - `Page` holds the displayed containers, the error text and the module-level `restaurants` list.

Two behaviours of the code are worth stating outright:

- **Caller aborts.** The code checks `options.signal.aborted` only when a failure is caught, and then rethrows that attempt's own error. The backoff sleep cannot be interrupted. So a caller abort does not prevent a later attempt: an attempt that starts after the caller aborted can still succeed and be returned. `Attempt` allows this.
- **Negative `retries`.** A negative `retries` is accepted: no attempt is made and `Failed to fetch` is thrown. `Fetch` models that case.

## Model

| member | source | states |
|---|---|---|
| FetchUtils.EffectiveTimeout | js/fetch-utils.js:21 | The per-attempt timeout is `options.timeout` when it is truthy, and 8000 when it is absent or 0. It is never 0. |
| FetchUtils.Classify | js/fetch-utils.js:69-75 | Only a response with `ok` counts as a success. A missing response, a non-ok status (`HTTP <status>: <statusText>`), the timeout and a rejected call are failures, each with its own error. |
| FetchUtils.HttpMessageRoundTrip | js/fetch-utils.js:75 | The status and status text can be parsed back out of the message `HTTP <status>: <statusText>` of a non-ok response. |
| FetchUtils.Message | js/fetch-utils.js:62-75 | The error messages: "No response", "timeout", and "Failed to fetch" (line 101) for the fallback. A rejected call keeps its own message. A non-ok response's message starts with `HTTP `; `HttpMessageRoundTrip` shows its status and text can be read back. |
| FetchUtils.FromAttempt | js/fetch-utils.js:26-97 | A run that starts at attempt index `k` makes between `k + 1` and `retries + 1` attempts. |
| FetchUtils.FromAttemptCharacterised | js/fetch-utils.js:26-97 | Loop-free description of a run from attempt `k`: it ends within the budget, settles as its last attempt settled, and every earlier attempt failed without a caller abort. It ends early only at a success or an abort. It requested one backoff delay `backoff * 2^(n-1)` per failed attempt `n` before the last. |
| FetchUtils.Fetch | js/fetch-utils.js:15-101 | With `retries < 0` there are no attempts and `Failed to fetch` is thrown. Otherwise there are 1 to `retries + 1` attempts. |
| FetchUtils.FetchCharacterised | js/fetch-utils.js:26-101 | The whole call, loop-free: it settles as its last attempt did, all earlier attempts failed without an abort, it stops early only at a success or an abort, and the delays are the backoff schedule with one entry per attempt but the last. |
| FetchUtils.FetchWithRetry | js/fetch-utils.js:15-101 | The attempt loop, with `retries = 2` and `backoff = 500` when undefined, returns exactly the outcome, attempt count and delays that `Fetch` defines. |
| FetchUtils.FirstStopDecides | js/fetch-utils.js:69-87 | The first attempt that succeeds or sees the caller abort is the last one made and decides the outcome. Exactly one delay came before it for each earlier attempt. |
| FetchUtils.FirstSuccessReturnsAtOnce | js/fetch-utils.js:69-78 | An ok first response is returned after one attempt and no delay. |
| FetchUtils.CallerAbortThrowsAtOnce | js/fetch-utils.js:80-84 | A failure caught while the caller's signal is aborted is thrown at once, as that attempt's own error, whatever retries remain. |
| FetchUtils.AllFailuresExhaust | js/fetch-utils.js:81-101 | If every attempt fails and the caller never aborts, all `retries + 1` attempts run. The last attempt's error is thrown. The delays are `backoff * 2^0 .. backoff * 2^(retries-1)` and add up to `backoff * (2^retries - 1)`. |
| FetchUtils.ReturnedOnlyAfterOk | js/fetch-utils.js:69-78 | A returned response comes from the last attempt, whose response was ok. Every earlier attempt failed. |
| FetchUtils.ScheduleSum | js/fetch-utils.js:94-96 | The first `n` backoff delays add up to `backoff * (2^n - 1)`. |
| FetchUtils.Delay | js/fetch-utils.js:94-96 | The delay after the first failed attempt is `backoff` itself. |
| FetchUtils.DelaysDouble | js/fetch-utils.js:94-96 | Each delay is twice the one before it: `backoff * 2^(attempt-1)` doubles from attempt to attempt. |
| FetchUtils.Schedule | js/fetch-utils.js:94-96 | The delays after the first `n` failed attempts: `n` of them, the first equal to `backoff` and each later one twice its predecessor. |
| FetchUtils.DefaultScheduleExample | js/fetch-utils.js:94-96 | With the defaults (`retries = 2`, `backoff = 500`), three failures make three attempts, wait 500 ms and then 1000 ms, and throw the third error. |
| Restaurants.RatingOrZero | js/google-maps-restaurants.js:95 | The sort key `rating \|\| 0` is the rating when there is one and 0 when it is undefined. |
| Restaurants.HighlyRated | js/google-maps-restaurants.js:94 | A place passes the filter exactly when it has a rating of at least 4.0. The truthiness test never decides, because 4.0 is truthy. |
| Restaurants.FilterHighlyRated | js/google-maps-restaurants.js:94 | Every place with a truthy rating of at least 4.0 is kept as often as it occurs. Every other place is dropped. |
| Restaurants.InsertByRating | js/google-maps-restaurants.js:95 | Inserting into a list sorted by rating (highest first) keeps it sorted and adds exactly the inserted place. |
| Restaurants.SortByRatingDesc | js/google-maps-restaurants.js:95 | The sort by `(b.rating \|\| 0) - (a.rating \|\| 0)` returns a permutation of its input in non-increasing rating order. |
| Restaurants.TopRated | js/google-maps-restaurants.js:93-96 | The ranked list is the prefix of the sorted filtered results of length `min(20, n)`, where `n` is the number of highly rated results. It is in non-increasing rating order. Every entry has a truthy rating of at least 4.0 and comes from the results, no more often than it occurs there. |
| Restaurants.SortedPrefixDominates | js/google-maps-restaurants.js:95-96 | In a list sorted by rating, nothing in the first `k` entries is rated lower than an entry that occurs after them. |
| Restaurants.TopRatedKeepsBest | js/google-maps-restaurants.js:93-96 | If a highly rated result is left out, the list is full (20 places), and every place in it is rated at least as high as the one left out. |
| Restaurants.TopRatedFullWhenLeftOut | js/google-maps-restaurants.js:93-96 | A highly rated result is left out only when the list is full (20 places). |
| Restaurants.TopRatedEmptyIff | js/google-maps-restaurants.js:93-101 | The ranked list is empty exactly when no result has a truthy rating of at least 4.0. |
| Restaurants.DispatchSearch | js/google-maps-restaurants.js:90-109 | Restaurants are displayed exactly when the status is `OK` and some result is rated at least 4.0, and then they are the ranked list. `OK` with no such result gives "No highly-rated restaurants found in your area.". `ZERO_RESULTS` gives "No restaurants found in your area.". Any other status gives "Error fetching restaurants. Please try again.". |
| Restaurants.Round | js/google-maps-restaurants.js:295 | `Math.round(x)` is the integer `n` with `n - 0.5 <= x < n + 0.5`. |
| Restaurants.Repeat | js/google-maps-restaurants.js:296 | `c.repeat(n)` is `n` copies of `c`, and raises a RangeError when `n` is negative. |
| Restaurants.GenerateStars | js/google-maps-restaurants.js:294-297 | When `s = Math.round(rating)` lies in 0..5, the result has length 5: `s` full stars, then empty stars. Otherwise a RangeError is raised. |
| Restaurants.GenerateStarsDefined | js/google-maps-restaurants.js:294-297 | Stars are produced exactly for ratings in [-0.5, 5.5). |
| Restaurants.IconColor | js/google-maps-restaurants.js:278-287 | Each rating gets exactly one colour. '#FFD700' exactly for ratings of 4.8 and above. '#F2BD12' exactly for [4.5, 4.8). '#FF9800' exactly for [4.0, 4.5). '#666' for anything lower or for a missing rating. |
| Restaurants.IconColorMonotone | js/google-maps-restaurants.js:278-287 | A higher rating never gets a lower colour band. |
| Restaurants.CreateCustomIcon | js/google-maps-restaurants.js:289-291 | The icon URL is the fixed head (line break, indentation, `http://maps.google.com/mapfiles/ms/icons/`), then the colour, then the fixed tail (`-dot.png`, line break, indentation); the colour can be read back from between them. |
| Restaurants.CreateCustomIconInjective | js/google-maps-restaurants.js:278-292 | Different colours give different icon URLs. |
| Restaurants.CreateCustomIconSameResource | js/google-maps-restaurants.js:278-291 | For every rating, the URL up to its first `#` is the same fixed head: the colour and the file name after it form the fragment. |
| Restaurants.TopRatedNeverGrey | js/google-maps-restaurants.js:144 | No ranked place gets the grey marker: each one's colour is one of the three rated bands. |
| Restaurants.ClassifyGeolocation | js/google-maps-restaurants.js:345-357 | Codes 1, 2 and 3 (permission denied, position unavailable, timeout) each select their own case. Every other code selects the unknown case. |
| Restaurants.GeolocationSuffix | js/google-maps-restaurants.js:346-356 | The sentence each case appends to the prefix is non-empty and ends with a full stop. |
| Restaurants.GeolocationMessage | js/google-maps-restaurants.js:342-357 | Every message starts with 'Unable to get your location. ' and has a suffix after it. |
| Restaurants.GeolocationMessageDistinguishes | js/google-maps-restaurants.js:343-357 | Two codes give the same message exactly when they fall in the same case, so the suffix identifies the case. |
| Restaurants.SwitchState | js/google-maps-restaurants.js:319-331 | `'map'` makes the map view and map button active and the list view and list button inactive. Any other argument does the reverse. Exactly one view is active afterwards, and each button matches its view. |
| Restaurants.SwitchStateIdempotent | js/google-maps-restaurants.js:319-331 | Switching twice to the same view gives the same state as switching once. |
| RestaurantsPage.ViewToggle.SwitchView | js/google-maps-restaurants.js:319-331 | Sets the four class flags to `SwitchState` of the old flags. Afterwards exactly one view is active and each button matches its view. |
| RestaurantsPage.ViewToggle.ActivateList | js/google-maps-restaurants.js:117 | Adds `active-view` to the list container and leaves the other three flags alone. |
| RestaurantsPage.Page.ShowError | js/google-maps-restaurants.js:333-340 | Only the error container stays displayed, and it shows the message. The ranked list does not change. |
| RestaurantsPage.Page.DisplayRestaurants | js/google-maps-restaurants.js:112-118 | Displays the toggle, map and list and hides loading and error. Marks the list view active and leaves the map view's class alone. |
| RestaurantsPage.Page.HandleNearbySearch | js/google-maps-restaurants.js:90-109 | On `OK` the module-level list becomes the ranked results. Otherwise the list is kept. The page then shows what `DispatchSearch` chooses: the ranked list with the view toggled to the list and the error text kept, or the chosen message in the error container with the view classes kept. |
| RestaurantsPage.Page.HandleGeolocationError | js/google-maps-restaurants.js:342-360 | Shows the error for the code, a message that starts with 'Unable to get your location. '. |

Every colour in `createCustomIcon` starts with `#`, so in the URL the colour and `-dot.png` form the fragment. By `CreateCustomIconSameResource`, the part a browser would request is the same directory URL `http://maps.google.com/mapfiles/ms/icons/` for every rating. The strings differ (`CreateCustomIconInjective`), but the resource they name does not. The model states the URL as the code builds it.

`displayRestaurants` adds `active-view` to the list container but does not remove it from the map container. So after a retry that follows a switch to the map view, both views carry the class. `DisplayRestaurants` states this as it is.

## Left out

- Real timers, `Promise.race`, the `AbortController` wiring and `fetch` itself are left out. They are asynchronous browser plumbing. Each attempt is one `Attempt` value from the environment, so `EffectiveTimeout` is computed but only the environment's `Timeout` reply depends on it.
- Which error a timed-out attempt throws is not modelled. The timer calls `controller.abort()` before rejecting with `Error('timeout')`, so the race may settle with the fetch's own abort error instead. The model's `Timeout` reply stands for whichever of the two wins, and maps it to `TimeoutError`.
- The URL and the other `options` fields are passed through to `fetch` unchanged, so they are not modelled.
- The `window.fetchWithRetry` install guard (js/fetch-utils.js:5) is left out: it is global environment state.
- Arguments of the wrong type are not modelled. The model uses integers for `retries` and `backoff`. JavaScript would coerce `null` or a string, and would treat a `NaN` timeout as falsy.
- Falsy thrown values are not modelled. Every error is an `Error` object, so the `'Failed to fetch'` fallback applies only when no attempt ran.
- `Math.pow` is floating-point in the source. The delays are exact integers in the model, so precision loss for very large exponents or backoffs is not captured.
- `SortByRatingDesc`: its contract states sorted order and permutation, but not stability. The definition inserts each element before its equals, so it is stable (as `Array.prototype.sort` is).
- `NaN` ratings are not modelled.
- `calculateDistance` (haversine) is left out: it is floating-point trigonometry.
- `initializeApp`, `initializeMap`, `displayOnMap` and its `markers` array, `displayAsList`, `createRestaurantCard`, `createInfoWindowContent`, `setupEventListeners` and the `console.error` log are left out. They call the maps and geolocation services or build HTML.
- `js/hero-animation.js`, `js/faq.js` and `js/dark-mode.js` are not part of this model. They are UI animation and DOM glue with no logic beyond an index increment and boolean flips.
