# Verified model of the location page's display and session rules

The repository is a single-page browser application (`js/main.js`) that shows
the user's GPS position on a map, reverse-geocodes it into an address, lets the
user click a second point, shows the straight-line distance to it, and offers
live tracking and sharing. Almost all of it is DOM, Leaflet and `fetch`
plumbing. This Dafny project models the deterministic rules inside it:

- **Address fields and composition** (`Addresses`, `AddressViews`): every
  displayed field is the first non-empty value of a fixed chain of optional
  reply properties (JavaScript `||`, where `""` counts as absent); the street
  line, the three-part "street, city, country" line with its placeholders, the
  address panel of `displayAddressInfo` and the clicked-point popup of
  `getClickedLocationInfo`.
- **Place type** (`PlaceTypes`): the first-match-wins decision list of
  `getPlaceType`.
- **Flags** (`Flags`): `getFlagEmoji`'s case-insensitive lookup in its
  twenty-entry table, with a globe as the default.
- **Distance display** (`Distance`): the metre/kilometre choice at the end of
  `calculateDistance`, with `Math.round` and integer rendering modelled over exact
  real arithmetic rather than IEEE doubles.
- **Session state** (`Sessions`): `handleLocationSuccess`,
  `handleLocationError`, `toggleTracking`/`startTracking`/`stopTracking` and
  `shareLocation`, as pure transitions over an immutable session record.

`JsText` holds the JavaScript value rules they share (optional properties,
truthiness, `||` chains, ASCII lower-casing, `split` on one character) and
`Decimal` the rendering of integers and `Math.round`.

Inputs that come from outside the script are parameters: the distance in
kilometres (a `real`), the decoded replies of the geocoder and of the IP lookup
(`Option` values, `None` for a failed request), the id `watchPosition` returns,
the time of a fix, whether `navigator.share` exists, and the number renderings
`toFixed(2)` and `String(number)` (functions `real -> string`).

## Model

| member | source | states |
|---|---|---|
| JsText.FirstTruthy | js/main.js:506-514 | a chain `a \|\| b \|\| ... \|\| ''` is empty exactly when no entry is a non-empty string, and otherwise is the value of the first non-empty entry |
| JsText.PicksFirstTruthyUnique | js/main.js:506-514 | the first-non-empty rule determines its value: two strings both meeting it are equal |
| JsText.Lower | js/main.js:569 | lower-casing keeps the length and maps every character through the ASCII letter mapping |
| Addresses.AddressOf | js/main.js:503 | a reply without an `address` is read as the empty object, otherwise its address is used |
| Addresses.PanelFields | js/main.js:506-514 | house number, road (road, street), neighbourhood (neighbourhood, suburb), city (city, town, village, municipality), county (county, state_district), state (state, province), country (address, then IP lookup), postcode and country code (address, then IP lookup) are each the first non-empty value of their chain |
| Addresses.PopupFields | js/main.js:178-183 | the popup reads house number, road, city, country and country code with the same chains, without IP fallback |
| Addresses.IpFallbackOnlyWhenMissing | js/main.js:512-514 | the IP lookup decides country and country code only when the address's own value is empty; otherwise the address value wins |
| Addresses.PopupAgreesWithPanel | js/main.js:179-183 | without IP data the popup and the panel derive the same five fields |
| Addresses.StreetLine | js/main.js:523 | the street line is never empty: house number, space, road when both are present; the road alone when only it is; the "Dirección no especificada" placeholder without a road |
| Addresses.FullAddress | js/main.js:524 | the full line starts with the street line, then ", " and the city (or its placeholder), and ends with ", " and the country (or its placeholder); when no part holds a comma it splits on commas into exactly those three parts |
| Addresses.FullAddressHasThreeParts | js/main.js:524 | the full line splits on commas into exactly the street line, the city (or "Ciudad no especificada") and the country (or "País no especificado"); each placeholder appears exactly when its field is empty |
| PlaceTypes.Classify | js/main.js:575-585 | the result's rule matches and every earlier rule (house number, shop or amenity "shop", restaurant, hospital, school, bank, highway, natural, leisure) fails; general location when none matches |
| PlaceTypes.ClassifyIsFirstMatch | js/main.js:575-585 | any place type whose rule matches while all earlier rules fail is the one returned: the decision list is exactly "first match wins" |
| PlaceTypes.HouseNumberWins | js/main.js:575 | a non-empty house number gives "Residencial" whatever every other field holds |
| PlaceTypes.PlaceTypeOf | js/main.js:572-573 | a reply without an address is a general location; otherwise the classification of its address |
| PlaceTypes.LabelInjective | js/main.js:575-585 | the ten place types have ten different labels |
| Flags.EntriesAreFlagsOfTheirCodes | js/main.js:562-567 | each of the twenty table entries is the Unicode flag (regional-indicator pair) of its two-letter key |
| Flags.Lookup | js/main.js:569 | property lookup finds nothing exactly when no entry has the key, and otherwise an entry with that key |
| Flags.Flag | js/main.js:558-570 | the globe for an empty code and for any code whose lower-cased form is not a table key; otherwise the flag of the lower-cased code |
| Flags.FlagIgnoresCase | js/main.js:569 | a code and its lower-cased form give the same flag |
| Flags.FlagAsWritten | js/main.js:562-569 | the lookup on a plain object: agrees with `Flags.Flag` except on names inherited from `Object.prototype`, where it yields that member instead of the globe |
| Flags.FlagAsWrittenLeaksConstructor | js/main.js:569 | the code "constructor" yields the inherited `Object` function as written, the globe when corrected |
| Flags.FlagAsWrittenLeaksPrototype | js/main.js:569 | the code "__proto__" yields the inherited `Object.prototype` as written, the globe when corrected |
| Distance.Classify | js/main.js:297-301 | metres exactly when the distance is below 1 km, holding the integer within half a metre of the distance (halves up); otherwise kilometres, unchanged |
| Distance.MetresBounded | js/main.js:297-298 | for a distance in [0, 1) km the metre count lies in 0..1000 |
| Distance.MetresCanReachOneThousand | js/main.js:298 | 0.9995 km is shown as 1000 m |
| Distance.KilometreThresholdInclusive | js/main.js:297-300 | exactly 1 km and above take the kilometre branch |
| Distance.MetresMonotone | js/main.js:298 | a longer sub-kilometre distance never shows fewer metres |
| Distance.Render | js/main.js:297-301 | below 1 km the text is an integer followed by " m"; from 1 km it is the two-decimal rendering followed by " km" |
| Distance.RenderMetresRoundTrip | js/main.js:297-301 | the text ends in " m" exactly below 1 km, and the number read back from it is within half a metre of the distance |
| Decimal.IntToStringRoundTrip | js/main.js:298 | reading back a rendered integer (with its sign) gives that integer |
| Decimal.Round | js/main.js:298 | `Math.round` gives the integer `n` with `n - 1/2 <= x < n + 1/2` |
| AddressViews.DisplayAddressInfo | js/main.js:491-555 | no reply gives only the error; otherwise the flag of the country code, the address line first, the place type last, and one row per non-empty neighbourhood, county, state and postcode (none for an empty one) |
| AddressViews.PanelRowsShowPresentFields | js/main.js:531-550 | the rows bearing each optional caption are exactly one row with the field's value when it is non-empty, and none when it is empty |
| AddressViews.ClickedLocationInfo | js/main.js:173-221 | a failed lookup shows only coordinates; a reply shows the address line the panel would show without IP data, and the same place type |
| AddressViews.PopupMatchesPanel | js/main.js:187-188 | when the reply names its own country, the popup and the panel show the same address line whatever the IP lookup returned |
| Sessions.LocationSuccess | js/main.js:68-73 | a fix increments the counter by one, appends exactly that fix after the unchanged history, makes it the current location, and leaves tracking alone |
| Sessions.LocationSuccessKeepsCoherent | js/main.js:68-73 | a fix preserves "counter = number of fixes, current location = last fix" |
| Sessions.InitialCoherent | js/main.js:6-10 | the initial state (no fixes, no current location, counter 0) is coherent |
| Sessions.ApplyFixesAppends | js/main.js:68-73 | a series of fixes extends the history by exactly those fixes in order and the counter by their number |
| Sessions.ErrorMessage | js/main.js:85-97 | the message is the default "Error desconocido" exactly for codes other than 1, 2, 3; each of those has its own message |
| Sessions.ErrorMessagesDistinct | js/main.js:87-96 | the three known codes get three different messages |
| Sessions.StartTracking | js/main.js:382-394 | the watch id becomes the one returned; nothing else changes |
| Sessions.StopTracking | js/main.js:397-402 | a truthy watch id is cleared and nothing else changes; with no truthy watch id the state is unchanged; afterwards no watch is active |
| Sessions.ToggleTracking | js/main.js:365-379 | the flag flips; when not tracking the result is `startTracking` (recording the new id) with the flag set, and when tracking it is `stopTracking` (leaving no active watch) with the flag cleared; fixes and history are untouched |
| Sessions.ToggleParity | js/main.js:365-379 | after an even number of toggles the flag is back to its start value, after an odd number it is inverted; history, counter and current location are unchanged |
| Sessions.ToggleKeepsTrackingConsistent | js/main.js:365-402 | with a positive watch id, a toggle keeps "tracking exactly when a watch is active" |
| Sessions.ToggleManyKeepsTrackingConsistent | js/main.js:365-402 | the same holds over any series of toggles with positive ids |
| Sessions.ShareLocation | js/main.js:405-430 | an empty history only alerts; otherwise the last fix's maps link is shared, by the share sheet (title, text, url) when available, else copied as the same text |
| Sessions.ShareUsesLastEntryOnly | js/main.js:411-412 | two histories ending in the same fix share the same thing |
| Sessions.ShareAfterFix | js/main.js:68-73 | right after a fix, sharing sends that fix's maps link, through the share sheet (with the title, text and url) when it exists and through the clipboard otherwise |

## Findings

| source | as written | input that shows it | evidently intended | confidence | as-written member | corrected member |
|---|---|---|---|---|---|---|
| js/main.js:562-569 | the flag table is a plain object literal, so indexing it with the lower-cased code also finds the members every object inherits from `Object.prototype`; they are truthy, so the globe default is skipped and a function or object is returned instead of a string | the code "constructor" (in any letter case) returns the `Object` function, and "__proto__" returns `Object.prototype`, rather than the globe; every other inherited name holds an upper-case letter and cannot be the result of `toLowerCase()` | the globe for every code that is not one of the twenty table keys | high that the lookup behaves this way; low impact, since real country codes have two letters; not executed | Flags.FlagAsWritten, exhibited by Flags.FlagAsWrittenLeaksConstructor and Flags.FlagAsWrittenLeaksPrototype | Flags.Flag |

The rest of the model (`AddressViews.DisplayAddressInfo`) uses the corrected `Flags.Flag`.

## Left out

- The Haversine computation of `calculateDistance` (js/main.js:287-294): floating-point trigonometry; the distance in kilometres is an input of `Distance.Classify` and `Distance.Render`.
- Distance.Classify: multiplies the distance by 1000 exactly over the reals, where the source rounds the IEEE double product `distance * 1000`; at a half-metre tie the two can differ by one metre (for the double nearest 0.1235 km the exact product lies just below 123.5 and gives 123 m here, while the double product rounds to 123.5 and the source shows 124 m).
- Distance.RenderMetresRoundTrip: its half-metre bound is relative to the exact real product, for the same reason as `Distance.Classify`.
- Distance.Render: the kilometre text is `toFixed(2)` of the distance, passed in as the opaque function `fixed2`; its decimal digits are not modelled.
- Sessions.ShareLocation: the coordinates in the maps link are rendered by JavaScript's number-to-string conversion, passed in as the opaque function `num`; whether the share sheet succeeds, and the alert after copying, are not modelled.
- JsText.Lower: lower-cases ASCII letters only; `toLowerCase` also maps other characters (the Kelvin sign U+212A followed by "R" becomes "kr" and finds the Korean flag), which the model does not follow.
- Flags.Flag: inherits the ASCII-only lower-casing of `JsText.Lower`.
- Reply properties are modelled as optional strings; a property holding a number, boolean or object is not modelled.
- Sessions.ErrorMessage: the message is modelled; writing it into the page and turning the status indicator off (`showError`, `updateStatus`) are DOM effects and not modelled. The session is not changed by an error.
- `getAddressFromCoordinates` (js/main.js:446-489): the two `fetch` calls, `Promise.allSettled` and JSON decoding are network I/O; their results are the `Option` inputs of `AddressViews.DisplayAddressInfo`. Its own error message for a reply that fails to decode is not modelled.
- `getWeatherData` (js/main.js:433-444): a network call that nothing uses.
- `updateLocationDisplay`, `updateMap`, `updateStats`, `updateStatus`, `updateAddressStatus`, `showError`, `initializeParticles`, `initializeMap`, `onMapClick` and `calculateRoute` (including the midpoint marker): DOM and Leaflet updates, `Math.random`, `Date` and locale-dependent time formatting.
- The browser geolocation, `navigator.share` and clipboard APIs: only the state they feed is modelled; the watch id returned and the time of a fix are inputs.
- Sessions.ToggleTracking: assumes `navigator.geolocation` is present; without it `startTracking` throws at js/main.js:389 before the flag flips at line 378, which the model does not follow.
- AddressViews.DisplayAddressInfo: uses the corrected `Flags.Flag`; for the codes "constructor" and "__proto__" the source writes the inherited member (its text, such as "[object Object]") into the country element at js/main.js:520 instead of the globe.
- Sessions.ToggleKeepsTrackingConsistent: assumes the positive watch ids the W3C Geolocation API hands out; a zero id would not be cleared by `stopTracking`, which `Sessions.StopTracking` does model.
- `updateCount` is an unbounded natural number; JavaScript numbers stay exact far beyond any reachable count.
