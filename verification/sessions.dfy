/**
  The page's session state (the top-level `let` variables of js/main.js)
  and the handlers that change it: a successful position fix, a failed one,
  the live-tracking toggle, and sharing the latest position. The browser's
  geolocation, share and clipboard APIs are outside the model: the id
  `watchPosition` returns and the presence of `navigator.share` are inputs.
 */
module Sessions {
  import opened JsText

  datatype Coord = Coord(lat: real, lng: real)

  /** One entry of `locationHistory`; the `Date` of the fix is an input (milliseconds). */
  datatype Fix = Fix(lat: real, lng: real, timestamp: int)

  datatype Session = Session(
    isTracking: bool,
    watchId: Option<int>,
    updateCount: nat,
    history: seq<Fix>,
    current: Option<Coord>)

  /** The state after the page loads: not tracking, no watch, no fixes. */
  const Initial := Session(false, None, 0, [], None)

  // ---------------------------------------------------------------------
  // Position fixes
  // ---------------------------------------------------------------------

  /**
    `handleLocationSuccess`: one more update, the fix appended last to the
    history with everything before it untouched, and the fix's coordinates
    become the current location. Tracking is not affected.
   */
  function LocationSuccess(s: Session, lat: real, lng: real, now: int): (r: Session)
    ensures r.updateCount == s.updateCount + 1
    ensures |r.history| == |s.history| + 1
    ensures r.history[..|s.history|] == s.history
    ensures r.history[|s.history|] == Fix(lat, lng, now)
    ensures r.current == Some(Coord(lat, lng))
    ensures r.isTracking == s.isTracking && r.watchId == s.watchId
  {
    s.(updateCount := s.updateCount + 1,
       history := s.history + [Fix(lat, lng, now)],
       current := Some(Coord(lat, lng)))
  }

  /**
    What the page keeps consistent across fixes: the counter equals the
    number of recorded fixes, and the current location is the last fix's
    position (absent before the first fix).
   */
  ghost predicate Coherent(s: Session)
  {
    && s.updateCount == |s.history|
    && (|s.history| == 0 <==> s.current.None?)
    && (|s.history| > 0 ==> s.current == Some(Coord(s.history[|s.history| - 1].lat, s.history[|s.history| - 1].lng)))
  }

  lemma InitialCoherent()
    ensures Coherent(Initial)
  {
  }

  lemma LocationSuccessKeepsCoherent(s: Session, lat: real, lng: real, now: int)
    requires Coherent(s)
    ensures Coherent(LocationSuccess(s, lat, lng, now))
  {
  }

  /** A series of successful fixes, applied in order. */
  function ApplyFixes(s: Session, fixes: seq<Fix>): Session
    decreases |fixes|
  {
    if |fixes| == 0 then s
    else
      var f := fixes[0];
      ApplyFixes(LocationSuccess(s, f.lat, f.lng, f.timestamp), fixes[1..])
  }

  /** The history is append-only: a series of fixes adds exactly those fixes, in order, after the old ones. */
  lemma {:induction false} ApplyFixesAppends(s: Session, fixes: seq<Fix>)
    ensures ApplyFixes(s, fixes).history == s.history + fixes
    ensures ApplyFixes(s, fixes).updateCount == s.updateCount + |fixes|
    ensures ApplyFixes(s, fixes).isTracking == s.isTracking
    ensures ApplyFixes(s, fixes).watchId == s.watchId
    decreases |fixes|
  {
    if |fixes| > 0 {
      var f := fixes[0];
      var t := LocationSuccess(s, f.lat, f.lng, f.timestamp);
      ApplyFixesAppends(t, fixes[1..]);
      assert t.history + fixes[1..] == s.history + fixes;
    }
  }

  /** The codes of the W3C Geolocation API's `GeolocationPositionError`. */
  const PermissionDenied: int := 1
  const PositionUnavailable: int := 2
  const Timeout: int := 3

  const UnknownErrorMessage: string := "Error desconocido"

  /**
    `handleLocationError`: the message for an error code. Each of the three
    codes has its own message and every other code the default one. The
    session itself is not changed by an error.
   */
  function ErrorMessage(code: int): (msg: string)
    ensures msg == UnknownErrorMessage <==> code !in {PermissionDenied, PositionUnavailable, Timeout}
    ensures code == PermissionDenied ==> msg == "Permiso de geolocalización denegado"
    ensures code == PositionUnavailable ==> msg == "Información de ubicación no disponible"
    ensures code == Timeout ==> msg == "Tiempo de espera agotado"
  {
    if code == PermissionDenied then "Permiso de geolocalización denegado"
    else if code == PositionUnavailable then "Información de ubicación no disponible"
    else if code == Timeout then "Tiempo de espera agotado"
    else UnknownErrorMessage
  }

  /** The three known codes get three different messages. */
  lemma ErrorMessagesDistinct(c1: int, c2: int)
    requires c1 in {PermissionDenied, PositionUnavailable, Timeout}
    requires ErrorMessage(c1) == ErrorMessage(c2)
    ensures c1 == c2
  {
    assert ErrorMessage(c1)[0] == ErrorMessage(c2)[0];
  }

  // ---------------------------------------------------------------------
  // Live tracking
  // ---------------------------------------------------------------------

  /** `if (watchId)`: a watch id is truthy when present and not zero. */
  predicate WatchActive(id: Option<int>)
  {
    id.Some? && id.value != 0
  }

  /** `startTracking`: records the id `watchPosition` returned. */
  function StartTracking(s: Session, newId: int): (r: Session)
    ensures r.watchId == Some(newId)
    ensures r.(watchId := s.watchId) == s
  {
    s.(watchId := Some(newId))
  }

  /** `stopTracking`: clears a truthy watch id and otherwise does nothing. */
  function StopTracking(s: Session): (r: Session)
    ensures WatchActive(s.watchId) ==> r.watchId.None? && r.(watchId := s.watchId) == s
    ensures !WatchActive(s.watchId) ==> r == s
    ensures !WatchActive(r.watchId)
  {
    if WatchActive(s.watchId) then s.(watchId := None) else s
  }

  /**
    `toggleTracking`: starts a watch (with the id the browser hands back)
    when not tracking, stops it when tracking, and flips the flag either way.
   */
  function ToggleTracking(s: Session, newId: int): (r: Session)
    ensures r.isTracking == !s.isTracking
    ensures !s.isTracking ==> r.watchId == Some(newId)
    ensures s.isTracking ==> !WatchActive(r.watchId)
    ensures r.updateCount == s.updateCount && r.history == s.history && r.current == s.current
    ensures !s.isTracking ==> r == StartTracking(s, newId).(isTracking := true)
    ensures s.isTracking ==> r == StopTracking(s).(isTracking := false)
  {
    var t := if !s.isTracking then StartTracking(s, newId) else StopTracking(s);
    t.(isTracking := !s.isTracking)
  }

  /** A series of toggles; `ids[k]` is what `watchPosition` would return on the k-th call. */
  function ToggleMany(s: Session, ids: seq<int>): Session
    decreases |ids|
  {
    if |ids| == 0 then s else ToggleMany(ToggleTracking(s, ids[0]), ids[1..])
  }

  /** Toggle parity: after an even number of toggles the flag is back where it started. */
  lemma {:induction false} ToggleParity(s: Session, ids: seq<int>)
    ensures ToggleMany(s, ids).isTracking == (if |ids| % 2 == 0 then s.isTracking else !s.isTracking)
    ensures ToggleMany(s, ids).history == s.history
    ensures ToggleMany(s, ids).updateCount == s.updateCount
    ensures ToggleMany(s, ids).current == s.current
    decreases |ids|
  {
    if |ids| > 0 {
      ToggleParity(ToggleTracking(s, ids[0]), ids[1..]);
    }
  }

  /**
    With the positive ids the Geolocation API hands out, the flag and the
    watch agree: tracking exactly when a watch is registered.
   */
  ghost predicate TrackingConsistent(s: Session)
  {
    s.isTracking <==> WatchActive(s.watchId)
  }

  lemma ToggleKeepsTrackingConsistent(s: Session, newId: int)
    requires TrackingConsistent(s)
    requires newId > 0
    ensures TrackingConsistent(ToggleTracking(s, newId))
  {
  }

  lemma {:induction false} ToggleManyKeepsTrackingConsistent(s: Session, ids: seq<int>)
    requires TrackingConsistent(s)
    requires forall k | 0 <= k < |ids| :: ids[k] > 0
    ensures TrackingConsistent(ToggleMany(s, ids))
    decreases |ids|
  {
    if |ids| > 0 {
      ToggleKeepsTrackingConsistent(s, ids[0]);
      ToggleManyKeepsTrackingConsistent(ToggleTracking(s, ids[0]), ids[1..]);
    }
  }

  // ---------------------------------------------------------------------
  // Sharing
  // ---------------------------------------------------------------------

  const NoLocationAlert: string := "No hay ubicación disponible para compartir"
  const ShareTitle: string := "Mi Ubicación"
  const SharePrefix: string := "Mi ubicación actual: "
  const MapsPrefix: string := "https://www.google.com/maps?q="

  datatype ShareData = ShareData(title: string, text: string, url: string)

  /** What `shareLocation` does: alert, open the share sheet, or copy to the clipboard. */
  datatype ShareOutcome =
    | Alert(message: string)
    | ShareSheet(data: ShareData)
    | Clipboard(text: string)

  /** The maps link of a fix; `num` stands for JavaScript's number-to-string conversion. */
  function MapsUrl(f: Fix, num: real -> string): string
  {
    MapsPrefix + num(f.lat) + "," + num(f.lng)
  }

  /**
    `shareLocation`: with no fix yet it only alerts; otherwise it shares the
    last fix's link, through the share sheet when `navigator.share` exists
    and through the clipboard otherwise, with the same text both ways.
   */
  function ShareLocation(s: Session, canShare: bool, num: real -> string): (r: ShareOutcome)
    ensures r.Alert? <==> |s.history| == 0
    ensures r.Alert? ==> r.message == NoLocationAlert
    ensures |s.history| > 0 && canShare ==>
              r == ShareSheet(ShareData(ShareTitle, SharePrefix + MapsUrl(s.history[|s.history| - 1], num),
                                        MapsUrl(s.history[|s.history| - 1], num)))
    ensures |s.history| > 0 && !canShare ==> r == Clipboard(SharePrefix + MapsUrl(s.history[|s.history| - 1], num))
  {
    if |s.history| == 0 then Alert(NoLocationAlert)
    else
      var last := s.history[|s.history| - 1];
      var url := MapsUrl(last, num);
      var text := SharePrefix + url;
      if canShare then ShareSheet(ShareData(ShareTitle, text, url)) else Clipboard(text)
  }

  /** Only the last fix matters: two sessions whose histories end in the same fix share the same thing. */
  lemma ShareUsesLastEntryOnly(s1: Session, s2: Session, canShare: bool, num: real -> string)
    requires |s1.history| > 0 && |s2.history| > 0
    requires s1.history[|s1.history| - 1] == s2.history[|s2.history| - 1]
    ensures ShareLocation(s1, canShare, num) == ShareLocation(s2, canShare, num)
  {
  }

  /** Right after a successful fix, sharing sends that fix, by either route. */
  lemma ShareAfterFix(s: Session, lat: real, lng: real, now: int, canShare: bool, num: real -> string)
    ensures var url := MapsUrl(Fix(lat, lng, now), num);
            ShareLocation(LocationSuccess(s, lat, lng, now), canShare, num)
            == if canShare then ShareSheet(ShareData(ShareTitle, SharePrefix + url, url))
               else Clipboard(SharePrefix + url)
  {
  }
}
