/** The hand-off to an external navigation app
    (src/adapters/web/navigation-adapter.ts): the platform test on the user
    agent, the Google Maps web and app links, opening them, and the app
    availability answer.

    How JavaScript renders a number inside a template string is left
    abstract: `render` is a parameter, and the lemmas about the query string
    assume only that a rendered number holds no `&`. */
module Navigation {
  import opened Optional
  import Strings

  datatype Mode = Driving | Walking | Cycling | Transit

  /** `NavigationMode` as spelled in links. */
  function ModeName(m: Mode): string {
    match m
    case Driving => "driving"
    case Walking => "walking"
    case Cycling => "cycling"
    case Transit => "transit"
  }

  /** `NavigationDestination`; the name is carried but never used in a link. */
  datatype Destination = Destination(latitude: real, longitude: real, name: Option<string>, placeId: Option<string>)

  type Render = real -> string

  /** `isIOS`. */
  predicate IsIos(userAgent: string) {
    Strings.Contains(userAgent, "iPad") || Strings.Contains(userAgent, "iPhone") || Strings.Contains(userAgent, "iPod")
  }

  /** `isAndroid`. */
  predicate IsAndroid(userAgent: string) {
    Strings.Contains(userAgent, "Android")
  }

  /** A place id that is present and non-empty. */
  predicate HasPlaceId(d: Destination) {
    d.placeId.Some? && d.placeId.value != ""
  }

  /** `latitude,longitude` as the links write it. */
  function CoordsText(d: Destination, render: Render): string {
    render(d.latitude) + "," + render(d.longitude)
  }

  const WebBase: string := "https://www.google.com/maps/dir/?api=1"

  /** `getGoogleMapsWebUrl`. */
  function WebUrl(d: Destination, mode: Mode, render: Render): string {
    if HasPlaceId(d) then
      WebBase + "&destination=" + CoordsText(d, render) + "&destination_place_id=" + d.placeId.value
      + "&travelmode=" + ModeName(mode)
    else
      WebBase + "&destination=" + CoordsText(d, render) + "&travelmode=" + ModeName(mode)
  }

  /** The `&`-separated parts of the web link: the base, the destination,
      the place id when there is one, and the travel mode. */
  function WebUrlParts(d: Destination, mode: Mode, render: Render): seq<string> {
    if HasPlaceId(d) then
      [WebBase, "destination=" + CoordsText(d, render), "destination_place_id=" + d.placeId.value, "travelmode=" + ModeName(mode)]
    else
      [WebBase, "destination=" + CoordsText(d, render), "travelmode=" + ModeName(mode)]
  }

  /** A query parameter named `name` among the parts. */
  predicate HasParam(parts: seq<string>, name: string) {
    exists i :: 0 <= i < |parts| && name + "=" <= parts[i]
  }

  /** Joining three pieces, spelled out. */
  lemma JoinThree(a: string, b: string, c: string, sep: char)
    ensures Strings.Join([a, b, c], sep) == a + [sep] + b + [sep] + c
  {
    assert [a, b, c][1..] == [b, c] && [b, c][1..] == [c];
    assert Strings.Join([c], sep) == c;
    assert Strings.Join([b, c], sep) == b + [sep] + c;
    assert Strings.Join([a, b, c], sep) == a + [sep] + (b + [sep] + c);
  }

  /** Joining four pieces, spelled out. */
  lemma JoinFour(a: string, b: string, c: string, e: string, sep: char)
    ensures Strings.Join([a, b, c, e], sep) == a + [sep] + b + [sep] + c + [sep] + e
  {
    assert [a, b, c, e][1..] == [b, c, e];
    JoinThree(b, c, e, sep);
    assert Strings.Join([a, b, c, e], sep) == a + [sep] + (b + [sep] + c + [sep] + e);
  }

  /** The fixed texts of the web link hold no `&`. */
  lemma LinkTextsHaveNoAmpersand(mode: Mode)
    ensures '&' !in WebBase && '&' !in "destination=" && '&' !in "destination_place_id="
    ensures '&' !in "travelmode=" + ModeName(mode)
  {
  }

  /** No part of the web link holds an `&`. */
  lemma WebUrlPartsSeparate(d: Destination, mode: Mode, render: Render)
    requires '&' !in render(d.latitude) && '&' !in render(d.longitude)
    requires d.placeId.Some? ==> '&' !in d.placeId.value
    ensures forall i :: 0 <= i < |WebUrlParts(d, mode, render)| ==> '&' !in WebUrlParts(d, mode, render)[i]
  {
    LinkTextsHaveNoAmpersand(mode);
    assert '&' !in CoordsText(d, render);
  }

  /** A link written as a base followed by `&key=value` pieces is the join
      of its `key=value` pieces. */
  lemma QueryAsJoin(base: string, k1: string, v1: string, k2: string, v2: string, k3: string, v3: string)
    ensures base + (['&'] + k1) + v1 + (['&'] + k3) + v3 == Strings.Join([base, k1 + v1, k3 + v3], '&')
    ensures base + (['&'] + k1) + v1 + (['&'] + k2) + v2 + (['&'] + k3) + v3
         == Strings.Join([base, k1 + v1, k2 + v2, k3 + v3], '&')
  {
    JoinThree(base, k1 + v1, k3 + v3, '&');
    JoinFour(base, k1 + v1, k2 + v2, k3 + v3, '&');
  }

  /** The web link is its parts joined by `&`. */
  lemma WebUrlIsJoin(d: Destination, mode: Mode, render: Render)
    ensures WebUrl(d, mode, render) == Strings.Join(WebUrlParts(d, mode, render), '&')
  {
    var destKey, idKey, modeKey := "destination=", "destination_place_id=", "travelmode=";
    assert "&destination=" == ['&'] + destKey;
    assert "&destination_place_id=" == ['&'] + idKey;
    assert "&travelmode=" == ['&'] + modeKey;
    QueryAsJoin(WebBase, destKey, CoordsText(d, render), idKey, d.placeId.GetOr(""), modeKey, ModeName(mode));
  }

  /** Splitting the web link on `&` gives exactly its parts, provided the
      rendered numbers and the place id hold no `&`. */
  lemma WebUrlQuery(d: Destination, mode: Mode, render: Render)
    requires '&' !in render(d.latitude) && '&' !in render(d.longitude)
    requires d.placeId.Some? ==> '&' !in d.placeId.value
    ensures Strings.Split(WebUrl(d, mode, render), '&') == WebUrlParts(d, mode, render)
  {
    WebUrlPartsSeparate(d, mode, render);
    WebUrlIsJoin(d, mode, render);
    Strings.SplitJoin(WebUrlParts(d, mode, render), '&');
  }

  /** The first letters that tell the parts of the web link apart. */
  lemma PartsShape(d: Destination, mode: Mode, render: Render)
    ensures var parts := WebUrlParts(d, mode, render);
      && |parts| == (if HasPlaceId(d) then 4 else 3)
      && parts[0][0] == 'h'
      && |parts[1]| > 11 && parts[1][11] == '='
      && parts[|parts| - 1][0] == 't'
      && (HasPlaceId(d) ==> "destination_place_id=" <= parts[2])
  {
  }

  /** The parts name the destination and the travel mode, and a place id
      exactly when the destination has one. */
  lemma PartsParameters(d: Destination, mode: Mode, render: Render)
    ensures var parts := WebUrlParts(d, mode, render);
      && parts[0] == WebBase
      && "destination=" + CoordsText(d, render) in parts
      && "travelmode=" + ModeName(mode) in parts
      && (HasParam(parts, "destination_place_id") <==> HasPlaceId(d))
  {
    var parts := WebUrlParts(d, mode, render);
    PartsShape(d, mode, render);
    if HasParam(parts, "destination_place_id") {
      var i :| 0 <= i < |parts| && "destination_place_id=" <= parts[i];
      var key := "destination_place_id=";
      assert key[11] == '_' && key[0] == 'd';
      assert parts[i][11] == '_' && parts[i][0] == 'd';
    }
    if HasPlaceId(d) {
      assert "destination_place_id=" <= parts[2];
    }
  }

  /** The web link always names the destination and the travel mode, and
      names a place id exactly when the destination has one. */
  lemma WebUrlParameters(d: Destination, mode: Mode, render: Render)
    requires '&' !in render(d.latitude) && '&' !in render(d.longitude)
    requires d.placeId.Some? ==> '&' !in d.placeId.value
    ensures var parts := Strings.Split(WebUrl(d, mode, render), '&');
      && parts[0] == WebBase
      && "destination=" + CoordsText(d, render) in parts
      && "travelmode=" + ModeName(mode) in parts
      && (HasParam(parts, "destination_place_id") <==> HasPlaceId(d))
  {
    WebUrlQuery(d, mode, render);
    PartsParameters(d, mode, render);
  }

  /** The one-letter Android travel mode. */
  function AndroidModeLetter(m: Mode): char {
    match m
    case Driving => 'd'
    case Walking => 'w'
    case Cycling => 'b'
    case Transit => 'r'
  }

  /** Distinct modes get distinct letters. */
  lemma AndroidModeLetterInjective(a: Mode, b: Mode)
    ensures AndroidModeLetter(a) == AndroidModeLetter(b) ==> a == b
    ensures AndroidModeLetter(a) in "dwbr"
  {
  }

  /** `getGoogleMapsAppUrl`. */
  function AppUrl(d: Destination, mode: Mode, userAgent: string, render: Render): string {
    if IsIos(userAgent) then
      "comgooglemaps://?daddr=" + CoordsText(d, render) + "&directionsmode=" + ModeName(mode)
    else if IsAndroid(userAgent) then
      "google.navigation:q=" + CoordsText(d, render) + "&mode=" + [AndroidModeLetter(mode)]
    else WebUrl(d, mode, render)
  }

  /** iOS is tested first, so an agent that claims both platforms gets the
      iOS scheme; every other agent gets the web link. */
  lemma AppUrlByPlatform(d: Destination, mode: Mode, userAgent: string, render: Render)
    ensures IsIos(userAgent) ==> "comgooglemaps://" <= AppUrl(d, mode, userAgent, render)
    ensures !IsIos(userAgent) && IsAndroid(userAgent) ==>
      "google.navigation:q=" <= AppUrl(d, mode, userAgent, render)
      && AppUrl(d, mode, userAgent, render)[|AppUrl(d, mode, userAgent, render)| - 1] == AndroidModeLetter(mode)
    ensures !IsIos(userAgent) && !IsAndroid(userAgent) ==> AppUrl(d, mode, userAgent, render) == WebUrl(d, mode, render)
  {
    var coords := CoordsText(d, render);
    if IsIos(userAgent) {
      assert AppUrl(d, mode, userAgent, render) == "comgooglemaps://" + ("?daddr=" + coords + "&directionsmode=" + ModeName(mode));
    } else if IsAndroid(userAgent) {
      assert AppUrl(d, mode, userAgent, render) == "google.navigation:q=" + (coords + "&mode=" + [AndroidModeLetter(mode)]);
    }
  }

  /** What `openNavigation` does: the app link loaded in a hidden frame (on
      a phone), the link opened in a new window, and the answer. */
  datatype Opened = Opened(frameUrl: Option<string>, windowUrl: Option<string>, success: bool)

  /** `openNavigation`; `domFails` stands for a browser call that throws. */
  function OpenNavigation(d: Destination, mode: Option<Mode>, userAgent: string, render: Render, domFails: bool): (o: Opened)
    ensures domFails ==> !o.success
    ensures !domFails ==> o.success && o.windowUrl == Some(WebUrl(d, mode.GetOr(Driving), render))
    ensures !domFails ==> (o.frameUrl.Some? <==> IsIos(userAgent) || IsAndroid(userAgent))
    ensures o.frameUrl.Some? ==> o.frameUrl.value == AppUrl(d, mode.GetOr(Driving), userAgent, render)
  {
    var m := mode.GetOr(Driving);
    if domFails then Opened(None, None, false)
    else if IsIos(userAgent) || IsAndroid(userAgent) then
      Opened(Some(AppUrl(d, m, userAgent, render)), Some(WebUrl(d, m, render)), true)
    else Opened(None, Some(WebUrl(d, m, render)), true)
  }

  datatype NavigationApp = Google | Apple | Waze

  /** `isNavigationAppAvailable`. */
  function IsNavigationAppAvailable(app: NavigationApp, userAgent: string): (r: bool)
    ensures r <==> app != Apple || IsIos(userAgent)
  {
    if app == Apple then IsIos(userAgent) else true
  }

  /** `getNavigationUrl`: the web link, driving unless told otherwise. */
  function GetNavigationUrl(d: Destination, mode: Option<Mode>, render: Render): (url: string)
    ensures mode.None? ==> url == WebUrl(d, Driving, render)
    ensures mode.Some? ==> url == WebUrl(d, mode.value, render)
  {
    WebUrl(d, mode.GetOr(Driving), render)
  }

  /** The link handed out is the one opened in the window, on every
      platform. */
  lemma SharedLinkIsOpenedLink(d: Destination, mode: Option<Mode>, userAgent: string, render: Render)
    ensures OpenNavigation(d, mode, userAgent, render, false).windowUrl == Some(GetNavigationUrl(d, mode, render))
  {
  }
}
