/**
 * The dashboard's main panel: the image carousel with its index and
 * loading flag, which of its controls are shown, the URLs of the general
 * and per-storm map lists, the danger colour of a storm card and the JSON
 * popup. Responses and the clock are inputs.
 */
module DashboardContent {
  import opened Common
  import opened JsValues
  import StormData

  const ApiBaseUrl: string := "https://weatherstorm-app-backend-weather-app.up.railway.app"

  /* ---------------------------------------------------------------------- */
  /* Index arithmetic                                                       */
  /* ---------------------------------------------------------------------- */

  /** JavaScript's `%`: the remainder takes the sign of the dividend. */
  function JsRem(a: int, n: int): (r: int)
    requires n > 0
    ensures 0 <= a < 2 * n ==> r == if a < n then a else a - n
  {
    if a >= 0 then
      if a < n then RemainderBelow(a, n); a % n
      else if a < 2 * n then RemainderOnceOver(a, n); a % n
      else a % n
    else -((-a) % n)
  }

  /** Below n, the remainder is the number itself. */
  lemma RemainderBelow(a: int, n: int)
    requires 0 <= a < n
    ensures a % n == a
  {
  }

  /** Between n and 2n, the remainder subtracts n once. */
  lemma RemainderOnceOver(a: int, n: int)
    requires 0 < n <= a < 2 * n
    ensures a % n == a - n
  {
  }

  /** `(prev + 1) % images.length`: the next image, wrapping from the last to the first. */
  function NextIndex(i: int, n: int): (r: int)
    requires 0 <= i < n
    ensures 0 <= r < n
    ensures r == if i == n - 1 then 0 else i + 1
  {
    JsRem(i + 1, n)
  }

  /** `(prev - 1 + images.length) % images.length`: the previous image, wrapping from the first to the last. */
  function PrevIndex(i: int, n: int): (r: int)
    requires 0 <= i < n
    ensures 0 <= r < n
    ensures r == if i == 0 then n - 1 else i - 1
  {
    JsRem(i - 1 + n, n)
  }

  /** Previous undoes next, and next undoes previous. */
  lemma NextPrevInverse(i: int, n: int)
    requires 0 <= i < n
    ensures PrevIndex(NextIndex(i, n), n) == i
    ensures NextIndex(PrevIndex(i, n), n) == i
  {
  }

  /** The index after k presses of the next button. */
  function NextTimes(i: int, n: int, k: nat): (r: int)
    requires 0 <= i < n
    ensures 0 <= r < n
  {
    if k == 0 then i else NextIndex(NextTimes(i, n, k - 1), n)
  }

  /** Up to n presses advance the index by k, wrapping once past the last image. */
  lemma {:induction false} NextTimesAdvance(i: int, n: int, k: nat)
    requires 0 <= i < n && k <= n
    ensures NextTimes(i, n, k) == if i + k < n then i + k else i + k - n
  {
    if k > 0 {
      NextTimesAdvance(i, n, k - 1);
    }
  }

  /** n presses of the next button come back to the image the carousel started on. */
  lemma FullCycle(i: int, n: int)
    requires 0 <= i < n
    ensures NextTimes(i, n, n) == i
  {
    NextTimesAdvance(i, n, n);
  }

  /* ---------------------------------------------------------------------- */
  /* What the carousel shows                                                */
  /* ---------------------------------------------------------------------- */

  /** Which parts of the carousel are rendered. */
  datatype Visibility = Visibility(
    emptyMessage: bool, navButtons: bool, counter: bool, thumbnails: bool, dots: bool)

  /**
   * With n images: the empty message alone for none; otherwise the
   * counter, and with more than one image the buttons plus one strip,
   * thumbnails up to ten images and dots beyond.
   */
  function VisibilityOf(n: nat): (v: Visibility)
    ensures v.emptyMessage <==> n == 0
    ensures v.emptyMessage ==> !v.navButtons && !v.counter && !v.thumbnails && !v.dots
    ensures v.counter <==> n > 0
    ensures v.navButtons <==> n > 1
    ensures v.thumbnails <==> 1 < n <= 10
    ensures v.dots <==> n > 10
    ensures !(v.thumbnails && v.dots)
    ensures v.navButtons <==> v.thumbnails || v.dots
  {
    if n == 0 then Visibility(true, false, false, false, false)
    else Visibility(false, n > 1, n > 0, n > 1 && n <= 10, n > 10)
  }

  /** The highlight of each thumbnail or dot: the one at the current index. */
  function Highlights(n: nat, index: int): (marks: seq<bool>)
    ensures |marks| == n
    ensures 0 <= index < n ==> marks[index]
    ensures forall i, j :: 0 <= i < n && 0 <= j < n && marks[i] && marks[j] ==> i == j
  {
    seq(n, idx => idx == index)
  }

  /* ---------------------------------------------------------------------- */
  /* The carousel component                                                 */
  /* ---------------------------------------------------------------------- */

  /** `ImageCarousel` with its `images` prop and its `currentIndex` and `imageLoading` state. */
  class Carousel {
    var images: seq<string>
    var index: int
    var imageLoading: bool

    /** The index points at an image, or is 0 when there is none. */
    ghost predicate Valid()
      reads this
    {
      0 <= index && (images != [] ==> index < |images|)
    }

    /** The first render: index 0, waiting for the image to load. */
    constructor(images: seq<string>)
      ensures Valid()
      ensures this.images == images && index == 0 && imageLoading
    {
      this.images := images;
      index := 0;
      imageLoading := true;
    }

    /** `nextImage`. */
    method Next()
      requires Valid() && images != []
      modifies this
      ensures images == old(images) && Valid()
      ensures index == NextIndex(old(index), |images|) && imageLoading
    {
      index := JsRem(index + 1, |images|);
      imageLoading := true;
    }

    /** `prevImage`. */
    method Prev()
      requires Valid() && images != []
      modifies this
      ensures images == old(images) && Valid()
      ensures index == PrevIndex(old(index), |images|) && imageLoading
    {
      index := JsRem(index - 1 + |images|, |images|);
      imageLoading := true;
    }

    /** The effect on a new `images` list: back to the first image, loading. */
    method ImagesChanged(newImages: seq<string>)
      modifies this
      ensures Valid()
      ensures images == newImages && index == 0 && imageLoading
    {
      images := newImages;
      imageLoading := true;
      index := 0;
    }

    /** A click on thumbnail or dot `idx`. */
    method Select(idx: int)
      requires Valid() && 0 <= idx < |images|
      modifies this
      ensures Valid()
      ensures index == idx && imageLoading && images == old(images)
    {
      index := idx;
      imageLoading := true;
    }

    /** The image's `onLoad` or `onError`: both end the loading state and change nothing else. */
    method ImageSettled()
      requires Valid()
      modifies this
      ensures Valid()
      ensures !imageLoading && images == old(images) && index == old(index)
    {
      imageLoading := false;
    }
  }

  /* ---------------------------------------------------------------------- */
  /* Map list URLs                                                          */
  /* ---------------------------------------------------------------------- */

  /** The first null or undefined entry, where `img.index` throws. */
  function FirstNullish(images: seq<Js>): (r: Option<nat>)
    ensures r.None? <==> NoNullish(images)
    ensures r.Some? ==> (r.value < |images| && IsNullish(images[r.value])
      && NoNullish(images[..r.value]))
  {
    if images == [] then None
    else if IsNullish(images[0]) then Some(0)
    else
      var rest := FirstNullish(images[1..]);
      if rest.None? then
        assert images == [images[0]] + images[1..];
        None
      else
        assert images[..rest.value + 1] == [images[0]] + images[1..][..rest.value];
        Some(rest.value + 1)
  }

  /** The TypeError of reading `key` from null or undefined, as V8 words it. */
  function ReadPropertyError(v: Js, key: string): string {
    "Cannot read properties of " + (if v.Null? then "null" else "undefined") + " (reading '" + key + "')"
  }

  /** One URL per entry of the list response, in order, built from each entry's `index`. */
  function ImageUrls(prefix: string, suffix: string, images: seq<Js>): (urls: seq<string>)
    requires NoNullish(images)
    ensures |urls| == |images|
    ensures forall k :: 0 <= k < |images| ==> urls[k] == prefix + ToText(Get(images[k], "index")) + suffix
  {
    if images == [] then []
    else ImageUrls(prefix, suffix, images[..|images| - 1]) + [prefix + ToText(Get(images[|images| - 1], "index")) + suffix]
  }

  /** The index text can be cut back out of a URL. */
  lemma ImageUrlIndex(prefix: string, suffix: string, t: string)
    ensures var url := prefix + t + suffix;
      url[|prefix|..|url| - |suffix|] == t
  {
    var url := prefix + t + suffix;
    assert url == prefix + (t + suffix);
    assert url[|prefix|..] == t + suffix;
  }

  /** Entries whose indices render differently get different URLs. */
  lemma ImageUrlsDistinct(prefix: string, suffix: string, images: seq<Js>, k: int, l: int)
    requires NoNullish(images) && 0 <= k < |images| && 0 <= l < |images|
    requires ToText(Get(images[k], "index")) != ToText(Get(images[l], "index"))
    ensures ImageUrls(prefix, suffix, images)[k] != ImageUrls(prefix, suffix, images)[l]
  {
    ImageUrlIndex(prefix, suffix, ToText(Get(images[k], "index")));
    ImageUrlIndex(prefix, suffix, ToText(Get(images[l], "index")));
  }

  /** `${API}/api/date/${date}/maps/general/`. */
  function GeneralPrefix(latestDate: string): string {
    ApiBaseUrl + "/api/date/" + latestDate + "/maps/general/"
  }

  /** `${API}/api/date/${date}/maps/${stormId}/`. */
  function StormPrefix(latestDate: string, stormId: Js): string {
    ApiBaseUrl + "/api/date/" + latestDate + "/maps/" + ToText(stormId) + "/"
  }

  /** `?v=${date}`: the date is the cache-buster of dated images. */
  function DateVersion(latestDate: string): string {
    "?v=" + latestDate
  }

  /** The single latest-map URL of a storm, with the clock as cache-buster. */
  function LatestStormUrl(stormId: Js, now: int): string {
    ApiBaseUrl + "/api/maps/" + ToText(stormId) + "?v=" + IntToString(now)
  }

  /** What a list request can give: a non-OK status, a failure with its message, or the entries. */
  datatype ListResponse = ListNotOk | ListFailed(message: string) | ListBody(images: seq<Js>)

  /** What the existence check of the latest map can give. */
  datatype CheckResponse = CheckNotOk | CheckFailed(message: string) | CheckOk

  const GeneralListError: string := "No se pudieron cargar las imágenes generales"

  function StormListError(stormId: Js): string {
    "No se pudieron cargar las imágenes de " + ToText(stormId)
  }

  function LatestMissingError(stormId: Js): string {
    "No se encontró mapa para " + ToText(stormId)
  }

  /** The general carousel's list load: its URLs, or the message it shows. */
  function GeneralLoad(latestDate: string, response: ListResponse): (r: Result<seq<string>>)
    ensures r.Ok? <==> response.ListBody? && NoNullish(response.images)
    ensures r.Ok? ==> (|r.value| == |response.images|
      && forall k :: 0 <= k < |r.value| ==>
           r.value[k] == GeneralPrefix(latestDate) + ToText(Get(response.images[k], "index")) + DateVersion(latestDate))
    ensures response.ListNotOk? ==> r == Err(GeneralListError)
    ensures response.ListFailed? ==> r == Err(response.message)
    ensures response.ListBody? && FirstNullish(response.images).Some? ==>
      r == Err(ReadPropertyError(response.images[FirstNullish(response.images).value], "index"))
  {
    match response
    case ListNotOk => Err(GeneralListError)
    case ListFailed(message) => Err(message)
    case ListBody(images) =>
      var bad := FirstNullish(images);
      if bad.Some? then Err(ReadPropertyError(images[bad.value], "index"))
      else Ok(ImageUrls(GeneralPrefix(latestDate), DateVersion(latestDate), images))
  }

  /** A storm carousel's dated list load. */
  function StormListLoad(stormId: Js, latestDate: string, response: ListResponse): (r: Result<seq<string>>)
    ensures r.Ok? <==> response.ListBody? && NoNullish(response.images)
    ensures r.Ok? ==> (|r.value| == |response.images|
      && forall k :: 0 <= k < |r.value| ==>
           r.value[k] == StormPrefix(latestDate, stormId) + ToText(Get(response.images[k], "index")) + DateVersion(latestDate))
    ensures response.ListNotOk? ==> r == Err(StormListError(stormId))
    ensures response.ListFailed? ==> r == Err(response.message)
    ensures response.ListBody? && FirstNullish(response.images).Some? ==>
      r == Err(ReadPropertyError(response.images[FirstNullish(response.images).value], "index"))
  {
    match response
    case ListNotOk => Err(StormListError(stormId))
    case ListFailed(message) => Err(message)
    case ListBody(images) =>
      var bad := FirstNullish(images);
      if bad.Some? then Err(ReadPropertyError(images[bad.value], "index"))
      else Ok(ImageUrls(StormPrefix(latestDate, stormId), DateVersion(latestDate), images))
  }

  /** A storm carousel without a date: exactly one URL once the map is known to exist. */
  function LatestStormLoad(stormId: Js, response: CheckResponse, now: int): (r: Result<seq<string>>)
    ensures r.Ok? <==> response.CheckOk?
    ensures r.Ok? ==> r.value == [LatestStormUrl(stormId, now)]
    ensures response.CheckNotOk? ==> r == Err(LatestMissingError(stormId))
    ensures response.CheckFailed? ==> r == Err(response.message)
  {
    match response
    case CheckNotOk => Err(LatestMissingError(stormId))
    case CheckFailed(message) => Err(message)
    case CheckOk => Ok([LatestStormUrl(stormId, now)])
  }

  /** A date is used when it is truthy: present and non-empty. */
  predicate Present(latestDate: Option<string>) {
    latestDate.Some? && latestDate.value != ""
  }

  /** The `images`, `loading` and `error` state of the general and storm carousels. */
  class MapList {
    var images: seq<string>
    var loading: bool
    var error: Option<string>

    constructor()
      ensures images == [] && loading && error == None
    {
      images := [];
      loading := true;
      error := None;
    }

    /** The end of a load: the URLs on success, no images and the message on failure; loading stops. */
    method Settle(r: Result<seq<string>>)
      modifies this
      ensures !loading
      ensures r.Ok? ==> images == r.value && error == None
      ensures r.Err? ==> images == [] && error == Some(r.message)
    {
      images := [];
      error := None;
      match r {
        case Ok(urls) => images := urls;
        case Err(message) => error := Some(message);
      }
      loading := false;
    }

    /** The effect of `GeneralMapCarousel`: nothing without a date. */
    method LoadGeneral(latestDate: Option<string>, response: ListResponse)
      modifies this
      ensures !Present(latestDate) ==> images == old(images) && loading == old(loading) && error == old(error)
      ensures Present(latestDate) ==>
        var r := GeneralLoad(latestDate.value, response);
        !loading && (r.Ok? ==> images == r.value && error == None) && (r.Err? ==> images == [] && error == Some(r.message))
    {
      if !Present(latestDate) {
        return;
      }
      loading := true;
      error := None;
      images := [];
      Settle(GeneralLoad(latestDate.value, response));
    }

    /**
     * The effect of `StormMapCarousel`: nothing without a storm; the dated
     * list with a date, the single latest map without one.
     */
    method LoadStorm(stormId: Js, latestDate: Option<string>, list: ListResponse, check: CheckResponse, now: int)
      modifies this
      ensures !Truthy(stormId) ==> images == old(images) && loading == old(loading) && error == old(error)
      ensures Truthy(stormId) ==>
        var r := if Present(latestDate) then StormListLoad(stormId, latestDate.value, list) else LatestStormLoad(stormId, check, now);
        !loading && (r.Ok? ==> images == r.value && error == None) && (r.Err? ==> images == [] && error == Some(r.message))
    {
      if !Truthy(stormId) {
        return;
      }
      loading := true;
      error := None;
      images := [];
      if Present(latestDate) {
        Settle(StormListLoad(stormId, latestDate.value, list));
      } else {
        Settle(LatestStormLoad(stormId, check, now));
      }
    }
  }

  /* ---------------------------------------------------------------------- */
  /* Storm cards                                                            */
  /* ---------------------------------------------------------------------- */

  const DangerColor: string := "bg-rainmap-danger"
  const Accent2Color: string := "bg-rainmap-accent2"
  const AccentColor: string := "bg-rainmap-accent"

  /** `getDangerLevelColor`: danger from 4 up, the second accent for 2 and 3, the accent below. */
  function DangerLevelColor(category: int): (c: string)
    ensures c == DangerColor <==> category >= 4
    ensures c == Accent2Color <==> 2 <= category <= 3
    ensures c == AccentColor <==> category <= 1
  {
    if category >= 4 then DangerColor
    else if category >= 2 then Accent2Color
    else AccentColor
  }

  /** `storm.categoria || storm.category || 1`, the category a card is coloured by. */
  function CardCategory(storm: StormData.StormRecord): (c: int)
    ensures c != 0
  {
    if storm.categoria != 0 then storm.categoria
    else if storm.category != 0 then storm.category
    else 1
  }

  /** No card of a storm list built by the normaliser is ever coloured as danger. */
  lemma NormalisedNeverDanger(entries: seq<(string, Js)>, imageDate: Option<string>, now: int)
    requires StormData.NoNullValues(entries)
    ensures forall storm :: storm in StormData.NormaliseAll(entries, imageDate, now) ==>
      DangerLevelColor(CardCategory(storm)) != DangerColor
  {
    StormData.NormaliseAllRecords(entries, imageDate, now);
  }

  /* ---------------------------------------------------------------------- */
  /* The JSON popup                                                         */
  /* ---------------------------------------------------------------------- */

  /** `${API}/api/date/${date}/storms`, the general view's JSON. */
  function GeneralJsonUrl(latestDate: string): string {
    ApiBaseUrl + "/api/date/" + latestDate + "/storms"
  }

  /** The JSON URL: one storm's document, or the whole date's without a storm. */
  function HistoricJsonUrl(storm: Option<StormData.StormRecord>, latestDate: string): (url: string)
    ensures storm.None? ==> url == GeneralJsonUrl(latestDate)
    ensures storm.Some? ==> url == GeneralJsonUrl(latestDate) + "/" + ToText(storm.value.id)
  {
    if storm.Some? then ApiBaseUrl + "/api/date/" + latestDate + "/storms/" + ToText(storm.value.id)
    else ApiBaseUrl + "/api/date/" + latestDate + "/storms"
  }

  /** A storm's URL reads back its id, and differs from the general one. */
  lemma HistoricJsonUrlId(storm: StormData.StormRecord, latestDate: string)
    ensures var url := HistoricJsonUrl(Some(storm), latestDate);
      var general := GeneralJsonUrl(latestDate);
      |general| < |url| && url[..|general|] == general && url[|general| + 1..] == ToText(storm.id)
      && url != HistoricJsonUrl(None, latestDate)
  {
    SegmentReadsBack(GeneralJsonUrl(latestDate), ToText(storm.id));
  }

  /** A path with one more segment starts with the path and ends with the segment. */
  lemma SegmentReadsBack(path: string, segment: string)
    ensures var url := path + "/" + segment;
      |path| < |url| && url[..|path|] == path && url[|path| + 1..] == segment && url != path
  {
    var url := path + "/" + segment;
    assert url == path + ("/" + segment);
    assert url[|path|..] == "/" + segment;
  }

  /** The popup's title: the storm's name or id, or the general view with its date. */
  function HistoricTitle(storm: Option<StormData.StormRecord>, latestDate: string): string {
    if storm.Some? then "Datos JSON: " + ToText(Or(storm.value.nombre, storm.value.id))
    else "Datos JSON: Vista General (" + latestDate + ")"
  }

  /** How the popup's request ends: the JSON, a non-OK status with its body, or a failure. */
  datatype JsonResponse = JsonOk(data: Js) | JsonNotOk(status: int, body: Js) | JsonFailed(message: string)

  /** `errorData.detail || \`Error ${status}\``, or the TypeError of a null error body. */
  function NotOkMessage(status: int, body: Js): (m: string)
    ensures IsNullish(body) ==> m == ReadPropertyError(body, "detail")
    ensures !IsNullish(body) && Truthy(Get(body, "detail")) ==> m == ToText(Get(body, "detail"))
    ensures !IsNullish(body) && !Truthy(Get(body, "detail")) ==> m == "Error " + IntToString(status)
  {
    if IsNullish(body) then ReadPropertyError(body, "detail")
    else
      var detail := Get(body, "detail");
      if Truthy(detail) then ToText(detail) else "Error " + IntToString(status)
  }

  /** The popup's state in `DashboardContent`. */
  class Popup {
    var showInfo: bool
    var title: string
    var content: Js
    var loading: bool
    var error: Option<string>

    constructor()
      ensures !showInfo && title == "Datos JSON" && content == Null && !loading && error == None
    {
      showInfo := false;
      title := "Datos JSON";
      content := Null;
      loading := false;
      error := None;
    }

    /** `closePopup`: hidden, empty, not loading, no error; the title stays. */
    method Close()
      modifies this
      ensures !showInfo && content == Null && error == None && !loading
      ensures title == old(title)
    {
      showInfo := false;
      content := Null;
      error := None;
      loading := false;
    }

    /** The synchronous part of `handleHistoricJsonClick`: the popup opens, loading, and the URL is chosen. */
    method BeginHistoric(storm: Option<StormData.StormRecord>, latestDate: string) returns (url: string)
      modifies this
      ensures showInfo && loading && error == None && content == Null
      ensures title == HistoricTitle(storm, latestDate)
      ensures url == HistoricJsonUrl(storm, latestDate)
    {
      showInfo := true;
      loading := true;
      error := None;
      content := Null;
      if storm.Some? {
        title := "Datos JSON: " + ToText(Or(storm.value.nombre, storm.value.id));
        url := ApiBaseUrl + "/api/date/" + latestDate + "/storms/" + ToText(storm.value.id);
      } else {
        title := "Datos JSON: Vista General (" + latestDate + ")";
        url := ApiBaseUrl + "/api/date/" + latestDate + "/storms";
      }
    }

    /** The end of the request: the JSON or the error message; loading stops, the rest stays. */
    method FinishHistoric(response: JsonResponse)
      modifies this
      ensures !loading && showInfo == old(showInfo) && title == old(title)
      ensures response.JsonOk? ==> content == response.data && error == old(error)
      ensures response.JsonNotOk? ==> error == Some(NotOkMessage(response.status, response.body)) && content == old(content)
      ensures response.JsonFailed? ==> error == Some(response.message) && content == old(content)
    {
      match response {
        case JsonOk(data) => content := data;
        case JsonNotOk(status, body) => error := Some(NotOkMessage(status, body));
        case JsonFailed(message) => error := Some(message);
      }
      loading := false;
    }

    /** The whole click: the popup ends open, not loading, with exactly one of the JSON and an error. */
    method HistoricJsonClick(storm: Option<StormData.StormRecord>, latestDate: string, response: JsonResponse)
      returns (url: string)
      modifies this
      ensures showInfo && !loading && title == HistoricTitle(storm, latestDate)
      ensures url == HistoricJsonUrl(storm, latestDate)
      ensures response.JsonOk? <==> error == None
      ensures response.JsonOk? ==> content == response.data
      ensures !response.JsonOk? ==> content == Null
    {
      url := BeginHistoric(storm, latestDate);
      FinishHistoric(response);
    }
  }
}
