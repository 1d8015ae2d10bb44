/**
 * The storm record normaliser of the application root and the two storm
 * fetches that feed it: the latest snapshot and the snapshot of a given
 * date. Network responses and the clock are inputs.
 */
module StormData {
  import opened Common
  import opened JsValues

  const ApiBaseUrl: string := "https://weatherstorm-app-backend-weather-app.up.railway.app"

  /**
   * A storm as the dashboard consumes it. The source writes every field
   * twice, under a Spanish and an English name; both are kept.
   */
  datatype StormRecord = StormRecord(
    id: Js,
    nombre: Js, name: Js,
    categoria: int, category: int,
    velocidadViento: Js, windSpeed: Js,
    presion: Js, pressure: Js,
    ubicacion: Js, location: Js,
    year: Js, season: Js, ace: Js, invest: Js, stormType: Js,
    estado: string, status: string,
    imageUrl: string)

  /* ---------------------------------------------------------------------- */
  /* One record                                                             */
  /* ---------------------------------------------------------------------- */

  /** An entry is kept when it is an object whose `id` is truthy. */
  predicate Qualifies(v: Js) {
    v.Obj? && Truthy(Lookup(v.props, "id"))
  }

  /** The last element of `storm_type` when it is a non-empty array, undefined otherwise. */
  function LastType(stormType: Js): Js {
    if stormType.Arr? && |stormType.elems| > 0 then stormType.elems[|stormType.elems| - 1]
    else Undefined
  }

  /** Category derived from the most recent storm type. */
  function Category(stormType: Js): (c: int)
    ensures c in {1, 2, 3}
    ensures c == 3 <==> LastType(stormType) == Str("HU")
    ensures c == 2 <==> LastType(stormType) == Str("TS")
    ensures c == 1 <==> LastType(stormType) != Str("HU") && LastType(stormType) != Str("TS")
  {
    if Truthy(stormType) && stormType.Arr? then
      var lastType := if |stormType.elems| > 0 then stormType.elems[|stormType.elems| - 1] else Undefined;
      if lastType == Str("HU") then 3 else if lastType == Str("TS") then 2 else 1
    else
      1
  }

  /** The Spanish label of a basin; unknown basins pass through. */
  function BasinEs(basin: Js): Js {
    if basin == Str("north_atlantic") then Str("Atlántico Norte")
    else if basin == Str("east_pacific") then Str("Pacífico Este")
    else basin
  }

  /** The English label of a basin; unknown basins pass through. */
  function BasinEn(basin: Js): Js {
    if basin == Str("north_atlantic") then Str("North Atlantic")
    else if basin == Str("east_pacific") then Str("East Pacific")
    else basin
  }

  /** The image date is used when it is truthy, i.e. present and non-empty. */
  predicate HasImageDate(imageDate: Option<string>) {
    imageDate.Some? && imageDate.value != ""
  }

  /** The per-storm image: the date's first map, or the latest map with a clock cache-buster. */
  function StormImageUrl(id: Js, imageDate: Option<string>, now: int): string {
    if HasImageDate(imageDate)
    then ApiBaseUrl + "/api/date/" + imageDate.value + "/maps/" + ToText(id) + "/0?v=" + imageDate.value
    else ApiBaseUrl + "/api/maps/" + ToText(id) + "?v=" + IntToString(now)
  }

  /** The prefix of a dated image URL, up to the date. */
  const DatedMapsPrefix: string := ApiBaseUrl + "/api/date/"

  /** The prefix of the latest-map URL, up to the storm id. */
  const LatestMapsPrefix: string := ApiBaseUrl + "/api/maps/"

  /** Cutting a concatenation at the lengths of its parts gives the parts back. */
  lemma Pieces(pre: string, mid: string, post: string)
    ensures var s := pre + mid + post;
      s[..|pre|] == pre && s[|pre|..|pre| + |mid|] == mid && s[|pre| + |mid|..] == post
  {
  }

  /** The parts of `{pre}{d}/maps/{t}/0?v={d}`, read back at their offsets. */
  lemma DatedParts(pre: string, d: string, t: string)
    ensures var url, p := pre + d + "/maps/" + t + "/0?v=" + d, |pre|;
      && url[..p] == pre
      && url[p..p + |d|] == d
      && url[p + |d|..p + |d| + 6] == "/maps/"
      && url[p + |d| + 6..p + |d| + 6 + |t|] == t
      && url[p + |d| + 6 + |t|..] == "/0?v=" + d
  {
    var rest := "/maps/" + t + ("/0?v=" + d);
    assert pre + d + "/maps/" + t + "/0?v=" + d == pre + d + rest;
    Pieces(pre, d, rest);
    Pieces("/maps/", t, "/0?v=" + d);
  }

  /**
   * The date, the storm id and the cache-buster can be read back out of a
   * dated image URL at fixed offsets: the date after `/api/date/`, the id
   * after the following `/maps/`, and the URL ends with `/0?v=` and the date.
   */
  lemma DatedImageUrlReadsBack(id: Js, imageDate: Option<string>, now: int)
    requires HasImageDate(imageDate)
    ensures var url, d, t := StormImageUrl(id, imageDate, now), imageDate.value, ToText(id);
      var p := |DatedMapsPrefix|;
      && url[..p] == DatedMapsPrefix
      && url[p..p + |d|] == d
      && url[p + |d|..p + |d| + 6] == "/maps/"
      && url[p + |d| + 6..p + |d| + 6 + |t|] == t
      && url[p + |d| + 6 + |t|..] == "/0?v=" + d
  {
    DatedParts(DatedMapsPrefix, imageDate.value, ToText(id));
  }

  /** The parts of `{pre}{t}?v={n}`, read back at their offsets. */
  lemma LatestParts(pre: string, t: string, n: string)
    ensures var url, p := pre + t + "?v=" + n, |pre|;
      url[..p] == pre && url[p..p + |t|] == t && url[p + |t|..] == "?v=" + n
  {
    assert pre + t + "?v=" + n == pre + t + ("?v=" + n);
    Pieces(pre, t, "?v=" + n);
  }

  /**
   * Without a date the storm id follows `/api/maps/`, and the URL ends with
   * `?v=` and the clock reading.
   */
  lemma LatestImageUrlReadsBack(id: Js, imageDate: Option<string>, now: int)
    requires !HasImageDate(imageDate)
    ensures var url, t := StormImageUrl(id, imageDate, now), ToText(id);
      var p := |LatestMapsPrefix|;
      && url[..p] == LatestMapsPrefix
      && url[p..p + |t|] == t
      && url[p + |t|..] == "?v=" + IntToString(now)
  {
    LatestParts(LatestMapsPrefix, ToText(id), IntToString(now));
  }

  /**
   * A dated image URL never equals a latest-map URL, whatever the ids and
   * clock readings: right after `/api/` one has 'd' and the other 'm'.
   */
  lemma DatedAndLatestImageUrlsDiffer(id1: Js, date: Option<string>, id2: Js, noDate: Option<string>, now1: int, now2: int)
    requires HasImageDate(date) && !HasImageDate(noDate)
    ensures StormImageUrl(id1, date, now1) != StormImageUrl(id2, noDate, now2)
  {
    var k := |ApiBaseUrl + "/api/"|;
    var dated, latest := StormImageUrl(id1, date, now1), StormImageUrl(id2, noDate, now2);
    DatedImageUrlReadsBack(id1, date, now1);
    LatestImageUrlReadsBack(id2, noDate, now2);
    assert dated[k] == DatedMapsPrefix[k] == 'd';
    assert latest[k] == LatestMapsPrefix[k] == 'm';
  }

  /** `x || 0`. */
  function OrZero(v: Js): (r: Js)
    ensures Truthy(v) ==> r == v
    ensures !Truthy(v) ==> r == Num(0)
  {
    Or(v, Num(0))
  }

  /** The record pushed for a qualifying raw storm. */
  function Normalise(storm: Js, imageDate: Option<string>, now: int): StormRecord
    requires Qualifies(storm)
  {
    var categoria := Category(Get(storm, "storm_type"));
    var basin := Get(storm, "basin");
    var status := if Truthy(Get(storm, "invest")) then "watch" else "active";
    StormRecord(
      Get(storm, "id"),
      Get(storm, "name"), Get(storm, "name"),
      categoria, categoria,
      OrZero(Get(storm, "max_wind")), OrZero(Get(storm, "max_wind")),
      OrZero(Get(storm, "min_pressure")), OrZero(Get(storm, "min_pressure")),
      BasinEs(basin), BasinEn(basin),
      Get(storm, "year"), Get(storm, "season"), Get(storm, "ace"),
      Get(storm, "invest"), Get(storm, "storm_type"),
      status, status,
      StormImageUrl(Get(storm, "id"), imageDate, now))
  }

  /**
   * What a normalised record holds: the truthy id, one category under both
   * names, the watch/active status under both names, wind and pressure
   * defaulting to 0, the bilingual basin labels and the image URL.
   */
  lemma NormaliseFields(storm: Js, imageDate: Option<string>, now: int)
    requires Qualifies(storm)
    ensures var r := Normalise(storm, imageDate, now);
      && r.id == Get(storm, "id") && Truthy(r.id)
      && r.categoria == r.category == Category(Get(storm, "storm_type"))
      && r.category in {1, 2, 3}
      && r.estado == r.status && r.status in {"watch", "active"}
      && (r.status == "watch" <==> Truthy(Get(storm, "invest")))
      && r.windSpeed == r.velocidadViento && r.pressure == r.presion
      && (Truthy(r.windSpeed) || r.windSpeed == Num(0))
      && (Truthy(r.pressure) || r.pressure == Num(0))
      && (Get(storm, "basin") == Str("north_atlantic") ==>
            r.location == Str("North Atlantic") && r.ubicacion == Str("Atlántico Norte"))
      && (Get(storm, "basin") == Str("east_pacific") ==>
            r.location == Str("East Pacific") && r.ubicacion == Str("Pacífico Este"))
      && (Get(storm, "basin") != Str("north_atlantic") && Get(storm, "basin") != Str("east_pacific") ==>
            r.location == r.ubicacion == Get(storm, "basin"))
      && r.imageUrl == StormImageUrl(r.id, imageDate, now)
  {
  }

  /* ---------------------------------------------------------------------- */
  /* The whole mapping                                                      */
  /* ---------------------------------------------------------------------- */

  /** No entry value is null (reading `id` of a null entry throws). */
  predicate NoNullValues(entries: seq<(string, Js)>) {
    forall i :: 0 <= i < |entries| ==> !entries[i].1.Null?
  }

  /** The records of the qualifying entries, in key order. */
  function NormaliseAll(entries: seq<(string, Js)>, imageDate: Option<string>, now: int): (r: seq<StormRecord>)
    requires NoNullValues(entries)
    ensures |r| <= |entries|
  {
    if entries == [] then []
    else
      var init := NormaliseAll(entries[..|entries| - 1], imageDate, now);
      var v := entries[|entries| - 1].1;
      if Qualifies(v) then init + [Normalise(v, imageDate, now)] else init
  }

  /** The positions of the qualifying entries, in increasing order. */
  function QualifyingIndices(entries: seq<(string, Js)>): (ix: seq<nat>)
    ensures forall k :: 0 <= k < |ix| ==> ix[k] < |entries| && Qualifies(entries[ix[k]].1)
    ensures forall k, l :: 0 <= k < l < |ix| ==> ix[k] < ix[l]
    ensures forall i :: 0 <= i < |entries| && Qualifies(entries[i].1) ==> i in ix
  {
    if entries == [] then []
    else
      var init := QualifyingIndices(entries[..|entries| - 1]);
      if Qualifies(entries[|entries| - 1].1) then init + [|entries| - 1] else init
  }

  /**
   * The normaliser keeps exactly the qualifying entries: one record per
   * qualifying entry, in key order, and nothing else.
   */
  lemma {:induction false} NormaliseAllIndexed(entries: seq<(string, Js)>, imageDate: Option<string>, now: int)
    requires NoNullValues(entries)
    ensures |NormaliseAll(entries, imageDate, now)| == |QualifyingIndices(entries)|
    ensures forall k :: 0 <= k < |QualifyingIndices(entries)| ==>
      NormaliseAll(entries, imageDate, now)[k] == Normalise(entries[QualifyingIndices(entries)[k]].1, imageDate, now)
  {
    if entries != [] {
      var init := entries[..|entries| - 1];
      NormaliseAllIndexed(init, imageDate, now);
      forall k | 0 <= k < |QualifyingIndices(init)|
        ensures entries[QualifyingIndices(init)[k]] == init[QualifyingIndices(init)[k]]
      {
      }
    }
  }

  /** Every produced record has a truthy id, a category in {1, 2, 3} and status "watch" or "active". */
  lemma {:induction false} NormaliseAllRecords(entries: seq<(string, Js)>, imageDate: Option<string>, now: int)
    requires NoNullValues(entries)
    ensures forall r :: r in NormaliseAll(entries, imageDate, now) ==>
      Truthy(r.id) && r.category in {1, 2, 3} && r.categoria == r.category &&
      r.status in {"watch", "active"} && r.estado == r.status
  {
    if entries != [] {
      NormaliseAllRecords(entries[..|entries| - 1], imageDate, now);
      var v := entries[|entries| - 1].1;
      if Qualifies(v) {
        NormaliseFields(v, imageDate, now);
      }
    }
  }

  /* ---------------------------------------------------------------------- */
  /* processStormData                                                       */
  /* ---------------------------------------------------------------------- */

  /** The messages of the TypeErrors thrown on null (V8's wording). */
  const KeysOfNullMessage: string := "Cannot convert undefined or null to object"
  function ReadOfNullMessage(key: string): string {
    "Cannot read properties of null (reading '" + key + "')"
  }

  /** What `processStormData(data, imageDate)` returns or throws. */
  function StormDataResult(data: Js, imageDate: Option<string>, now: int): Result<seq<StormRecord>> {
    if IsNullish(data) then Err(KeysOfNullMessage)
    else if !NoNullValues(Entries(data)) then Err(ReadOfNullMessage("id"))
    else Ok(NormaliseAll(Entries(data), imageDate, now))
  }

  /** The first n entries are not null. */
  predicate NoNullBefore(entries: seq<(string, Js)>, n: nat)
    requires n <= |entries|
  {
    forall k :: 0 <= k < n ==> !entries[k].1.Null?
  }

  /** Extending the processed prefix by one entry adds at most that entry's record. */
  lemma NormaliseAllStep(entries: seq<(string, Js)>, i: nat, imageDate: Option<string>, now: int)
    requires i < |entries| && NoNullBefore(entries, i + 1)
    ensures NoNullValues(entries[..i]) && NoNullValues(entries[..i + 1])
    ensures NormaliseAll(entries[..i + 1], imageDate, now) ==
      if Qualifies(entries[i].1) then NormaliseAll(entries[..i], imageDate, now) + [Normalise(entries[i].1, imageDate, now)]
      else NormaliseAll(entries[..i], imageDate, now)
  {
    assert entries[..i + 1][..i] == entries[..i];
  }

  /**
   * The body of the `forEach` callback for a qualifying entry: derives the
   * category step by step from the last storm type and builds the record.
   */
  method NormaliseStorm(storm: Js, imageDate: Option<string>, now: int) returns (record: StormRecord)
    requires Qualifies(storm)
    ensures record == Normalise(storm, imageDate, now)
  {
    var categoria := 1;
    var stormType := Get(storm, "storm_type");
    if Truthy(stormType) && stormType.Arr? {
      var lastType := if |stormType.elems| > 0 then stormType.elems[|stormType.elems| - 1] else Undefined;
      if lastType == Str("HU") {
        categoria := 3;
      } else if lastType == Str("TS") {
        categoria := 2;
      } else if lastType == Str("TD") {
        categoria := 1;
      }
    }
    var imageUrl := StormImageUrl(Get(storm, "id"), imageDate, now);
    var basin := Get(storm, "basin");
    var status := if Truthy(Get(storm, "invest")) then "watch" else "active";
    record := StormRecord(
      Get(storm, "id"),
      Get(storm, "name"), Get(storm, "name"),
      categoria, categoria,
      OrZero(Get(storm, "max_wind")), OrZero(Get(storm, "max_wind")),
      OrZero(Get(storm, "min_pressure")), OrZero(Get(storm, "min_pressure")),
      BasinEs(basin), BasinEn(basin),
      Get(storm, "year"), Get(storm, "season"), Get(storm, "ace"),
      Get(storm, "invest"), Get(storm, "storm_type"),
      status, status,
      imageUrl);
  }

  /** One turn of the `forEach` walk: the entry's record is pushed when the entry qualifies. */
  method CollectEntry(entries: seq<(string, Js)>, i: nat, imageDate: Option<string>, now: int, storms: seq<StormRecord>)
    returns (next: seq<StormRecord>)
    requires i < |entries| && NoNullBefore(entries, i + 1)
    requires NoNullValues(entries[..i]) && storms == NormaliseAll(entries[..i], imageDate, now)
    ensures next == NormaliseAll(entries[..i + 1], imageDate, now)
  {
    NormaliseAllStep(entries, i, imageDate, now);
    var storm := entries[i].1;
    next := storms;
    if storm.Obj? && Truthy(Get(storm, "id")) {
      var record := NormaliseStorm(storm, imageDate, now);
      next := storms + [record];
    }
  }

  /**
   * `processStormData`: walks `Object.keys(data)` in order and pushes one
   * record per object entry with a truthy id. A null entry makes the walk
   * throw when its `id` is read.
   */
  method ProcessStormData(data: Js, imageDate: Option<string>, now: int) returns (r: Result<seq<StormRecord>>)
    ensures r == StormDataResult(data, imageDate, now)
  {
    if IsNullish(data) {
      return Err(KeysOfNullMessage);
    }
    var entries := Entries(data);
    var storms: seq<StormRecord> := [];
    var i := 0;
    while i < |entries|
      invariant 0 <= i <= |entries|
      invariant NoNullBefore(entries, i)
      invariant NoNullValues(entries[..i]) && storms == NormaliseAll(entries[..i], imageDate, now)
    {
      var storm := entries[i].1;
      if storm.Null? {
        NullEntryFails(data, i, imageDate, now);
        return Err(ReadOfNullMessage("id"));
      }
      storms := CollectEntry(entries, i, imageDate, now, storms);
      i := i + 1;
    }
    WalkCompletes(data, imageDate, now);
    r := Ok(storms);
  }

  /** A null entry anywhere makes the whole walk fail. */
  lemma NullEntryFails(data: Js, i: nat, imageDate: Option<string>, now: int)
    requires !IsNullish(data) && i < |Entries(data)| && Entries(data)[i].1.Null?
    ensures StormDataResult(data, imageDate, now) == Err(ReadOfNullMessage("id"))
  {
    assert !NoNullValues(Entries(data)) by {
      assert Entries(data)[i].1.Null?;
    }
  }

  /** A walk that met no null entry yields the records of all entries. */
  lemma WalkCompletes(data: Js, imageDate: Option<string>, now: int)
    requires !IsNullish(data)
    requires NoNullValues(Entries(data)[..|Entries(data)|])
    ensures StormDataResult(data, imageDate, now)
      == Ok(NormaliseAll(Entries(data)[..|Entries(data)|], imageDate, now))
  {
    assert Entries(data)[..|Entries(data)|] == Entries(data);
  }

  /* ---------------------------------------------------------------------- */
  /* The two storm fetches                                                  */
  /* ---------------------------------------------------------------------- */

  /** A response body: parsed JSON, or the message of the SyntaxError `res.json()` throws. */
  datatype Body = Parsed(value: Js) | Malformed(message: string)

  /** The settled `fetch`: a transport failure with its message, or a status and a body. */
  datatype HttpResult = NetworkFailure(message: string) | Response(status: int, body: Body)

  /** `response.ok`. */
  predicate IsOk(status: int) {
    200 <= status <= 299
  }

  function NotFoundMessage(date: string): string {
    "No se encontraron datos " + "de tormentas para la fecha " + date + "."
  }

  const ServerErrorMessage: string := "Error al conectar con el servidor."
  const LatestErrorMessage: string := "No se pudieron cargar los datos de tormentas"

  /**
   * What a settled storm fetch does to the dashboard: on success the new
   * storm list (the error is left as it is); on failure the error message,
   * with the storm list emptied.
   */
  datatype StormsLoad = Loaded(storms: seq<StormRecord>) | Failed(message: string)

  /** The property is a `tormentas*` key holding an object. */
  predicate IsTormentasEntry(e: (string, Js)) {
    StartsWith(e.0, "tormentas") && IsObjectType(e.1)
  }

  /** `Object.keys(stormsData).find(...)`: the position of the first `tormentas*` entry holding an object. */
  function FindTormentas(entries: seq<(string, Js)>): (r: Option<nat>)
    ensures r.Some? ==> r.value < |entries| && IsTormentasEntry(entries[r.value])
    ensures r.Some? ==> forall j :: 0 <= j < r.value ==> !IsTormentasEntry(entries[j])
    ensures r.None? ==> forall j :: 0 <= j < |entries| ==> !IsTormentasEntry(entries[j])
  {
    if entries == [] then None
    else if IsTormentasEntry(entries[0]) then Some(0)
    else match FindTormentas(entries[1..])
      case None => None
      case Some(k) => Some(k + 1)
  }

  /** The storms object of a by-date payload, null when there is none. */
  function TormentasOf(data: Js): Js
    requires !IsNullish(data)
  {
    var stormsData := Or(Get(data, "data"), Obj([]));
    var entries := Entries(stormsData);
    match FindTormentas(entries)
    case Some(k) => entries[k].1
    case None => Null
  }

  /** What `fetchStormsByDate(date)` leaves behind once the response has settled. */
  function ByDateOutcome(date: string, resp: HttpResult, now: int): (o: StormsLoad)
    ensures resp.Response? && resp.status == 404 ==> o == Failed(NotFoundMessage(date))
    ensures resp.Response? && !IsOk(resp.status) && resp.status != 404 ==> o == Failed(ServerErrorMessage)
    ensures resp.NetworkFailure? ==> o == Failed(resp.message)
  {
    match resp
    case NetworkFailure(message) => Failed(message)
    case Response(status, body) =>
      if !IsOk(status) then
        if status == 404 then Failed(NotFoundMessage(date)) else Failed(ServerErrorMessage)
      else match body
        case Malformed(message) => Failed(message)
        case Parsed(data) =>
          if IsNullish(data) then Failed(ReadOfNullMessage("data"))
          else
            var actual := TormentasOf(data);
            if !Truthy(actual) || |Entries(actual)| == 0 then Loaded([])
            else match StormDataResult(actual, Some(date), now)
              case Ok(storms) => Loaded(storms)
              case Err(message) => Failed(message)
  }

  /** What `fetchLatestStorms()` leaves behind once the response has settled. */
  function LatestOutcome(resp: HttpResult, now: int): (o: StormsLoad)
    ensures resp.Response? && !IsOk(resp.status) ==> o == Failed(LatestErrorMessage)
    ensures resp.NetworkFailure? ==> o == Failed(resp.message)
  {
    match resp
    case NetworkFailure(message) => Failed(message)
    case Response(status, body) =>
      if !IsOk(status) then Failed(LatestErrorMessage)
      else match body
        case Malformed(message) => Failed(message)
        case Parsed(data) =>
          match StormDataResult(data, None, now)
          case Ok(storms) => Loaded(storms)
          case Err(message) => Failed(message)
  }

  /**
   * `fetchStormsByDate(date)` once its response has settled: the status
   * checks, the `tormentas*` lookup, and `processStormData` on the object found.
   */
  method FetchStormsByDate(date: string, resp: HttpResult, now: int) returns (o: StormsLoad)
    ensures o == ByDateOutcome(date, resp, now)
  {
    match resp
    case NetworkFailure(message) =>
      o := Failed(message);
    case Response(status, body) =>
      if !IsOk(status) {
        if status == 404 {
          o := Failed(NotFoundMessage(date));
        } else {
          o := Failed(ServerErrorMessage);
        }
        return;
      }
      match body
      case Malformed(message) =>
        o := Failed(message);
      case Parsed(data) =>
        if IsNullish(data) {
          o := Failed(ReadOfNullMessage("data"));
          return;
        }
        var actual := TormentasOf(data);
        if !Truthy(actual) || |Entries(actual)| == 0 {
          o := Loaded([]);
        } else {
          var r := ProcessStormData(actual, Some(date), now);
          match r
          case Ok(storms) => o := Loaded(storms);
          case Err(message) => o := Failed(message);
        }
  }

  /** `fetchLatestStorms()` once its response has settled. */
  method FetchLatestStorms(resp: HttpResult, now: int) returns (o: StormsLoad)
    ensures o == LatestOutcome(resp, now)
  {
    match resp
    case NetworkFailure(message) =>
      o := Failed(message);
    case Response(status, body) =>
      if !IsOk(status) {
        o := Failed(LatestErrorMessage);
        return;
      }
      match body
      case Malformed(message) =>
        o := Failed(message);
      case Parsed(data) =>
        var r := ProcessStormData(data, None, now);
        match r
        case Ok(storms) => o := Loaded(storms);
        case Err(message) => o := Failed(message);
  }

  /** The not-found message names the date, and differs from the generic server message. */
  lemma NotFoundNamesDate(date: string)
    ensures Includes(NotFoundMessage(date), date)
    ensures NotFoundMessage(date) != ServerErrorMessage
  {
    var prefix := "No se encontraron datos " + "de tormentas para la fecha ";
    var m := NotFoundMessage(date);
    assert OccursAt(m, date, |prefix|) by {
      assert m[|prefix|..|prefix| + |date|] == date;
    }
    IncludesAt(m, date);
    assert m[0] == "No se encontraron datos "[0] == 'N';
    assert ServerErrorMessage[0] == 'E';
  }

  /**
   * A by-date payload without a usable `tormentas*` object, or with an
   * empty one, yields an empty storm list and no error.
   */
  lemma ByDateWithoutStorms(date: string, status: int, data: Js, now: int)
    requires IsOk(status) && !IsNullish(data)
    requires TormentasOf(data) == Null || Entries(TormentasOf(data)) == []
    ensures ByDateOutcome(date, Response(status, Parsed(data)), now) == Loaded([])
  {
  }

  /** A successful by-date load holds exactly the normalised records of the first `tormentas*` object. */
  lemma ByDateLoadsTormentas(date: string, status: int, data: Js, now: int)
    requires IsOk(status) && !IsNullish(data)
    requires TormentasOf(data).Obj? && NoNullValues(TormentasOf(data).props)
    ensures ByDateOutcome(date, Response(status, Parsed(data)), now) ==
      Loaded(NormaliseAll(TormentasOf(data).props, Some(date), now))
  {
    var props := TormentasOf(data).props;
    if props != [] {
      assert Entries(TormentasOf(data)) == props;
    } else {
      assert NormaliseAll(props, Some(date), now) == [];
    }
  }
}
