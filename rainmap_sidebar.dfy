/**
 * The city side of the rain map: the fixed list of Mexican cities, the
 * search that suggests up to eight of them, the precipitation bands that
 * pick the card's glow and glyph, and the sidebar state that the search box
 * and a city selection update.
 */
module Cities {
  import opened Common

  datatype City = City(name: string, state: string)

  /**
   * A `precipitation` as read off the city reply's JSON: a number, `null`,
   * or missing (`undefined`, which converts to NaN).
   */
  datatype Precip = Amount(p: real) | NullAmount | NoAmount

  /** The weather card of the selected city. */
  datatype CityWeather = CityWeather(city: string, state: string, precipitation: Precip, lastUpdate: string)

  /** `MEXICAN_CITIES`, in the order the sidebar lists them. */
  const MexicanCities: seq<City> := [
    City("Ciudad de Mexico", "CDMX"), City("Guadalajara", "Jalisco"),
    City("Monterrey", "Nuevo León"), City("Puebla", "Puebla"),
    City("Tijuana", "Baja California"), City("León", "Guanajuato"),
    City("Juárez", "Chihuahua"), City("Zapopan", "Jalisco"),
    City("Mérida", "Yucatán"), City("San Luis Potosí", "San Luis Potosí"),
    City("Aguascalientes", "Aguascalientes"), City("Hermosillo", "Sonora"),
    City("Saltillo", "Coahuila"), City("Mexicali", "Baja California"),
    City("Culiacán", "Sinaloa"), City("Querétaro", "Querétaro"),
    City("Chihuahua", "Chihuahua"), City("Morelia", "Michoacán"),
    City("Toluca", "Estado de México"), City("Cancún", "Quintana Roo"),
    City("Acapulco", "Guerrero"), City("Torreón", "Coahuila"),
    City("Reynosa", "Tamaulipas"), City("Tuxtla Gutiérrez", "Chiapas"),
    City("Veracruz", "Veracruz"), City("Mazatlán", "Sinaloa"),
    City("Durango", "Durango"), City("Oaxaca", "Oaxaca"),
    City("Tampico", "Tamaulipas"), City("Irapuato", "Guanajuato"),
    City("Celaya", "Guanajuato"), City("Cuernavaca", "Morelos")
  ]

  /** The most suggestions the dropdown lists. */
  const MaxSuggestions: nat := 8

  predicate UniqueNames(cities: seq<City>) {
    forall i, j :: 0 <= i < j < |cities| ==> cities[i].name != cities[j].name
  }

  /** The position of a listed city's name in the list, -1 for any other name. */
  function NamePosition(name: string): int {
    if name == "Ciudad de Mexico" then 0
    else if name == "Guadalajara" then 1
    else if name == "Monterrey" then 2
    else if name == "Puebla" then 3
    else if name == "Tijuana" then 4
    else if name == "León" then 5
    else if name == "Juárez" then 6
    else if name == "Zapopan" then 7
    else if name == "Mérida" then 8
    else if name == "San Luis Potosí" then 9
    else if name == "Aguascalientes" then 10
    else if name == "Hermosillo" then 11
    else if name == "Saltillo" then 12
    else if name == "Mexicali" then 13
    else if name == "Culiacán" then 14
    else if name == "Querétaro" then 15
    else if name == "Chihuahua" then 16
    else if name == "Morelia" then 17
    else if name == "Toluca" then 18
    else if name == "Cancún" then 19
    else if name == "Acapulco" then 20
    else if name == "Torreón" then 21
    else if name == "Reynosa" then 22
    else if name == "Tuxtla Gutiérrez" then 23
    else if name == "Veracruz" then 24
    else if name == "Mazatlán" then 25
    else if name == "Durango" then 26
    else if name == "Oaxaca" then 27
    else if name == "Tampico" then 28
    else if name == "Irapuato" then 29
    else if name == "Celaya" then 30
    else if name == "Cuernavaca" then 31
    else -1
  }

  lemma NamePositions0()
    ensures forall i :: 0 <= i < 2 ==> NamePosition(MexicanCities[i].name) == i
  {
  }

  lemma NamePositions2()
    ensures forall i :: 2 <= i < 4 ==> NamePosition(MexicanCities[i].name) == i
  {
  }

  lemma NamePositions4()
    ensures forall i :: 4 <= i < 6 ==> NamePosition(MexicanCities[i].name) == i
  {
  }

  lemma NamePositions6()
    ensures forall i :: 6 <= i < 8 ==> NamePosition(MexicanCities[i].name) == i
  {
  }

  lemma NamePositions8()
    ensures forall i :: 8 <= i < 10 ==> NamePosition(MexicanCities[i].name) == i
  {
  }

  lemma NamePositions10()
    ensures forall i :: 10 <= i < 12 ==> NamePosition(MexicanCities[i].name) == i
  {
  }

  lemma NamePositions12()
    ensures forall i :: 12 <= i < 14 ==> NamePosition(MexicanCities[i].name) == i
  {
  }

  lemma NamePositions14()
    ensures forall i :: 14 <= i < 16 ==> NamePosition(MexicanCities[i].name) == i
  {
  }

  lemma NamePositions16()
    ensures forall i :: 16 <= i < 18 ==> NamePosition(MexicanCities[i].name) == i
  {
  }

  lemma NamePositions18()
    ensures forall i :: 18 <= i < 20 ==> NamePosition(MexicanCities[i].name) == i
  {
  }

  lemma NamePositions20()
    ensures forall i :: 20 <= i < 22 ==> NamePosition(MexicanCities[i].name) == i
  {
  }

  lemma NamePositions22()
    ensures forall i :: 22 <= i < 24 ==> NamePosition(MexicanCities[i].name) == i
  {
  }

  lemma NamePositions24()
    ensures forall i :: 24 <= i < 26 ==> NamePosition(MexicanCities[i].name) == i
  {
  }

  lemma NamePositions26()
    ensures forall i :: 26 <= i < 28 ==> NamePosition(MexicanCities[i].name) == i
  {
  }

  lemma NamePositions28()
    ensures forall i :: 28 <= i < 30 ==> NamePosition(MexicanCities[i].name) == i
  {
  }

  lemma NamePositions30()
    ensures forall i :: 30 <= i < 32 ==> NamePosition(MexicanCities[i].name) == i
  {
  }

  /** The list has 32 cities and no name twice. */
  lemma MexicanCitiesUnique()
    ensures |MexicanCities| == 32 && UniqueNames(MexicanCities)
  {
    NamePositions0();
    NamePositions2();
    NamePositions4();
    NamePositions6();
    NamePositions8();
    NamePositions10();
    NamePositions12();
    NamePositions14();
    NamePositions16();
    NamePositions18();
    NamePositions20();
    NamePositions22();
    NamePositions24();
    NamePositions26();
    NamePositions28();
    NamePositions30();
  }

  /** The quick list: the first eight cities, always shown. */
  function QuickList(): (r: seq<City>)
    ensures |r| == MaxSuggestions && UniqueNames(r)
    ensures forall k :: 0 <= k < |r| ==> r[k] == MexicanCities[k]
  {
    MexicanCitiesUnique();
    MexicanCities[..MaxSuggestions]
  }

  /* ---------------------------------------------------------------------- */
  /* Search                                                                 */
  /* ---------------------------------------------------------------------- */

  /** The lower-cased name or state contains the lower-cased query. */
  predicate Matches(c: City, query: string) {
    Includes(Lower(c.name), Lower(query)) || Includes(Lower(c.state), Lower(query))
  }

  /** The elements of s whose mark is set, in order. */
  function Keep<T>(s: seq<T>, marks: seq<bool>): (r: seq<T>)
    requires |marks| == |s|
    ensures |r| <= |s|
  {
    if s == [] then []
    else
      var init := Keep(s[..|s| - 1], marks[..|s| - 1]);
      if marks[|s| - 1] then init + [s[|s| - 1]] else init
  }

  /** The positions of the set marks, in increasing order. */
  function Marked(marks: seq<bool>): (ix: seq<nat>)
    ensures forall k :: 0 <= k < |ix| ==> ix[k] < |marks| && marks[ix[k]]
    ensures forall k, l :: 0 <= k < l < |ix| ==> ix[k] < ix[l]
    ensures forall i :: 0 <= i < |marks| && marks[i] ==> i in ix
  {
    if marks == [] then []
    else
      var init := Marked(marks[..|marks| - 1]);
      if marks[|marks| - 1] then init + [|marks| - 1] else init
  }

  /** Keeping by marks keeps exactly the elements at the marked positions, in order. */
  lemma {:induction false} KeepIndexed<T>(s: seq<T>, marks: seq<bool>)
    requires |marks| == |s|
    ensures |Keep(s, marks)| == |Marked(marks)|
    ensures forall k :: 0 <= k < |Marked(marks)| ==> Keep(s, marks)[k] == s[Marked(marks)[k]]
  {
    if s != [] {
      var init := s[..|s| - 1];
      KeepIndexed(init, marks[..|s| - 1]);
      var ix := Marked(marks[..|s| - 1]);
      assert ix == Marked(marks[..|marks| - 1]);
      forall k | 0 <= k < |ix|
        ensures s[ix[k]] == init[ix[k]]
      {
      }
    }
  }

  /** Whether each city matches the query. */
  function MatchMarks(cities: seq<City>, query: string): (m: seq<bool>)
    ensures |m| == |cities|
    ensures forall i :: 0 <= i < |cities| ==> (m[i] <==> Matches(cities[i], query))
  {
    seq(|cities|, i requires 0 <= i < |cities| => Matches(cities[i], query))
  }

  /** `cities.filter(city => Matches(city, query))`. */
  function Filter(cities: seq<City>, query: string): (r: seq<City>)
    ensures |r| <= |cities|
  {
    Keep(cities, MatchMarks(cities, query))
  }

  /** The positions of the matching cities, in list order. */
  function MatchIndices(cities: seq<City>, query: string): (ix: seq<nat>)
    ensures forall k :: 0 <= k < |ix| ==> ix[k] < |cities| && Matches(cities[ix[k]], query)
    ensures forall k, l :: 0 <= k < l < |ix| ==> ix[k] < ix[l]
    ensures forall i :: 0 <= i < |cities| && Matches(cities[i], query) ==> i in ix
  {
    Marked(MatchMarks(cities, query))
  }

  /** The filter keeps exactly the cities at the matching positions, in order. */
  lemma FilterIndexed(cities: seq<City>, query: string)
    ensures |Filter(cities, query)| == |MatchIndices(cities, query)|
    ensures forall k :: 0 <= k < |MatchIndices(cities, query)| ==>
      Filter(cities, query)[k] == cities[MatchIndices(cities, query)[k]]
  {
    KeepIndexed(cities, MatchMarks(cities, query));
  }

  /** `s.slice(0, n)`. */
  function Take<T>(s: seq<T>, n: nat): (r: seq<T>)
    ensures |r| == if |s| <= n then |s| else n
    ensures r == s[..|r|]
  {
    if |s| <= n then s else s[..n]
  }

  /**
   * The suggestions for a query: nothing when it is blank after trimming,
   * otherwise the first eight matches. Matching uses the query untrimmed.
   */
  function Suggestions(cities: seq<City>, query: string): (r: seq<City>)
    ensures |r| <= MaxSuggestions
    ensures Trim(query) == "" ==> r == []
  {
    if Trim(query) == "" then [] else Take(Filter(cities, query), MaxSuggestions)
  }

  /**
   * For a query that is not blank, the suggestions are the cities at the
   * first matching positions, as many as there are up to eight; so every
   * suggestion matches, the suggestions keep list order, and no matching
   * city before the last suggestion (or at all, when fewer than eight
   * match) is missing.
   */
  lemma SuggestionsAreFirstMatches(cities: seq<City>, query: string)
    requires Trim(query) != ""
    ensures var r := Suggestions(cities, query);
      var ix := MatchIndices(cities, query);
      && |r| == (if |ix| <= MaxSuggestions then |ix| else MaxSuggestions)
      && (forall k :: 0 <= k < |r| ==> r[k] == cities[ix[k]] && Matches(r[k], query))
      && (forall i ::
            (0 <= i < |cities| && Matches(cities[i], query) && (|ix| <= MaxSuggestions || i <= ix[MaxSuggestions - 1]))
            ==> cities[i] in r)
  {
    TakeMarkedFirst(cities, MatchMarks(cities, query), MaxSuggestions);
  }

  /**
   * The first n kept elements are the elements at the first n marked
   * positions, and every marked element up to the n-th marked position is
   * among them.
   */
  lemma TakeMarkedFirst<T>(s: seq<T>, marks: seq<bool>, n: nat)
    requires |marks| == |s| && n > 0
    ensures var r := Take(Keep(s, marks), n);
      var ix := Marked(marks);
      && |r| == (if |ix| <= n then |ix| else n)
      && (forall k :: 0 <= k < |r| ==> r[k] == s[ix[k]])
      && (forall i :: 0 <= i < |s| && marks[i] && (|ix| <= n || i <= ix[n - 1]) ==> s[i] in r)
  {
    var r := Take(Keep(s, marks), n);
    var ix := Marked(marks);
    KeepIndexed(s, marks);
    forall i | 0 <= i < |s| && marks[i] && (|ix| <= n || i <= ix[n - 1])
      ensures s[i] in r
    {
      var k :| 0 <= k < |ix| && ix[k] == i;
      assert r[k] == s[i];
    }
  }

  /** Some matching city means at least one suggestion for a query that is not blank. */
  lemma SuggestionsNotEmpty(cities: seq<City>, query: string, i: nat)
    requires Trim(query) != "" && i < |cities| && Matches(cities[i], query)
    ensures |Suggestions(cities, query)| > 0
  {
    SuggestionsAreFirstMatches(cities, query);
  }

  /** A city matches its own name. */
  lemma MatchesOwnName(c: City)
    ensures Matches(c, c.name)
  {
    assert StartsWith(Lower(c.name), Lower(c.name));
  }

  /** A string contains only strings at most as long as itself. */
  lemma IncludesShorter(s: string, t: string)
    requires Includes(s, t)
    ensures |t| <= |s|
  {
    IncludesAt(s, t);
  }

  /** Lower-casing twice is lower-casing once. */
  lemma LowerIdempotent(s: string)
    ensures Lower(Lower(s)) == Lower(s)
  {
  }

  /** Lower-casing neither creates nor removes whitespace. */
  lemma LowerKeepsBlank(s: string)
    ensures IsBlank(Lower(s)) <==> IsBlank(s)
  {
    assert forall i :: 0 <= i < |s| ==> (IsJsWhitespace(Lower(s)[i]) <==> IsJsWhitespace(s[i]));
  }

  /** The search ignores the letter case of the query. */
  lemma SuggestionsIgnoreCase(cities: seq<City>, query: string)
    ensures Suggestions(cities, Lower(query)) == Suggestions(cities, query)
  {
    LowerIdempotent(query);
    LowerKeepsBlank(query);
    TrimEmptyIffBlank(query);
    TrimEmptyIffBlank(Lower(query));
    MatchMarksIgnoreCase(cities, query);
  }

  /** Lower-casing the query marks the same cities. */
  lemma MatchMarksIgnoreCase(cities: seq<City>, query: string)
    ensures MatchMarks(cities, Lower(query)) == MatchMarks(cities, query)
  {
    LowerIdempotent(query);
    var a := MatchMarks(cities, Lower(query));
    var b := MatchMarks(cities, query);
    forall i | 0 <= i < |cities| ensures a[i] == b[i] {
    }
  }

  /**
   * Only the emptiness test trims the query: with a leading space, a query
   * as long as the longest name and state it could match finds nothing.
   */
  lemma UntrimmedQueryMatches(c: City, query: string)
    requires |query| > |c.name| && |query| > |c.state|
    ensures !Matches(c, query)
  {
    if Includes(Lower(c.name), Lower(query)) {
      IncludesShorter(Lower(c.name), Lower(query));
    }
    if Includes(Lower(c.state), Lower(query)) {
      IncludesShorter(Lower(c.state), Lower(query));
    }
  }

  /* ---------------------------------------------------------------------- */
  /* Precipitation bands                                                    */
  /* ---------------------------------------------------------------------- */

  /** JavaScript's conversion to a number: null is 0, and undefined is NaN (none). */
  function NumericValue(v: Precip): Option<real> {
    match v
    case Amount(p) => Some(p)
    case NullAmount => Some(0.0)
    case NoAmount => None
  }

  /** `v < c` in JavaScript, which is false whenever v converts to NaN. */
  predicate LessThan(v: Precip, c: real) {
    NumericValue(v).Some? && NumericValue(v).value < c
  }

  /**
   * The band a precipitation value falls into: 0 for a number that is
   * exactly none (`=== 0`), then below 0.3, below 0.6, below 0.8, and the
   * rest. Negative values and `null` (which compares as 0 but is not
   * `=== 0`) fall in the second band; a missing value fails every
   * comparison and falls in the last.
   */
  function PrecipBand(v: Precip): (b: nat)
    ensures b <= 4
    ensures b == 0 <==> v == Amount(0.0)
    ensures v.NullAmount? ==> b == 1
    ensures v.NoAmount? ==> b == 4
  {
    if v == Amount(0.0) then 0
    else if LessThan(v, 0.3) then 1
    else if LessThan(v, 0.6) then 2
    else if LessThan(v, 0.8) then 3
    else 4
  }

  /** The prefix every card border class shares. */
  const GlowPrefix: string := "border-rainmap-"

  /** The card border class of each band. */
  const GlowClasses: seq<string> := [
    GlowPrefix + "accent/40", GlowPrefix + "mid/60", GlowPrefix + "accent2/60",
    GlowPrefix + "accent2/70", GlowPrefix + "danger/80"
  ]

  /** The glyph of each band; the last two bands share one. */
  const Glyphs: seq<string> := ["◎", "◔", "◑", "⬤", "⬤"]

  /** `getWeatherGlow(p)`. */
  function WeatherGlow(v: Precip): string {
    if v == Amount(0.0) then GlowPrefix + "accent/40"
    else if LessThan(v, 0.3) then GlowPrefix + "mid/60"
    else if LessThan(v, 0.6) then GlowPrefix + "accent2/60"
    else if LessThan(v, 0.8) then GlowPrefix + "accent2/70"
    else GlowPrefix + "danger/80"
  }

  /** The glow of the weather card; no weather shows the calm border. */
  function WeatherGlowFor(weather: Option<CityWeather>): string {
    match weather
    case None => GlowPrefix + "accent/40"
    case Some(w) => WeatherGlow(w.precipitation)
  }

  /** The precipitation glyph of the weather card. */
  function Glyph(v: Precip): string {
    if v == Amount(0.0) then "◎" else if LessThan(v, 0.3) then "◔" else if LessThan(v, 0.6) then "◑" else "⬤"
  }

  /** Glow and glyph both follow the band table. */
  lemma GlowAndGlyphFollowBands(v: Precip)
    ensures WeatherGlow(v) == GlowClasses[PrecipBand(v)]
    ensures Glyph(v) == Glyphs[PrecipBand(v)]
  {
  }

  /** Missing weather looks like no precipitation. */
  lemma NoWeatherLooksCalm()
    ensures WeatherGlowFor(None) == WeatherGlow(Amount(0.0))
  {
  }

  /**
   * A card whose reply had no precipitation shows the strongest glow and
   * the full glyph; one whose precipitation was `null` shows the light rain
   * glow and glyph.
   */
  lemma MissingPrecipitationLooks()
    ensures WeatherGlow(NoAmount) == GlowPrefix + "danger/80" && Glyph(NoAmount) == "⬤"
    ensures WeatherGlow(NullAmount) == GlowPrefix + "mid/60" && Glyph(NullAmount) == "◔"
  {
    GlowAndGlyphFollowBands(NoAmount);
    GlowAndGlyphFollowBands(NullAmount);
  }

  /** Among non-negative numbers, more precipitation never lowers the band. */
  lemma BandMonotone(p: real, q: real)
    requires 0.0 <= p <= q
    ensures PrecipBand(Amount(p)) <= PrecipBand(Amount(q))
  {
  }

  /** The glow tells the bands apart, so equal glows mean equal glyphs. */
  lemma GlowDeterminesGlyph(p: Precip, q: Precip)
    requires WeatherGlow(p) == WeatherGlow(q)
    ensures PrecipBand(p) == PrecipBand(q) && Glyph(p) == Glyph(q)
  {
    GlowAndGlyphFollowBands(p);
    GlowAndGlyphFollowBands(q);
    forall a: string, b: string | GlowPrefix + a == GlowPrefix + b
      ensures a == b
    {
      assert a == (GlowPrefix + a)[|GlowPrefix|..];
      assert b == (GlowPrefix + b)[|GlowPrefix|..];
    }
    assert "accent/40"[0] == 'a' && "mid/60"[0] == 'm' && "danger/80"[0] == 'd';
    assert "accent2/60"[8] == '6' && "accent2/70"[8] == '7';
  }
}

/**
 * The rain-map sidebar: the search box with its suggestion dropdown, and
 * the selection of a city, which updates the application's selected city
 * and, once the city's data arrives, its weather card.
 */
module RainMapSidebar {
  import opened Common
  import opened Cities
  import opened AppNavigation

  /** The sidebar's own state. */
  datatype SidebarState = SidebarState(searchQuery: string, filteredCities: seq<City>, showSuggestions: bool)

  /** The search effect, run after every render in which the query changed. */
  function SearchEffect(s: SidebarState): (t: SidebarState)
    ensures t.searchQuery == s.searchQuery
    ensures t.showSuggestions <==> Trim(s.searchQuery) != ""
    ensures t.filteredCities == if Trim(s.searchQuery) != "" then Suggestions(MexicanCities, s.searchQuery) else []
  {
    if Trim(s.searchQuery) != "" then
      s.(filteredCities := Suggestions(MexicanCities, s.searchQuery), showSuggestions := true)
    else
      s.(filteredCities := [], showSuggestions := false)
  }

  /** Setting the query, followed by the search effect when it changed. */
  function WithQuery(s: SidebarState, query: string): SidebarState {
    if query == s.searchQuery then s else SearchEffect(s.(searchQuery := query))
  }

  /** The dropdown is on screen. */
  predicate DropdownVisible(s: SidebarState) {
    s.showSuggestions && |s.filteredCities| > 0
  }

  /**
   * `handleCitySelect` as written: it sets the query to the city's name and
   * hides the suggestions, but the query change then runs the search effect,
   * which shows them again.
   */
  function SelectAsWritten(s: SidebarState, city: City): SidebarState {
    WithQuery(s.(showSuggestions := false), city.name)
  }

  /** Selecting a listed city by a name other than the current query leaves the dropdown open. */
  lemma SelectReopensDropdown(s: SidebarState, city: City)
    requires city in MexicanCities && city.name != s.searchQuery && Trim(city.name) != ""
    ensures DropdownVisible(SelectAsWritten(s, city))
  {
    var i :| 0 <= i < |MexicanCities| && MexicanCities[i] == city;
    MatchesOwnName(city);
    SuggestionsNotEmpty(MexicanCities, city.name, i);
  }

  /**
   * The selection the code evidently intends: the query becomes the city's
   * name and its suggestions are computed, but the dropdown stays closed.
   */
  function Select(s: SidebarState, city: City): SidebarState {
    WithQuery(s, city.name).(showSuggestions := false)
  }

  /** After a selection the dropdown is closed, and the query is the chosen name. */
  lemma SelectClosesDropdown(s: SidebarState, city: City)
    ensures !DropdownVisible(Select(s, city))
    ensures Select(s, city).searchQuery == city.name
  {
  }

  /** Focusing the box after a selection shows the chosen city's suggestions again. */
  lemma FocusAfterSelect(s: SidebarState, city: City)
    requires Trim(city.name) != "" && city.name != s.searchQuery
    ensures var t := Select(s, city);
      t.filteredCities == Suggestions(MexicanCities, city.name) &&
      Focused(t).showSuggestions
  {
  }

  /** `onFocus`: a non-empty query shows the suggestions. */
  function Focused(s: SidebarState): (t: SidebarState)
    ensures t.showSuggestions <==> s.showSuggestions || s.searchQuery != ""
    ensures t.searchQuery == s.searchQuery && t.filteredCities == s.filteredCities
  {
    if s.searchQuery != "" then s.(showSuggestions := true) else s
  }

  /**
   * The parsed body of a `/rainmap/city` reply: not JSON, the JSON `null`,
   * or any other JSON value, with its `precipitation` property.
   */
  datatype CityBody = NotJson | JsonNull | JsonValue(precipitation: Precip)

  /** The reply to `/rainmap/city`: unreachable, or a status with its body. */
  datatype CityReply = CityUnreachable | CityResponse(status: int, body: CityBody)

  /**
   * The weather card a reply produces, if any; `lastUpdate` is the clock
   * reading. The precipitation is taken as it comes, without any check.
   * An unreachable server, a non-OK status, a body that is not JSON
   * (`res.json()` rejects) and a `null` body (reading `precipitation`
   * throws) all end in the `catch`, with no card.
   */
  function WeatherFromReply(city: City, reply: CityReply, lastUpdate: string): (w: Option<CityWeather>)
    ensures w.Some? <==> reply.CityResponse? && 200 <= reply.status <= 299 && reply.body.JsonValue?
    ensures w.Some? ==> w.value == CityWeather(city.name, city.state, reply.body.precipitation, lastUpdate)
  {
    match reply
    case CityUnreachable => None
    case CityResponse(status, body) =>
      if 200 <= status <= 299 && body.JsonValue? then
        Some(CityWeather(city.name, city.state, body.precipitation, lastUpdate))
      else None
  }

  /** A failed city load keeps the weather card that was on screen. */
  function WeatherAfter(current: Option<CityWeather>, city: City, reply: CityReply, lastUpdate: string): (w: Option<CityWeather>)
    ensures WeatherFromReply(city, reply, lastUpdate).None? ==> w == current
    ensures WeatherFromReply(city, reply, lastUpdate).Some? ==> w == WeatherFromReply(city, reply, lastUpdate)
    ensures WeatherFromReply(city, reply, lastUpdate).Some? ==> w.Some? && w.value.city == city.name && w.value.state == city.state
  {
    match WeatherFromReply(city, reply, lastUpdate)
    case None => current
    case Some(w) => Some(w)
  }

  class Sidebar {
    var searchQuery: string
    var filteredCities: seq<City>
    var showSuggestions: bool

    function State(): SidebarState
      reads this
    {
      SidebarState(searchQuery, filteredCities, showSuggestions)
    }

    constructor()
      ensures State() == SidebarState("", [], false)
    {
      searchQuery := "";
      filteredCities := [];
      showSuggestions := false;
    }

    /** The search effect: filter the fixed list and show or hide the dropdown. */
    method RunSearchEffect()
      modifies this
      ensures State() == SearchEffect(old(State()))
    {
      if Trim(searchQuery) != "" {
        filteredCities := Take(Filter(MexicanCities, searchQuery), MaxSuggestions);
        showSuggestions := true;
      } else {
        filteredCities := [];
        showSuggestions := false;
      }
    }

    /** `onChange` of the search box. */
    method Type(query: string)
      modifies this
      ensures State() == WithQuery(old(State()), query)
    {
      if query != searchQuery {
        searchQuery := query;
        RunSearchEffect();
      }
    }

    method Focus()
      modifies this
      ensures State() == Focused(old(State()))
    {
      if searchQuery != "" {
        showSuggestions := true;
      }
    }

    /** A mouse press outside the search area hides the dropdown. */
    method ClickOutside()
      modifies this
      ensures State() == old(State()).(showSuggestions := false)
    {
      showSuggestions := false;
    }

    /**
     * The synchronous part of `handleCitySelect`, as written: the
     * application's selected city, then the query and the dropdown, with the
     * search effect that the new query triggers after the render. Everything
     * else in the application is left as it was.
     */
    method SelectCity(app: App, city: City)
      modifies this, app
      ensures State() == SelectAsWritten(old(State()), city)
      ensures app.State() == old(app.State()).(selectedCity := Some(city))
    {
      app.SetSelectedCity(city);
      showSuggestions := false;
      if city.name != searchQuery {
        searchQuery := city.name;
        RunSearchEffect();
      }
    }

    /** The settled city fetch: a successful reply replaces the weather card. */
    method CityLoaded(app: App, city: City, reply: CityReply, lastUpdate: string)
      modifies app
      ensures app.State() == old(app.State()).(weatherData := WeatherAfter(old(app.weatherData), city, reply, lastUpdate))
    {
      var w := WeatherFromReply(city, reply, lastUpdate);
      if w.Some? {
        app.SetWeatherData(w.value);
      }
    }
  }
}
