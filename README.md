# weatherstorm: the client-side logic of the storm dashboard and the rain map

This project models, in Dafny, the logic inside the weatherstorm web client
(a React application that shows tropical storms over Mexico and a live rain
map), and proves properties of that model. Network responses and the clock
are parameters. The following logic is modelled: normalising raw storm
records, navigating between views, the dashboard calendar and image
carousels, the city search, and building the map data.

| file | module | what it models |
|---|---|---|
| `common.dfy` | `Common` | Option/Result, `String(n)`, `parseInt` on digits, `padStart`, `substring`, `startsWith`, `includes`, `toLowerCase`, `trim` |
| `js_values.dfy` | `JsValues` | JSON values with JavaScript truthiness, `typeof`, property reads, `Object.keys` and template-literal text |
| `storm_data.dfy` | `StormData` | `processStormData`, the storm image URL, and the two storm fetches once their response has settled |
| `app_navigation.dfy` | `AppNavigation` | the root component's state (class `App`), `navigateTo`, `navigateToHome`, the date change and the two effects, which emit an abstract fetch request |
| `calendar_dates.dfy` | `CalendarDates` | `new Date(y, m, d)` day arithmetic (carrying, legacy years 0-99), `getDay`, `parseDateString`, `formatDateString`, the DD/MM/YYYY label |
| `dashboard_sidebar.dfy` | `DashboardSidebar` | the severe and warning counters, and the `Calendar` (class) with its grid, month navigation and day clicks |
| `dashboard_content.dfy` | `DashboardContent` | `ImageCarousel` (class `Carousel`), the map-list loads of `GeneralMapCarousel` and `StormMapCarousel` (class `MapList`), `getDangerLevelColor`, and the JSON popup (class `Popup`) |
| `rainmap_sidebar.dfy` | `Cities`, `RainMapSidebar` | `MEXICAN_CITIES`, the suggestion filter, `getWeatherGlow` and the glyph bands, and the sidebar state (class `Sidebar`) |
| `map_component.dfy` | `MapComponent` | the GeoJSON of the rain samples and of the city, the colour ramps, and the map's add-once/`setData` source registry (class `RainMap`) |

Where the code loops or mutates, the model does too:
- `ProcessStormData` walks the entries with a `while` loop, proved against the function `NormaliseAll`.
- `DashboardSidebar.FillDays` fills the calendar grid in two loops, proved against `Layout`.
- The React state holders are classes whose methods state their new state. These are `App`, `Calendar`, `Carousel`, `MapList`, `Popup`, `Sidebar` and `RainMap`.

Some behaviour of the code that a reader might not expect, all of it modelled as written:
- `navigateToHome` keeps `latestDate` and `weatherData` (src/App.js:100-106).
- Entering the map clears neither `selectedCity` nor `weatherData` (src/App.js:87-91).
- The heatmap features are neither filtered nor clamped, and a feature's intensity equals its precipitation (src/components/map-component/MapComponent.jsx:97-99).
- Records carry both the Spanish and the English field names. `status` is only ever "watch" or "active", never "warning" (src/App.js:50-51), so the warning counter is always 0 for normalised lists.

## Model

| member | source | states |
|---|---|---|
| Common.NatToString | src/components/dashboard/DashboardSidebar.jsx:25-26 | `String(n)` of a natural number is a non-empty digit string, with a leading 0 only for 0 and a single digit exactly below 10 |
| Common.IntToString | src/App.js:27 | `String(n)` is the natural text for n >= 0, and for negative n a '-' followed by the text of -n |
| Common.ParseNatToString | src/components/dashboard/DashboardSidebar.jsx:17-19 | reading back the decimal text of n gives n |
| Common.NatToStringParse | src/components/dashboard/DashboardSidebar.jsx:24-27 | a digit string without a leading zero is reproduced by formatting its value |
| Common.NatToStringInjective | src/components/dashboard/DashboardSidebar.jsx:24 | different numbers have different decimal texts |
| Common.PadStart2 | src/components/dashboard/DashboardSidebar.jsx:25-26 | `padStart(2, '0')` gives at least two characters, ends with the input and fills only with '0' |
| Common.Pad2Digits | src/components/dashboard/DashboardSidebar.jsx:25-26 | below 100 the padded month or day has exactly two digits, and they read back as the number |
| Common.Pad2Parse | src/components/dashboard/DashboardSidebar.jsx:25-26 | every two-digit string is the padded text of its own value |
| Common.JsSubstring | src/components/dashboard/DashboardSidebar.jsx:17-19 | `substring(a, b)` with in-range ends is the slice s[a..b], and is never longer than s |
| Common.IncludesAt | src/components/rainmap/RainMapSideBar.jsx:27-28 | `includes` holds exactly when the needle occurs at some position |
| Common.LowerChar | src/components/rainmap/RainMapSideBar.jsx:27-28 | `toLowerCase` maps each of A-Z and À-Þ (except ×) to the small letter 0x20 above it, and leaves every other character unchanged |
| Common.Lower | src/components/rainmap/RainMapSideBar.jsx:27-28 | lower-casing keeps the length and lower-cases character by character |
| Common.TrimStart | src/components/rainmap/RainMapSideBar.jsx:24 | the result is a suffix that does not start with whitespace, and everything removed was whitespace |
| Common.TrimEnd | src/components/rainmap/RainMapSideBar.jsx:24 | the result is a prefix that does not end with whitespace, and everything removed was whitespace |
| Common.TrimEmptyIffBlank | src/components/rainmap/RainMapSideBar.jsx:24 | `trim()` is empty exactly when every character is whitespace |
| JsValues.Or | src/App.js:35-38 | `a \|\| b` is truthy iff either operand is; it is `a` when `a` is truthy and `b` otherwise |
| JsValues.Entries | src/App.js:13-14 | `Object.keys` enumeration: an object's properties in order, an array's or string's elements under their index keys, nothing for booleans and numbers |
| StormData.Category | src/App.js:17-23 | the category is always 1, 2 or 3: 3 iff the last storm type is "HU", 2 iff it is "TS", 1 otherwise (including "TD", an empty, missing or non-array type list) |
| StormData.StormImageUrl | src/App.js:25-27 | the per-storm image URL: the date's first map versioned by the date, or the latest map versioned by the clock; read back by the three lemmas below |
| StormData.DatedImageUrlReadsBack | src/App.js:25-26 | a dated URL is `/api/date/`, the date, `/maps/`, the storm id and `/0?v=` with the date again: each part is cut back out at its offset |
| StormData.LatestImageUrlReadsBack | src/App.js:27 | an undated URL is `/api/maps/`, the storm id and `?v=` with the clock reading: each part is cut back out at its offset |
| StormData.DatedAndLatestImageUrlsDiffer | src/App.js:25-27 | no dated URL equals an undated one, whatever the ids and clock readings |
| StormData.OrZero | src/App.js:35-38 | wind and pressure keep a truthy value and become 0 otherwise |
| StormData.Normalise | src/App.js:15-53 | the record pushed for one qualifying raw storm; NormaliseFields states each of its fields |
| StormData.NormaliseFields | src/App.js:29-53 | a record has the truthy id, one category under both names, status = estado = "watch" iff invest is truthy else "active", wind and pressure defaulting to 0, the bilingual basin labels (unknown basins passed through) and the image URL |
| StormData.NormaliseAll | src/App.js:13-55 | the normaliser produces at most one record per entry |
| StormData.QualifyingIndices | src/App.js:15 | exactly the positions of the entries that are objects with a truthy id, in increasing order |
| StormData.NormaliseAllIndexed | src/App.js:13-55 | the output has one record per qualifying entry, in key order, and nothing else |
| StormData.NormaliseAllRecords | src/App.js:29-53 | every produced record has a truthy id, categoria = category in {1, 2, 3} and status = estado in {"watch", "active"} |
| StormData.NormaliseAllStep | src/App.js:13-54 | handling one more entry appends that entry's record exactly when it qualifies |
| StormData.NormaliseStorm | src/App.js:15-53 | the step-by-step category and record construction of the loop body equals the normalised record |
| StormData.CollectEntry | src/App.js:14-54 | one turn of the `forEach` extends the result to the next prefix of the entries |
| StormData.ProcessStormData | src/App.js:10-60 | the loop returns the normalised records of all entries; null data, or a null entry, gives the TypeError message |
| StormData.FindTormentas | src/App.js:130-132 | the position found is the first `tormentas*` key holding an object; none is found only when no such key exists |
| StormData.ByDateOutcome | src/App.js:109-157 | 404 fails with the not-found message, any other non-OK status with the server message, a network failure with its own message |
| StormData.LatestOutcome | src/App.js:160-185 | a non-OK status fails with the latest-load message, a network failure with its own message |
| StormData.FetchStormsByDate | src/App.js:109-157 | the by-date fetch's status checks, key search and normalisation give the by-date outcome |
| StormData.FetchLatestStorms | src/App.js:160-185 | the latest fetch's status check and normalisation give the latest outcome |
| StormData.NotFoundNamesDate | src/App.js:116-120 | the 404 message contains the date and differs from the generic server message |
| StormData.ByDateWithoutStorms | src/App.js:141-143 | a payload without a usable `tormentas*` object, or with an empty one, loads an empty storm list |
| StormData.ByDateLoadsTormentas | src/App.js:134-147 | a successful by-date load holds exactly the normalised records of the first `tormentas*` object |
| AppNavigation.Settle | src/App.js:150-156 | a settled fetch stops loading; failure empties the storm list and sets the message; success sets the storms and keeps the error |
| AppNavigation.AfterRender | src/App.js:73-92 | the two effects after a render, in declaration order, each run only when its dependency changed; the transition lemmas below state their results |
| AppNavigation.Navigate | src/App.js:95-97 | `navigateTo(view)` followed by its effects; EnterDashboard, EnterMap, EnterHome and NavigateCoherent state the result |
| AppNavigation.GoHome | src/App.js:100-106 | `navigateToHome()` followed by its effects; GoHomeClears, GoHomeIdempotent and GoHomeCoherent state the result |
| AppNavigation.ChangeDate | src/App.js:73-78 | the calendar's date change followed by the date effect; ChangeDateInDashboard and ChangeDateCoherent state the result |
| AppNavigation.EnterDashboard | src/App.js:73-92 | entering the dashboard clears the selected storm and requests exactly one fetch: by date when a date is set, the latest otherwise |
| AppNavigation.EnterMap | src/App.js:87-91 | entering the map clears the date, the storm list and the error, and requests nothing |
| AppNavigation.EnterHome | src/App.js:95-97 | `navigateTo("home")` changes only the view |
| AppNavigation.GoHomeClears | src/App.js:100-106 | going home clears the selected storm, city, storm list and error, requests nothing, and keeps the date, weather and loading flag |
| AppNavigation.GoHomeIdempotent | src/App.js:100-106 | going home twice is going home once |
| AppNavigation.ChangeDateInDashboard | src/App.js:73-78 | a new date in the dashboard clears the selected storm and requests that date's fetch |
| AppNavigation.ReturnToDashboardKeepsDate | src/App.js:81-86 | after a trip home the dashboard fetches the kept date again, with the selected storm cleared |
| AppNavigation.NavigateCoherent | src/App.js:73-97 | every navigation requests at most one fetch, only in the dashboard, matching the date state, with loading on and error cleared |
| AppNavigation.GoHomeCoherent | src/App.js:100-106 | going home keeps the same request discipline |
| AppNavigation.ChangeDateCoherent | src/App.js:73-78 | a date change keeps the same request discipline |
| AppNavigation.TransitionsKeepMapWithoutDate | src/App.js:87-88 | no transition leaves a date set while the map is shown |
| AppNavigation.App.constructor | src/App.js:63-70 | the initial state: home view, nothing selected, no storms, not loading, no error, no date |
| AppNavigation.App.RunEffects | src/App.js:73-92 | the two effects, in order, update the state and emit the requests of the reference transition |
| AppNavigation.App.NavigateTo | src/App.js:95-97 | `navigateTo` plus the effects it triggers |
| AppNavigation.App.NavigateToHome | src/App.js:100-106 | `navigateToHome` plus the effects it triggers |
| AppNavigation.App.SetLatestDate | src/App.js:217 | the calendar's date change plus the effect it triggers |
| AppNavigation.App.SetMainStormView | src/App.js:212 | selecting a storm changes only the selected storm |
| AppNavigation.App.SetSelectedCity | src/App.js:199 | selecting a city changes only the selected city |
| AppNavigation.App.SetWeatherData | src/App.js:201 | a new weather card changes only the weather card |
| AppNavigation.App.CompleteByDate | src/App.js:109-157 | the settled by-date fetch applies its outcome |
| AppNavigation.App.CompleteLatest | src/App.js:160-185 | the settled latest fetch applies its outcome |
| AppNavigation.App.ApplyOutcome | src/App.js:150-156 | the try/catch/finally updates of a settled fetch |
| AppNavigation.DashboardRoundTrip | src/App.js:81-106 | dashboard, home, dashboard without a date: each visit requests the latest storms, and the storm selected on the first visit is gone |
| CalendarDates.DaysInMonth | src/components/dashboard/DashboardSidebar.jsx:38 | a month has 28 to 31 days |
| CalendarDates.MonthLengths | src/components/dashboard/DashboardSidebar.jsx:38 | February has 29 days iff the year is a Gregorian leap year and 28 otherwise; April, June, September, November 30; the rest 31 |
| CalendarDates.NextMonth | src/components/dashboard/DashboardSidebar.jsx:80 | the following month index is in 0..11 |
| CalendarDates.PrevMonth | src/components/dashboard/DashboardSidebar.jsx:71 | the preceding month index is in 0..11, and the month after it is the starting month |
| CalendarDates.YearLength | src/components/dashboard/DashboardSidebar.jsx:38 | a year has 366 days iff it is a leap year, else 365 |
| CalendarDates.MonthStep | src/components/dashboard/DashboardSidebar.jsx:38 | the first of the next month lies one month length after the first of this month |
| CalendarDates.NormaliseDay | src/components/dashboard/DashboardSidebar.jsx:20 | carrying a day count always gives a real date, and an in-range day is kept |
| CalendarDates.NormaliseDayNumber | src/components/dashboard/DashboardSidebar.jsx:20 | the carried date lies exactly d - 1 days after the first of the month |
| CalendarDates.LegacyYear | src/components/dashboard/DashboardSidebar.jsx:20 | `new Date` maps years 0..99 to 1900..1999 and keeps the others |
| CalendarDates.NewDate | src/components/dashboard/DashboardSidebar.jsx:20 | `new Date(y, m, d)` is always a real date |
| CalendarDates.NewDateDayNumber | src/components/dashboard/DashboardSidebar.jsx:20 | `new Date(y, m, d)` lies d - 1 days after the first of month m (month index carried into the year) |
| CalendarDates.NewDateOfValid | src/components/dashboard/DashboardSidebar.jsx:20 | arguments naming a real date outside years 0..99 give that date |
| CalendarDates.Weekday | src/components/dashboard/DashboardSidebar.jsx:37 | `getDay()` is in 0..6 |
| CalendarDates.EpochIsThursday | src/components/dashboard/DashboardSidebar.jsx:37 | 1 January 1970 is a Thursday (4), anchoring Sunday = 0 |
| CalendarDates.NextMonthWeekday | src/components/dashboard/DashboardSidebar.jsx:37 | the next month's first weekday is this month's shifted by its length, mod 7 |
| CalendarDates.LastDayOfMonth | src/components/dashboard/DashboardSidebar.jsx:38 | `new Date(y, m + 1, 0)` is the last day of month m, so its date is the month length |
| CalendarDates.NewDateInMonth | src/components/dashboard/DashboardSidebar.jsx:44 | within the month, `new Date(y, m, d)` is day d of that month |
| CalendarDates.NewDatePrevMonth | src/components/dashboard/DashboardSidebar.jsx:71 | `new Date(y, m - 1, 1)` is the first of the previous month, rolling back from January to December |
| CalendarDates.NewDateNextMonth | src/components/dashboard/DashboardSidebar.jsx:80 | `new Date(y, m + 1, 1)` is the first of the next month, rolling over from December to January |
| CalendarDates.DigitRun | src/components/dashboard/DashboardSidebar.jsx:17-19 | `parseInt` reads the longest run of leading digits |
| CalendarDates.ParseIntDigits | src/components/dashboard/DashboardSidebar.jsx:17-19 | `parseInt` of a digit string is its decimal value |
| CalendarDates.ParseSlice | src/components/dashboard/DashboardSidebar.jsx:17-19 | `parseInt` of a substring of digits is the value of that slice |
| CalendarDates.ParseDateString | src/components/dashboard/DashboardSidebar.jsx:13-21 | null exactly for a missing value or a length other than 8; a parsed date is always a real date |
| CalendarDates.DateOfParts | src/components/dashboard/DashboardSidebar.jsx:17-20 | a date built from parsed parts is a real date |
| CalendarDates.FormatDateString | src/components/dashboard/DashboardSidebar.jsx:23-28 | `formatDateString`: the year, then the 1-based month and the day padded to two digits; FormatShape, ParseFormat and FormatParse state its shape and its round trips with parsing |
| CalendarDates.FormatShape | src/components/dashboard/DashboardSidebar.jsx:23-28 | a date with a four-digit year formats as 8 digits: the year, then the padded 1-based month and the padded day |
| CalendarDates.ParseEightDigits | src/components/dashboard/DashboardSidebar.jsx:13-21 | an 8-digit string parses to the date of characters 0-3, 4-5 minus 1, and 6-7 |
| CalendarDates.ParseFormat | src/components/dashboard/DashboardSidebar.jsx:13-28 | parsing the formatted date of a four-digit year gives the date back |
| CalendarDates.ParseRealDate | src/components/dashboard/DashboardSidebar.jsx:13-21 | an 8-digit string that names a real date parses to exactly that date |
| CalendarDates.FormatOfDigits | src/components/dashboard/DashboardSidebar.jsx:23-28 | formatting the date named by four year digits and two month and day digits gives those digits back |
| CalendarDates.FormatParse | src/components/dashboard/DashboardSidebar.jsx:13-28 | for every real YYYYMMDD date with a year in 1000..9999, formatting the parsed date gives the string back |
| CalendarDates.FormatOfEightDigits | src/components/dashboard/DashboardSidebar.jsx:23-28 | formatting the date named by an 8-digit string without a leading zero gives the string back |
| CalendarDates.February30 | src/components/dashboard/DashboardSidebar.jsx:20 | `new Date(2025, 1, 30)` is 2 March 2025 |
| CalendarDates.OutOfRangeDayCarries | src/components/dashboard/DashboardSidebar.jsx:13-28 | a day past the month's end carries forward: "20250230" parses to 2 March and formats as "20250302", so the round trip breaks |
| CalendarDates.March2Format | src/components/dashboard/DashboardSidebar.jsx:23-27 | 2 March 2025 formats as "20250302" |
| CalendarDates.DateLabel | src/components/dashboard/DashboardContent.jsx:657 | the label of an 8-character date is 10 characters with '/' at positions 2 and 5 |
| CalendarDates.DateLabelReadsBack | src/components/dashboard/DashboardContent.jsx:657 | the DD/MM/YYYY label keeps every character: YYYYMMDD reads back from it |
| DashboardSidebar.SevereCount | src/components/dashboard/DashboardSidebar.jsx:104 | the severe count is at most the list length, and 0 iff no storm has `categoria \|\| category \|\| 0` >= 3 |
| DashboardSidebar.WarningCount | src/components/dashboard/DashboardSidebar.jsx:105 | the warning count is at most the list length, and 0 iff no storm has status or estado "warning" |
| DashboardSidebar.IsSevere | src/components/dashboard/DashboardSidebar.jsx:104 | a storm is severe when `categoria \|\| category \|\| 0` is at least 3; SevereCount and SevereCountOfProcessed count them |
| DashboardSidebar.IsWarning | src/components/dashboard/DashboardSidebar.jsx:105 | a storm is a warning when its status or estado is "warning"; WarningCount and WarningCountOfProcessed count them |
| DashboardSidebar.SevereCountOfProcessed | src/components/dashboard/DashboardSidebar.jsx:104 | over normalised lists, the severe count is the number of qualifying entries whose last storm type is "HU" |
| DashboardSidebar.WarningCountOfProcessed | src/components/dashboard/DashboardSidebar.jsx:105 | over normalised lists, the warning count is always 0 |
| DashboardSidebar.FirstColumn | src/components/dashboard/DashboardSidebar.jsx:37 | the column of the 1st is in 0..6 |
| DashboardSidebar.MonthLength | src/components/dashboard/DashboardSidebar.jsx:38 | the number of day buttons is 28 to 31 |
| DashboardSidebar.Layout | src/components/dashboard/DashboardSidebar.jsx:39-65 | `first` blanks followed by the buttons of days 1..n, in order |
| DashboardSidebar.Grid | src/components/dashboard/DashboardSidebar.jsx:35-65 | the `days` array of the displayed month, empty for an Invalid Date; GridLayout and GridSelection state its cells |
| DashboardSidebar.GridLayout | src/components/dashboard/DashboardSidebar.jsx:35-65 | the grid is the weekday of the 1st (Sunday = 0) in blanks, then one button per day numbered from 1, as many as the Gregorian month length |
| DashboardSidebar.GridSelection | src/components/dashboard/DashboardSidebar.jsx:43-47 | at most one button is selected; one is iff the selected date lies in the shown month, and it is that date's button |
| DashboardSidebar.InitialDisplay | src/components/dashboard/DashboardSidebar.jsx:31-32 | the first display is the parsed active date, today without one, and an Invalid Date exactly when the parse gives one |
| DashboardSidebar.PrevDisplay | src/components/dashboard/DashboardSidebar.jsx:71 | a real date moves to a real date, and an Invalid Date stays invalid |
| DashboardSidebar.NextDisplay | src/components/dashboard/DashboardSidebar.jsx:80 | a real date moves to a real date, and an Invalid Date stays invalid |
| DashboardSidebar.PrevDisplayMonth | src/components/dashboard/DashboardSidebar.jsx:71 | the previous button shows the 1st of the previous month, rolling the year back from January |
| DashboardSidebar.NextDisplayMonth | src/components/dashboard/DashboardSidebar.jsx:80 | the next button shows the 1st of the next month, rolling the year over from December |
| DashboardSidebar.PrevNextRoundTrip | src/components/dashboard/DashboardSidebar.jsx:71-80 | next after previous, and previous after next, return to the 1st of the shown month |
| DashboardSidebar.ClickSelectsDay | src/components/dashboard/DashboardSidebar.jsx:52-56 | for a shown year in 1000..9999, a clicked day's reported string, once it is the active date, selects exactly that button in the grid the click moved to (outside those years the string is not 8 characters long and `parseDateString` returns null) |
| DashboardSidebar.FillDays | src/components/dashboard/DashboardSidebar.jsx:39-65 | the two `for` loops build exactly the layout: the blanks, then the day buttons with their selection marks |
| DashboardSidebar.Calendar.constructor | src/components/dashboard/DashboardSidebar.jsx:31-32 | the first display is the initial display of the active date |
| DashboardSidebar.Calendar.Render | src/components/dashboard/DashboardSidebar.jsx:35-65 | a render builds the grid of the displayed month with the active date marked; an Invalid Date gives no cells |
| DashboardSidebar.Calendar.ShowPrevMonth | src/components/dashboard/DashboardSidebar.jsx:71 | the display moves to the previous-month display |
| DashboardSidebar.Calendar.ShowNextMonth | src/components/dashboard/DashboardSidebar.jsx:80 | the display moves to the next-month display |
| DashboardSidebar.Calendar.ClickDay | src/components/dashboard/DashboardSidebar.jsx:52-56 | a click reports the formatted date of the day and displays that date |
| DashboardContent.JsRem | src/components/dashboard/DashboardContent.jsx:54 | JavaScript `%` on 0 <= a < 2n subtracts n at most once |
| DashboardContent.NextIndex | src/components/dashboard/DashboardContent.jsx:53-56 | the next index stays in [0, n) and wraps from the last image to the first |
| DashboardContent.PrevIndex | src/components/dashboard/DashboardContent.jsx:58-61 | the previous index stays in [0, n) and wraps from the first image to the last |
| DashboardContent.NextPrevInverse | src/components/dashboard/DashboardContent.jsx:53-61 | previous undoes next, and next undoes previous |
| DashboardContent.NextTimes | src/components/dashboard/DashboardContent.jsx:53-56 | any number of next presses keeps the index in [0, n) |
| DashboardContent.NextTimesAdvance | src/components/dashboard/DashboardContent.jsx:53-56 | k <= n presses advance the index by k, wrapping once past the end |
| DashboardContent.FullCycle | src/components/dashboard/DashboardContent.jsx:53-56 | n presses of next return to the starting image |
| DashboardContent.VisibilityOf | src/components/dashboard/DashboardContent.jsx:68-169 | empty message iff n = 0, buttons iff n > 1, counter iff n > 0, thumbnails iff 1 < n <= 10, dots iff n > 10; the two strips are never both shown |
| DashboardContent.Highlights | src/components/dashboard/DashboardContent.jsx:136-161 | exactly the thumbnail or dot at the current index is highlighted |
| DashboardContent.Carousel.constructor | src/components/dashboard/DashboardContent.jsx:50-51 | the carousel starts at index 0, loading |
| DashboardContent.Carousel.Next | src/components/dashboard/DashboardContent.jsx:53-56 | next moves to the next index and sets loading; the images stay |
| DashboardContent.Carousel.Prev | src/components/dashboard/DashboardContent.jsx:58-61 | previous moves to the previous index and sets loading; the images stay |
| DashboardContent.Carousel.ImagesChanged | src/components/dashboard/DashboardContent.jsx:63-66 | a new image list resets the index to 0 and sets loading |
| DashboardContent.Carousel.Select | src/components/dashboard/DashboardContent.jsx:132-134 | a thumbnail or dot click sets the index to it and sets loading |
| DashboardContent.Carousel.ImageSettled | src/components/dashboard/DashboardContent.jsx:91-95 | image load and image error both clear loading and change nothing else |
| DashboardContent.FirstNullish | src/components/dashboard/DashboardContent.jsx:196 | finds the first null or undefined list entry, and finds none exactly when there is none |
| DashboardContent.ImageUrls | src/components/dashboard/DashboardContent.jsx:196-198 | one URL per list entry, in order, built from each entry's `index` |
| DashboardContent.ImageUrlIndex | src/components/dashboard/DashboardContent.jsx:196-198 | the index text can be cut back out of a URL |
| DashboardContent.ImageUrlsDistinct | src/components/dashboard/DashboardContent.jsx:196-198 | entries with different index texts get different URLs |
| DashboardContent.GeneralLoad | src/components/dashboard/DashboardContent.jsx:189-204 | the general list gives its dated URLs iff the body has no null entry; non-OK gives the general error; a failed request gives its own message; a null or undefined entry gives the TypeError of reading `index` from the first such entry |
| DashboardContent.StormListLoad | src/components/dashboard/DashboardContent.jsx:249-260 | the storm list gives its dated per-storm URLs iff the body has no null entry; non-OK gives the storm error naming the id; a failed request gives its own message; a null or undefined entry gives the TypeError of reading `index` from the first such entry |
| DashboardContent.LatestStormLoad | src/components/dashboard/DashboardContent.jsx:262-269 | without a date there is exactly one URL, the clock-versioned latest map, iff the check succeeds; non-OK gives the not-found error; a failed check gives its own message |
| DashboardContent.LatestStormUrl | src/components/dashboard/DashboardContent.jsx:262-269 | the storm's latest-map URL with the clock as cache-buster; LatestStormLoad states when it is the one image |
| DashboardContent.MapList.constructor | src/components/dashboard/DashboardContent.jsx:176-178 | no images, loading, no error |
| DashboardContent.MapList.Settle | src/components/dashboard/DashboardContent.jsx:200-207 | a settled load stops loading and holds either the URLs or the error with no images |
| DashboardContent.MapList.LoadGeneral | src/components/dashboard/DashboardContent.jsx:180-211 | without a date nothing changes; with one the state is the settled general load |
| DashboardContent.MapList.LoadStorm | src/components/dashboard/DashboardContent.jsx:239-281 | without a storm nothing changes; with one the state is the dated list load, or the latest-map load without a date |
| DashboardContent.DangerLevelColor | src/components/dashboard/DashboardContent.jsx:392-396 | danger iff category >= 4, the second accent iff 2..3, the accent iff <= 1 |
| DashboardContent.CardCategory | src/components/dashboard/DashboardContent.jsx:525 | the category a card is coloured by is never 0 |
| DashboardContent.NormalisedNeverDanger | src/components/dashboard/DashboardContent.jsx:525-526 | no card of a normalised storm list is coloured as danger |
| DashboardContent.HistoricJsonUrl | src/components/dashboard/DashboardContent.jsx:411-418 | the popup's URL is the date's `/storms` document, extended by `/{id}` for a storm |
| DashboardContent.GeneralJsonUrl | src/components/dashboard/DashboardContent.jsx:417 | the date's `/storms` document; HistoricJsonUrlId shows a storm's URL extends it |
| DashboardContent.HistoricTitle | src/components/dashboard/DashboardContent.jsx:411-417 | the popup's title: "Datos JSON: " with the storm's name or id, or the general view with its date |
| DashboardContent.HistoricJsonUrlId | src/components/dashboard/DashboardContent.jsx:414-417 | a storm's URL starts with the general one, reads back the id, and differs from it |
| DashboardContent.NotOkMessage | src/components/dashboard/DashboardContent.jsx:423-424 | a null error body gives the TypeError of reading `detail`; a truthy `detail` gives its text; a body without a truthy `detail` gives `Error {status}` |
| DashboardContent.Popup.constructor | src/components/dashboard/DashboardContent.jsx:386-390 | hidden, titled "Datos JSON", no content, not loading, no error |
| DashboardContent.Popup.Close | src/components/dashboard/DashboardContent.jsx:398-403 | hidden, no content, no error, not loading; the title stays |
| DashboardContent.Popup.BeginHistoric | src/components/dashboard/DashboardContent.jsx:405-418 | the popup opens loading with no error or content, titled after the storm or the date, and the URL is chosen |
| DashboardContent.Popup.FinishHistoric | src/components/dashboard/DashboardContent.jsx:420-434 | loading stops; the JSON becomes the content, or the failure message becomes the error |
| DashboardContent.Popup.HistoricJsonClick | src/components/dashboard/DashboardContent.jsx:405-435 | the click ends with the popup open and not loading, holding the JSON iff the response was OK and an error otherwise |
| Cities.MexicanCitiesUnique | src/components/rainmap/RainMapSideBar.jsx:15 | the list has 32 cities with no name twice |
| Cities.QuickList | src/components/rainmap/RainMapSideBar.jsx:197 | the quick list is the first 8 cities, with unique names |
| Cities.Filter | src/components/rainmap/RainMapSideBar.jsx:25-28 | the filter never lengthens the list |
| Cities.Matches | src/components/rainmap/RainMapSideBar.jsx:25-28 | a city matches when its lower-cased name or state contains the lower-cased query; MatchIndices, MatchesOwnName and SuggestionsIgnoreCase state its consequences |
| Cities.MatchIndices | src/components/rainmap/RainMapSideBar.jsx:25-28 | exactly the positions of the matching cities, in increasing order |
| Cities.FilterIndexed | src/components/rainmap/RainMapSideBar.jsx:25-28 | the filter keeps exactly the cities at the matching positions, in order |
| Cities.Take | src/components/rainmap/RainMapSideBar.jsx:29 | `slice(0, n)` is the prefix of length min(n, length) |
| Cities.Suggestions | src/components/rainmap/RainMapSideBar.jsx:23-35 | at most 8 suggestions, and none for a query blank after trimming |
| Cities.SuggestionsAreFirstMatches | src/components/rainmap/RainMapSideBar.jsx:24-29 | for a query that is not blank after trimming, the suggestions are the cities at the first (up to 8) matching positions: each matches, list order is kept, and no matching city before the last suggestion is missing (a blank query gives none) |
| Cities.SuggestionsNotEmpty | src/components/rainmap/RainMapSideBar.jsx:24-29 | for a query that is not blank after trimming, a matching city means at least one suggestion (a blank query such as " " gives none, even though names with a space match it) |
| Cities.MatchesOwnName | src/components/rainmap/RainMapSideBar.jsx:27 | every city matches its own name |
| Cities.SuggestionsIgnoreCase | src/components/rainmap/RainMapSideBar.jsx:27-28 | lower-casing the query does not change the suggestions |
| Cities.UntrimmedQueryMatches | src/components/rainmap/RainMapSideBar.jsx:24-28 | the query is matched untrimmed: a query longer than a city's name and state cannot match it |
| Cities.PrecipBand | src/components/rainmap/RainMapSideBar.jsx:77-83 | five bands under JavaScript's `===` and `<`: band 0 exactly for the number 0, `null` in band 1 (it compares as 0 but is not `=== 0`), a missing value in band 4 (NaN fails every comparison) |
| Cities.GlowAndGlyphFollowBands | src/components/rainmap/RainMapSideBar.jsx:77-149 | the glow and the glyph are the band's entries: accent/40, mid/60, accent2/60, accent2/70, danger/80 and ◎, ◔, ◑, ⬤, ⬤ |
| Cities.WeatherGlow | src/components/rainmap/RainMapSideBar.jsx:77-83 | `getWeatherGlow(p)`; GlowAndGlyphFollowBands states it is the band's entry |
| Cities.WeatherGlowFor | src/components/rainmap/RainMapSideBar.jsx:85-87 | the card's glow, the calm border without weather; NoWeatherLooksCalm states it |
| Cities.Glyph | src/components/rainmap/RainMapSideBar.jsx:143-149 | the card's glyph; GlowAndGlyphFollowBands states it is the band's entry |
| Cities.MissingPrecipitationLooks | src/components/rainmap/RainMapSideBar.jsx:77-83 | a missing precipitation shows danger/80 and ⬤; a `null` one shows mid/60 and ◔ |
| Cities.NoWeatherLooksCalm | src/components/rainmap/RainMapSideBar.jsx:85-87 | no weather data shows the glow of zero precipitation |
| Cities.BandMonotone | src/components/rainmap/RainMapSideBar.jsx:77-83 | for non-negative numbers, more precipitation never lowers the band |
| Cities.GlowDeterminesGlyph | src/components/rainmap/RainMapSideBar.jsx:77-149 | equal glows mean the same band and the same glyph |
| RainMapSidebar.SearchEffect | src/components/rainmap/RainMapSideBar.jsx:23-36 | the effect keeps the query, shows suggestions iff the trimmed query is not empty, and lists the first (up to 8) matching cities for such a query and none otherwise |
| RainMapSidebar.SelectAsWritten | src/components/rainmap/RainMapSideBar.jsx:48-51 | `handleCitySelect` as written: hide the suggestions, set the query, then the search effect the new query triggers; SelectReopensDropdown states the outcome |
| RainMapSidebar.Select | src/components/rainmap/RainMapSideBar.jsx:48-51 | the evidently intended selection, with the dropdown closed at the end; SelectClosesDropdown states the outcome |
| RainMapSidebar.SelectReopensDropdown | src/components/rainmap/RainMapSideBar.jsx:48-51 | as written, selecting a listed city by a new name leaves the dropdown visible |
| RainMapSidebar.SelectClosesDropdown | src/components/rainmap/RainMapSideBar.jsx:48-51 | the intended selection closes the dropdown and sets the query to the city's name |
| RainMapSidebar.FocusAfterSelect | src/components/rainmap/RainMapSideBar.jsx:172 | after a selection the suggestions are those of the chosen name, and focusing shows them |
| RainMapSidebar.Focused | src/components/rainmap/RainMapSideBar.jsx:172 | focus shows the suggestions iff they were shown or the query is not empty, and leaves the query and the list as they are |
| RainMapSidebar.WeatherFromReply | src/components/rainmap/RainMapSideBar.jsx:55-73 | a weather card exists iff the reply is OK and its body is JSON other than `null`; it has the chosen city's name and state and the body's precipitation as it comes, missing or `null` included |
| RainMapSidebar.WeatherAfter | src/components/rainmap/RainMapSideBar.jsx:55-72 | a failed city load keeps the current card; a successful one shows exactly the card `WeatherFromReply` builds, for the chosen city |
| RainMapSidebar.Sidebar.constructor | src/components/rainmap/RainMapSideBar.jsx:17-19 | empty query, no suggestions, dropdown hidden |
| RainMapSidebar.Sidebar.RunSearchEffect | src/components/rainmap/RainMapSideBar.jsx:23-36 | the effect's filter and dropdown update |
| RainMapSidebar.Sidebar.Type | src/components/rainmap/RainMapSideBar.jsx:171 | typing sets the query, and the search effect runs when it changed |
| RainMapSidebar.Sidebar.Focus | src/components/rainmap/RainMapSideBar.jsx:172 | focusing with a non-empty query shows the suggestions |
| RainMapSidebar.Sidebar.ClickOutside | src/components/rainmap/RainMapSideBar.jsx:38-46 | a press outside hides the dropdown and changes nothing else |
| RainMapSidebar.Sidebar.SelectCity | src/components/rainmap/RainMapSideBar.jsx:48-51 | a selection sets the application's city and changes nothing else in it; the sidebar ends as `handleCitySelect` leaves it as written, reopened by the search effect when the name differs from the query (see Findings) |
| RainMapSidebar.Sidebar.CityLoaded | src/components/rainmap/RainMapSideBar.jsx:55-72 | the settled city fetch replaces the weather card on success and keeps it on failure |
| MapComponent.RainFeatures | src/components/map-component/MapComponent.jsx:95-103 | one feature per sample, in order, feature i built from sample i |
| MapComponent.RainFeatureProperties | src/components/map-component/MapComponent.jsx:97-101 | a feature's id is its position, and its intensity and precipitation are both the sample's precipitation |
| MapComponent.RainFeatureReadsBack | src/components/map-component/MapComponent.jsx:95-103 | feature i has id i, the sample's precipitation unfiltered and unclamped as intensity and precipitation, and the coordinates [lon, lat] |
| MapComponent.RainFeatureIdsDistinct | src/components/map-component/MapComponent.jsx:100 | different features have different ids |
| MapComponent.CityCollection | src/components/map-component/MapComponent.jsx:146-158 | exactly one feature, at [lon, lat] of the city data, carrying its precipitation and the selected city as name |
| MapComponent.RampsAscending | src/components/map-component/MapComponent.jsx:114-179 | the weight, heatmap (0 to 1) and city (0 to 2.5) colour stops are strictly increasing |
| MapComponent.RainMap.constructor | src/components/map-component/MapComponent.jsx:13-15 | loading, no data, no sources or layers |
| MapComponent.RainMap.RealtimeSettled | src/components/map-component/MapComponent.jsx:18-45 | loading ends whether the realtime fetch succeeded or failed; only success stores the data |
| MapComponent.RainMap.CitySettled | src/components/map-component/MapComponent.jsx:48-61 | only a successful city fetch stores its data |
| MapComponent.RainMap.ShowCollection | src/components/map-component/MapComponent.jsx:106-133 | the source now holds the new collection; an absent source is added with its one layer, and a present one only has its data replaced |
| MapComponent.RainMap.DrawRain | src/components/map-component/MapComponent.jsx:86-138 | the rain source holds the samples' features; the heatmap layer is appended exactly when the source is new and the layer list is otherwise unchanged; the registry stays consistent |
| MapComponent.RainMap.DrawCity | src/components/map-component/MapComponent.jsx:141-193 | the city source holds the city's collection; the marker layer is appended exactly when the source is new and the layer list is otherwise unchanged; the registry stays consistent |

## Left out

- Network I/O is not modelled: `fetch`, `res.ok`, `res.json()`, `cache: 'no-store'` and the 250000 ms abort timer. A response is an input: a status with a parsed body, a parse failure or a transport failure.
- Asynchrony is not modelled. A fetch is started by one step and settled by another, so interleaved or stale responses (there is no request-generation guard) and the `isMounted` guard are outside the model.
- `LatestAvailableGeneral` (DashboardContent.jsx:304-382) is not modelled. It is a one-shot clock-versioned fetch guarded by `isMounted`.
- `Date.now()` and today's date are parameters. `toLocaleString`, `toLocaleTimeString` and the Spanish month names are left out, so `lastUpdate` is an opaque string.
- JavaScript numbers in storm records are integers. Precipitation values are reals. Float formatting (`(p * 100).toFixed(0)`) is left out.
- `RainMapSidebar.WeatherFromReply`: a `precipitation` that is a string, a boolean, an array or an object is not represented. The model has a number, `null` and a missing value only; the other kinds convert to numbers in ways the glow and glyph comparisons would have to follow.
- The `onToggleSidebar` callback that `handleCitySelect` calls belongs to the parent component and is not modelled.
- `toLowerCase` is modelled for Basic Latin and Latin-1 capitals only; other characters are left as they are. The suggestions still agree with JavaScript's for every query. The lower-cased names and states hold only Basic Latin letters and á, é, í, ó, ú. A query character outside Latin-1 therefore never occurs in them, whether it is lower-cased or not. The exception would be a character that lower-cases into Latin-1: the Kelvin sign becomes 'k', the Angstrom sign 'å', the capital sharp s 'ß', and 'İ' becomes 'i' followed by a combining dot. No listed name or state contains 'k', 'å', 'ß' or a combining dot.
- The JSON buttons that call `http://localhost:8000` are left out, because they bypass the configured base URL.
- Rendering is left out: markup, maplibre map creation, bounds and controls, heatmap interpolation and image load events. `map.loaded()` and the `load` event are collapsed: the model draws as soon as the map is ready.
- `console` logging is left out.
- Only the sources and layers the component itself adds are in the map registry. The style's own layers are not modelled.
- `DashboardContent.GeneralLoad`, `DashboardContent.StormListLoad`: a list body whose `images` is not an array would throw a TypeError on `.map`. This is not modelled; the body's entries are taken as a list.
- `DashboardContent.FinishHistoric`: when a non-OK body is not JSON, the SyntaxError message arrives as the `JsonFailed` message. It is not derived from the body.
- `JsValues.Lookup`: an object is a list of properties. `JSON.parse` keeps only the last value of a repeated key, so the objects the client receives never repeat a key. The model does not enforce distinct keys: on a list with a repeated key `Lookup` returns the first value, and such a list stands for no parsed object.
- `MapComponent.RainMap.DrawRain`: requires `precipData.data` to be an array without null entries. Otherwise the source throws a TypeError inside the map's load handler, which the model does not represent.
- `DashboardSidebar.PrevNextRoundTrip`: excludes the years -1..100, where `new Date` remaps 0..99 into the 1900s and the round trip does not hold.
- `CalendarDates.FormatParse`: the round trip is stated for years 1000..9999. Other years do not format to 8 digits.
- `Cities.UntrimmedQueryMatches`: shows only that untrimmed matching is length-sensitive. It does not enumerate which padded queries match.
- The Invalid Date is one value (`None` display). `toDateString` comparisons are by calendar date, because an Invalid Date prints "Invalid Date" and never equals a real day's text.
- `DashboardSidebar.SevereCount`: counts `categoria || category || 0` over integer categories. Non-numeric categories are outside the record type.

## Findings

| source | as written | input that shows it | evidently intended | confidence | as-written member | corrected member |
|---|---|---|---|---|---|---|
| src/components/rainmap/RainMapSideBar.jsx:48-51 | `handleCitySelect` hides the suggestions and changes `searchQuery`, so the search effect (lines 23-31) runs after the render and shows the suggestions again | query "gua", then select "Guadalajara": the effect runs for "Guadalajara", which matches itself, so the dropdown is open after the selection | the dropdown stays closed after a selection | not executed | RainMapSidebar.SelectReopensDropdown | RainMapSidebar.SelectClosesDropdown |
