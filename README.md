# HESTI real-estate scrapers — a Dafny model

HESTI gathers land listings and zoning rules. It has four scripts:

- `scrape_lands.py` walks a listing index page in Firefox. For each listing it reads the title, location, price, size, posting date and description. It opens the detail page in a new tab to capture the URL, makes at most `retries` attempts in total per listing, stopping at the first that succeeds, and stores every record through `insert_one`. Posting dates such as "створено 3 травня" are normalised to "03.05".
- `auto_scrape_zones.py` visits three municipal code sites. It picks the zone or district links, cleans and filters their names, opens each link in a new tab to read its description, and collects the entries per URL.
- `analyze_lands.py` turns the stored price and size texts into numbers and labels each listing "Cheap", "Moderate" or "Expensive".
- `google_maps_polygons.py` closes each user-entered vertex ring, measures it and draws the polygons on a map.

The model describes the browser by its window handles: the list `window_handles` in opening order, the focused handle, and the number of `quit` calls (`browser.dfy`). Every click, `window.open`, `switch_to.window`, `close` and `quit` is a step on that state. These steps fail where Selenium raises:

- switching to a handle that is not open;
- closing a window that is already closed;
- indexing past the end of the handle list (`window_handles[0]` once every window is closed, `window_handles[1]` when only one is open).

The lookups on a listing of `scrape_lands.py` also depend on that state. The listing element belongs to the main window's document, so its lookups raise once the main window is closed or another window has the focus.

Page content is an input. For `scrape_lands.py` an oracle `world(i, k)` says what the lookups of attempt `k` on listing `i` return. For `auto_scrape_zones.py` each link carries its texts and the outcome of its visit.

The loops that change the browser step by step are Dafny methods on a `Driver` object. Each method is proved equal to a recursive specification function (`ScrapeSpec`, `SiteSpec`, `MainSpec`), and the lemmas state what the scripts promise about those functions.

Files:

- `wrappers.dfy`: `Option` and `Result`.
- `text.dfy`: the Python string operations the scripts use.
- `browser.dfy`: window handles and the driver.
- `months.dfy`: the month table of `scrape_lands.py`.
- `scrape_lands.dfy`, `zones.dfy`, `analyze.dfy`, `polygons.dfy`: one per script.

Two consequences of the listing scraper's code stand out. The model follows the code in both:

- **Focus on failure.** The `except` branch (scrape_lands.py:171-177) neither closes the tab nor switches back. A failed attempt can leave the detail tab open and focused (`UrlFailureLeavesTabFocused`). Every later lookup on a listing then raises, so the scrape records nothing more (`UrlFailureEndsScrape`).
- **A click that opens no tab.** The record is appended (scrape_lands.py:150) before the tab is closed (scrape_lands.py:163). When a click opens no new tab, the main window itself is closed and `switch_to.window(main_window)` raises. The listing keeps that one record, and every later attempt and listing adds nothing (`ClickWithoutTabEndsScrape`).

## Model

| member | source | states |
|---|---|---|
| Text.SplitWsJoin | scrape_lands.py:53 | `split()` gives back the words of a single-space join when each word is non-empty and has no whitespace |
| Text.SplitOnManyIff | auto_scrape_zones.py:76-77 | `name.split('.')` has more than one piece exactly when the name contains a '.' |
| Text.SplitMaxOneLast | auto_scrape_zones.py:85 | the last piece of `split('-', 1)` is everything after the first '-', or the whole string when there is none |
| Text.Strip | auto_scrape_zones.py:33 | `strip()` returns the slice between a whitespace-only prefix and a whitespace-only suffix; the result neither starts nor ends with whitespace, so both removed ends are maximal |
| Text.StripStripped | auto_scrape_zones.py:85 | stripping an already stripped string changes nothing |
| Text.ZFill | scrape_lands.py:58 | `zfill(w)` leaves strings of length at least `w` alone; a shorter one is padded to exactly `w` with '0' characters, inserted after a leading '+' or '-' and otherwise in front, and its own characters follow unchanged |
| Text.RemoveAllAbsent | scrape_lands.py:53 | `replace(p, "")` leaves a string without an occurrence of `p` unchanged |
| Text.RemoveAllPrefix | scrape_lands.py:53 | `replace(p, "")` drops an occurrence of `p` at the front |
| Browser.Fresh | scrape_lands.py:41-48 | a new driver has exactly one window, focused, with valid handles |
| Browser.OpenedTab | auto_scrape_zones.py:41 | opening a tab appends one new handle at the end of `window_handles`, keeps the focus, and keeps handles distinct |
| Browser.SwitchedTo | scrape_lands.py:136 | `switch_to.window(h)` succeeds exactly when `h` is open, and then only moves the focus |
| Browser.CloseFocused | scrape_lands.py:163 | `close()` succeeds exactly when the focused window is open; it removes exactly that handle and keeps every other one in opening order, keeps the handles valid, and leaves the focus on the closed handle |
| Browser.WithoutLast | auto_scrape_zones.py:63 | closing the most recently opened tab restores the earlier handle list |
| Browser.WithoutDistinct | scrape_lands.py:163 | closing an open window removes exactly one handle and keeps the rest distinct |
| Browser.Driver.constructor | scrape_lands.py:45-47 | the created driver starts with one focused window and no `quit` yet |
| Browser.Driver.OpenTab | scrape_lands.py:128-130 | the driver's handles become those of `OpenedTab` |
| Browser.Driver.SwitchTo | auto_scrape_zones.py:42 | the driver reports and performs exactly the switch `SwitchedTo` describes |
| Browser.Driver.Close | auto_scrape_zones.py:63 | the driver reports and performs exactly the close `CloseFocused` describes |
| Browser.Driver.Quit | scrape_lands.py:179 | `quit` is counted and changes no window |
| ScrapeLands.TransformDate | scrape_lands.py:51-59 | the result is the input or ends in "." followed by a month number from the table |
| ScrapeLands.TransformDateRecognised | scrape_lands.py:51-58 | the prefix, a day and a known month name become the day zero-padded to two digits, '.', and the month's number |
| ScrapeLands.TransformDateExample | scrape_lands.py:51-58 | "створено 3 травня" becomes "03.05" |
| ScrapeLands.DateTokens | scrape_lands.py:53 | the tokens after removing "створено " are non-empty words without whitespace, and are the plain whitespace split when the prefix does not occur |
| ScrapeLands.Recognised | scrape_lands.py:54-57 | a date is rewritten exactly when it splits into two tokens whose second is a key of `MONTH_MAPPING`; every month number is non-empty, so the `if month_number` test never rejects a found month |
| ScrapeLands.TransformDateChangesIff | scrape_lands.py:54-59 | the date changes exactly when, after removing the prefix, it is two tokens with a known month; otherwise it is returned unchanged |
| Months.MonthNamesDistinct | scrape_lands.py:19-32 | the month table has twelve distinct names |
| Months.MonthNumbersExact | scrape_lands.py:19-32 | the month numbers are exactly "01" to "12" |
| Months.MonthNumbersInjective | scrape_lands.py:19-32 | no two months share a number |
| Months.MonthNumbersAreDigits | scrape_lands.py:19-32 | every month number is two decimal digits |
| ScrapeLands.Location | scrape_lands.py:85-93 | the single-space join of the sub-title texts; its contract is stated by `LocationKeepsParts` |
| ScrapeLands.LocationKeepsParts | scrape_lands.py:85-93 | the location join keeps every sub-title in document order (split gives them back) |
| ScrapeLands.SizeFragments | scrape_lands.py:102-104 | the kept size fragments all contain "м²" and come from the info texts |
| ScrapeLands.SizeFragmentsComplete | scrape_lands.py:103 | no info text containing "м²" is dropped |
| ScrapeLands.Size | scrape_lands.py:98-104 | the single-space join of the kept fragments; its contract is stated by `SizeKeepsFragments` and `SizeFragmentsNone` |
| ScrapeLands.SizeKeepsFragments | scrape_lands.py:102-104 | the size string loses no kept fragment and keeps their order: `split()` gives them back when each info text is a non-empty word |
| ScrapeLands.SizeFragmentsNone | scrape_lands.py:102-104 | without "м²" in any info text, nothing is kept and the size is the empty string |
| ScrapeLands.SizeFragmentsAppend | scrape_lands.py:102-104 | the filter keeps document order: it distributes over concatenation |
| ScrapeLands.RawDate | scrape_lands.py:105-108 | the raw date is the second date value, and fewer than two values raise |
| ScrapeLands.ExtractFields | scrape_lands.py:82-124 | extraction succeeds exactly when title, price, a second date value and the detail button exist, and the first missing one in that order is the error; the fields are the title and price texts, the location join, the "м²" filter, the transformed second date and the optional description |
| ScrapeLands.AttemptSpec | scrape_lands.py:80-177 | an attempt appends at most one record; when it reaches `break`, it has appended exactly one and focus is on the open main window; with the main window closed or not focused the first lookup raises and the attempt changes nothing |
| ScrapeLands.RunAttempt | scrape_lands.py:80-177 | one attempt step by step on the driver ends in the state, records and success `AttemptSpec` gives |
| ScrapeLands.ListingSpec | scrape_lands.py:79-177 | the retry loop appends no more records than attempts remain |
| ScrapeLands.RetryStep | scrape_lands.py:80-169 | one pass of the retry loop on the driver advances it as `ListingSpec` says, and reports whether it reached `break` |
| ScrapeLands.ProcessListing | scrape_lands.py:79-177 | the retry loop with `break` on the driver ends as `ListingSpec` says |
| ScrapeLands.RunSpec | scrape_lands.py:78-177 | the listing loop appends at most `retries` records per listing |
| ScrapeLands.Attempts | scrape_lands.py:79 | `range(retries)` has `retries` elements when `retries` is positive and none otherwise |
| ScrapeLands.Processed | scrape_lands.py:73-75 | `[:limit]` keeps `min(found, limit)` listings for a non-negative limit and never more than were found |
| ScrapeLands.ScrapeSpec | scrape_lands.py:62-185 | `scrape_main_page` returns at most `limit × retries` records; an unloadable page or a closed current window gives none |
| ScrapeLands.ScrapeMainPage | scrape_lands.py:62-185 | the whole scrape on the driver returns the records and leaves the windows `ScrapeSpec` gives, and calls `quit` once |
| ScrapeLands.ListingUsesOnlyItsAttempts | scrape_lands.py:79 | only the first `retries` attempts of a listing are consulted |
| ScrapeLands.SuccessEndsRetries | scrape_lands.py:169 | after a successful attempt no later attempt is made and the listing's records are that attempt's |
| ScrapeLands.RunUsesOnlyFirstListings | scrape_lands.py:73-79 | only the first `count` listings, each with its first `retries` attempts, are consulted |
| ScrapeLands.ScrapeUsesOnlyLimitAndRetries | scrape_lands.py:73-79 | two pages that agree on the first `limit` listings and `retries` attempts give the same result |
| ScrapeLands.ListingAllFailNoRecord | scrape_lands.py:171-177 | a listing that fails every attempt before the append adds nothing, raises nothing and leaves the windows alone |
| ScrapeLands.CleanAttemptRestoresMain | scrape_lands.py:128-164 | an attempt from the idle main window that opens a tab and reads the URL succeeds with one record and is idle on the main window again |
| ScrapeLands.UrlFailureLeavesTabFocused | scrape_lands.py:136-139 | when the URL cannot be read the detail tab stays open and focused, with no record |
| ScrapeLands.CleanListingAtMostOne | scrape_lands.py:79-177 | with attempts that open their tab, a listing yields at most one record and ends idle on the main window |
| ScrapeLands.AttemptWithoutTabClosesMain | scrape_lands.py:136-164 | with no new tab the attempt appends the listing's record, closes the main window and fails |
| ScrapeLands.ListingOffMainNothing | scrape_lands.py:79-82 | once the main window is closed or unfocused, the remaining attempts of a listing append nothing and change no window |
| ScrapeLands.RunOffMainNothing | scrape_lands.py:78-82 | the same holds for every remaining listing |
| ScrapeLands.FirstAttemptEndsScrape | scrape_lands.py:78-177 | a failed first attempt that leaves the main window closed or unfocused decides the whole run: its records and windows are the result |
| ScrapeLands.ClickWithoutTabEndsScrape | scrape_lands.py:128-169 | when the first listing's click opens no tab, the scrape returns exactly that listing's record and leaves no window open |
| ScrapeLands.UrlFailureEndsScrape | scrape_lands.py:136-177 | when the first listing's URL cannot be read, the scrape returns no record and leaves the detail tab open and focused |
| ScrapeLands.ThirdAttemptSucceeds | scrape_lands.py:79-169 | two failed extractions followed by a clean attempt give exactly the third attempt's record |
| ScrapeLands.NoListingsNoRecords | scrape_lands.py:73-78 | a page without listings gives an empty result, not an error |
| ScrapeLands.TwoListingsEndToEnd | scrape_lands.py:62-180 | two clean listings, the second without a description, give two records in page order, the second with no description |
| ScrapeLands.ToDocument | scrape_lands.py:150-160 | the stored document has exactly the seven keys title, location, price, size, date, description and url, each with the record's value; a missing description is stored as `None` |
| ScrapeLands.Collection.InsertOne | scrape_lands.py:36 | `insert_one` appends the document to the collection |
| ScrapeLands.StoreData | scrape_lands.py:34-38 | a non-empty document is inserted once; an empty one is only reported |
| ScrapeLands.StoreAll | scrape_lands.py:192-193 | every scraped record is stored once, in order |
| Zones.IsValidName | auto_scrape_zones.py:75-81 | a name is valid exactly when it has no '.' and, stripped and lower-cased, does not start with "district" |
| Zones.CleanName | auto_scrape_zones.py:84-88 | the cleaned name neither starts nor ends with whitespace |
| Zones.CleanNameNoHyphen | auto_scrape_zones.py:84-88 | without a '-' the name is only stripped |
| Zones.CleanNameAfterHyphen | auto_scrape_zones.py:84-88 | with a '-' the name is what follows the first one, stripped, minus one more leading '-', stripped again |
| Zones.KeepDistrict | auto_scrape_zones.py:103 | the Albion and Algona filter keeps a cleaned name exactly when it contains "district" ignoring case, has no '.', and, stripped and lower-cased, does not start with "district" |
| Zones.KeptDistrictName | auto_scrape_zones.py:103 | a kept name contains "district", does not start with it, and has no '.' |
| Zones.AirwayHeightsName | auto_scrape_zones.py:33-35 | the Airway Heights name is the text after the first space; no space raises; "Zone Classifications" is skipped |
| Zones.AlbionNameRaises | auto_scrape_zones.py:100 | an Albion link whose stripped text has fewer than two spaces raises IndexError |
| Zones.AlbionName | auto_scrape_zones.py:100-103 | otherwise the Albion name is `clean_name` of the text after the second space of the stripped link text, kept exactly when it passes the district filter |
| Zones.DistrictNamesFiltered | auto_scrape_zones.py:100-103 | every name the Albion and Algona scrapers keep is a valid district name |
| Zones.ZoneName | auto_scrape_zones.py:33-149 | Airway Heights raises exactly when the stripped link text has no space, Algona exactly when a link has no `span[2]`, Albion only on too few words; Albion and Algona keep only names passing the district filter (the kept names themselves are given by AirwayHeightsName, AlbionName and AlgonaName) |
| Zones.AlgonaName | auto_scrape_zones.py:147-149 | the Algona name is `clean_name` of the stripped `span[2]` text, kept exactly when it passes the district filter |
| Zones.Description | auto_scrape_zones.py:52-60 | Airway Heights and Algona give the single-space join of every matched text, Albion the first match's text; a lookup with no match gives "Description not found", and the description is missing only when the lookup raises something other than NoSuchElementException |
| Zones.TrySpec | auto_scrape_zones.py:39-64 | a visit's `try` block appends at most one entry |
| Zones.VisitSpec | auto_scrape_zones.py:39-70 | a visit, including its `except` block, appends at most one entry |
| Zones.VisitRestoresMain | auto_scrape_zones.py:39-70 | from the idle main window a tab that opens is always cleaned up; an entry is added exactly when the lookup did not fail |
| Zones.FailedOpenClosesMain | auto_scrape_zones.py:66-70 | when `window.open` fails the `except` block closes the main window and the exception escapes |
| Zones.Try | auto_scrape_zones.py:39-64 | the `try` block on the driver ends in the state, entry and success `TrySpec` gives |
| Zones.Visit | auto_scrape_zones.py:39-70 | one link visit on the driver ends as `VisitSpec` says |
| Zones.SiteSpec | auto_scrape_zones.py:32-72 | a site yields at most one entry per link |
| Zones.WellBehavedSite | auto_scrape_zones.py:100-134 | with names that derive and tabs that open, a site yields one entry per kept link whose description lookup does not fail, in link order, and ends idle on the main window |
| Zones.ScrapeLink | auto_scrape_zones.py:146-178 | the loop body for one link advances the site loop as `SiteSpec` says |
| Zones.ScrapeSite | auto_scrape_zones.py:137-180 | a site scraper on the driver returns the entries or the escaping error `SiteSpec` gives |
| Zones.ClickElement | auto_scrape_zones.py:18-25 | `click_element` clicks the first match when there is one and never raises |
| Zones.MainSpec | auto_scrape_zones.py:193-202 | `main`'s loop over the URLs never removes a key from `all_zones`: a URL that fails is only skipped, a later run only adds or rewrites entries |
| Zones.MainKeys | auto_scrape_zones.py:193-202 | `all_zones` only gets keys of the URLs in the list |
| Zones.ScrapeUrl | auto_scrape_zones.py:194-202 | one pass of `main`'s loop on the driver advances it as `MainSpec` says |
| Zones.CleanupSpec | auto_scrape_zones.py:66-69 | the `except` block raises on a closed focus and leaves the windows as they were; from valid windows it completes exactly when the focus is open and another window remains, and then the focused handle is gone, every other handle stays, and the focus is on `window_handles[0]` |
| Zones.Cleanup | auto_scrape_zones.py:66-70 | the `except` block on the driver ends as `CleanupSpec` says; it raises when the focused window is already closed or none is left |
| Zones.ScrapeAll | auto_scrape_zones.py:190-208 | `main`'s loop on the driver fills `all_zones` as `MainSpec` says, then quits once |
| Zones.RaisesBeforeVisitSite | auto_scrape_zones.py:146-149 | a scraper whose first link that is not skipped raises on its name ends with that error and leaves the windows alone |
| Zones.QuietRunSkipped | auto_scrape_zones.py:194-202 | a URL that does not load, or whose scraper raises before visiting a link, leaves `all_zones` and the windows unchanged |
| Zones.WellBehavedMain | auto_scrape_zones.py:193-202 | when every site is quiet (does not load, or raises before visiting a link) or loads and behaves, every URL that is not quiet maps to its expected entries whatever earlier sites did, and the browser stays idle on the main window |
| Zones.MainKeepsEntry | auto_scrape_zones.py:200-201 | an entry is kept unless a later run for the same URL succeeds |
| Analyze.ParseNumeral | analyze_lands.py:16 | the `float(...)` conversion, restricted to non-negative whole numbers, succeeds exactly on a non-empty run of ASCII digits |
| Analyze.CleanPrice | analyze_lands.py:13-16 | the price parses exactly when it has a digit and nothing besides digits, spaces and '$' |
| Analyze.CleanPriceExample | analyze_lands.py:13-16 | "45 000 $" is 45000 |
| Analyze.CleanPriceRoundTrip | analyze_lands.py:13-16 | a numeral followed by " $" reads back as its number |
| Analyze.RemoveCharMembers | analyze_lands.py:14-15 | `replace(c, "")` keeps exactly the characters other than `c` |
| Analyze.NumeralValue | analyze_lands.py:16 | reading a written numeral gives back its number |
| Analyze.LeadingZeroValue | analyze_lands.py:25 | leading zeros do not change a numeral's value |
| Analyze.ExtractTotalSize | analyze_lands.py:22-27 | no size is found exactly when the text does not start with a digit |
| Analyze.DigitPrefixLen | analyze_lands.py:23 | the match is the maximal leading run of digits |
| Analyze.ExtractTotalSizeRoundTrip | analyze_lands.py:23-25 | a numeral followed by a non-digit reads back as its number |
| Analyze.ExtractTotalSizeExample | analyze_lands.py:22-25 | "45 м²" is 45 |
| Analyze.Categorize | analyze_lands.py:42-48 | one of the three labels: "Cheap" exactly at or below the cheap threshold, "Moderate" exactly above it and at or below the expensive one, "Expensive" above both |
| Analyze.CategorizeMonotone | analyze_lands.py:38-48 | with ordered thresholds a larger price per square metre never gets a cheaper label |
| Polygons.ClosedRing | google_maps_polygons.py:17-18 | the closed ring ends with its first vertex, keeps every earlier vertex, and grows by at most one |
| Polygons.ClosedRingAppends | google_maps_polygons.py:17-18 | a closed list is unchanged; otherwise exactly one copy of the first vertex is appended |
| Polygons.ClosedRingIdempotent | google_maps_polygons.py:17-18 | closing twice is closing once |
| Polygons.VertexList.CloseRing | google_maps_polygons.py:17-18 | the list object is closed in place; an empty list raises and is left as it is |
| Polygons.Buildable | google_maps_polygons.py:17-22 | `Polygon(vertices)` accepts the closed list exactly when four or more vertices were entered, or three that were not already closed |
| Polygons.AreaOf | google_maps_polygons.py:23-44 | a measured area is returned as it is; an invalid polygon or a failed conversion gives 0 |
| Polygons.CalculatePolygonArea | google_maps_polygons.py:12-44 | the caller's list is closed in place and the area is measured on the closed list; an empty list raises IndexError and is left as it is; a closed list too short for a ring raises ValueError after it was closed |
| Polygons.ChosenColor | google_maps_polygons.py:83-85 | an empty colour answer becomes "blue"; any other answer is kept |
| Polygons.AddPolygon | google_maps_polygons.py:87-95 | the record holds the closed list, the chosen colour and the area, and is appended after the earlier records; when the measuring raises, no record is added and the program ends |
| Polygons.DrawColor | google_maps_polygons.py:58 | a record without a colour is drawn in "blue" |
| Polygons.MapCenter | google_maps_polygons.py:49-52 | the centre is the first vertex of the first polygon, or (0, 0) without polygons |
| Polygons.UnzipZip | google_maps_polygons.py:57 | unzipping into latitudes and longitudes loses nothing |
| Polygons.ShapeOf | google_maps_polygons.py:57-58 | each drawn shape zips back to its polygon's vertices, in its drawn colour |
| Polygons.MapSpec | google_maps_polygons.py:47-60 | the map can be drawn exactly when every polygon has a vertex |
| Polygons.MapSpecDraws | google_maps_polygons.py:47-60 | one shape per polygon in order, each with its vertices and colour, centred on the first vertex |
| Polygons.CreateGoogleMap | google_maps_polygons.py:47-60 | the drawing loop produces exactly the plan `MapSpec` describes |
| Polygons.EnteredPolygonsDrawn | google_maps_polygons.py:83-95 | entered polygons are drawn closed, in the colour chosen at the prompt, and the map is centred on the first vertex entered |

## Left out

- Selenium page content: XPath evaluation, element texts and `get_attribute` are inputs (the per-attempt oracle and the per-link records). `execute_script("scrollIntoView")` and the `ActionChains` click are one success flag. `current_url` is an input per attempt.
- While the main window is open and focused, the attempt oracle of `scrape_lands.py` decides the lookups on a listing independently of the rest of the browser state.
- Driver creation (`create_driver`, `init_driver`, `GeckoDriverManager().install()`, headless and user-agent options, `set_page_load_timeout`): a created driver is assumed. A failing start, which ends the program, is not modelled. Neither is a `quit` that raises.
- `time.sleep`, `random.uniform` and `random.choice(USER_AGENTS)`: they change no modelled state.
- Mongo: only `insert_one` is modelled, as an append to a list. `find`, `update_one` and the connection are out of the model.
- `print` diagnostics and the `json.dump` output file of `auto_scrape_zones.py`.
- Polygon area maths: shapely's validity check and area, and the geodesic conversion, are one input, the `Measured` outcome. Of shapely's checks when building the polygon, only the four-coordinate minimum of a ring is modelled.
- The `gmplot` drawing is modelled as the list of calls it receives.
- `webbrowser`, `load_dotenv`, the API-key check and the interactive `input()` loop of `google_maps_polygons.py`. Only the closing, record and colour steps of one round are modelled.
- Parsing "lat,lon" with `float` is not modelled.
- Coordinates are exact reals. Float equality, including NaN never equal to itself, is not modelled.
- pandas and matplotlib: the DataFrame, `dropna`, the division, the quantiles, the group-by ranking and the chart. The thresholds are parameters of `Categorize`.
- Analyze.ParseNumeral: models `float` on unsigned runs of ASCII digits only, for the same reasons as the next line.
- Analyze.CleanPrice: accepts only ASCII decimal digits once spaces and '$' are removed. Python's `float` also accepts a sign, a decimal point, an exponent, surrounding whitespace other than ' ', underscores between digits, "inf"/"nan" and non-ASCII decimal digits. Those inputs give `None` here, and the value is exact rather than a rounded float.
- Analyze.ExtractTotalSize: `\d` is taken as the ASCII digits only, whereas Python's `re` also matches other Unicode decimal digits. The value is exact rather than a rounded float.
- Analyze.Categorize: the price and thresholds are reals, so NaN is not modelled. With NaN both comparisons are false and Python returns "Expensive".
- Text.Lower: lower-cases ASCII letters only. This is exact for the "district" tests in `auto_scrape_zones.py`: no other character lower-cases into one of the letters of "district" without also producing a combining character.
- Zones.Description: Airway Heights' headers and contents arrive as one list of texts, headers first.
- `analyze_lands.py` and `google_maps_polygons.py` module-level code other than the helpers above is not part of this model.
