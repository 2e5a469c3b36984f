/** The listing scraper (`scrape_lands.py`): date normalisation, the per-listing
    field derivations, the retry/limit control of `scrape_main_page`, and the
    write gate of `store_data`. The page is an input: for listing `i` and attempt
    `k`, `world(i, k)` says what the element lookups and the browser return. */
module ScrapeLands {
  import opened Wrappers
  import opened Text
  import opened Browser
  import opened Months

  // ------------------------------------------------------------ dates

  /** The word the site puts in front of a posting date ("created"). */
  const CreatedPrefix: string := "створено "

  /** The tokens `raw.replace("створено ", "").split()`: non-empty words without whitespace; the
      plain whitespace split when the prefix does not occur. */
  function DateTokens(raw: string): (r: seq<string>)
    ensures forall k :: 0 <= k < |r| ==> r[k] != [] && NoSpace(r[k])
    ensures !Contains(raw, CreatedPrefix) ==> r == SplitWs(raw)
  {
    if !Contains(raw, CreatedPrefix) then
      RemoveAllAbsent(raw, CreatedPrefix);
      SplitWs(RemoveAll(raw, CreatedPrefix))
    else SplitWs(RemoveAll(raw, CreatedPrefix))
  }

  /** The date is a day and a known month: the case `transform_date` rewrites. Every month number
      is non-empty, so the `if month_number` test adds nothing to the lookup. */
  predicate Recognised(raw: string): (r: bool)
    ensures r <==> |DateTokens(raw)| == 2 && DateTokens(raw)[1] in MonthMapping
  {
    var parts := DateTokens(raw);
    if |parts| == 2 && parts[1] in MonthMapping then
      MonthNumberShape(parts[1]);
      MonthMapping[parts[1]] != ""
    else false
  }

  /** `transform_date`: "DD.MM" for a recognised date, the input unchanged otherwise. */
  function TransformDate(raw: string): (r: string)
    ensures r == raw || (|r| >= 5 && r[|r| - 3] == '.' && r[|r| - 2..] in MonthMapping.Values)
  {
    var parts := DateTokens(raw);
    if |parts| == 2 && parts[1] in MonthMapping && MonthMapping[parts[1]] != "" then
      MonthNumberShape(parts[1]);
      var r := ZFill(parts[0], 2) + "." + MonthMapping[parts[1]];
      assert r[|r| - 2..] == MonthMapping[parts[1]];
      r
    else raw
  }

  lemma MonthNumberShape(name: string)
    requires name in MonthMapping
    ensures |MonthMapping[name]| == 2 && MonthMapping[name] in MonthMapping.Values
  {
    MonthNumbersExact();
    MonthNumbersAreDigits();
  }

  /** `transform_date("створено 3 травня") == "03.05"`. */
  lemma TransformDateExample()
    ensures TransformDate("створено 3 травня") == "03.05"
  {
    ExampleTokens();
    TransformDateOfTokens("створено 3 травня", "3", "травня");
    ExampleParts();
  }

  lemma ExampleParts()
    ensures ZFill("3", 2) + "." + MonthMapping["травня"] == "03.05"
  {
    assert MonthMapping["травня"] == "05";
    assert ZFill("3", 2) == "03";
  }

  lemma TransformDateOfTokens(raw: string, day: string, month: string)
    requires DateTokens(raw) == [day, month] && month in MonthMapping
    ensures TransformDate(raw) == ZFill(day, 2) + "." + MonthMapping[month]
  {
    MonthNumberShape(month);
  }

  lemma ExampleTokens()
    ensures DateTokens("створено 3 травня") == ["3", "травня"]
  {
    assert "створено 3 травня" == CreatedPrefix + "3" + " " + "травня";
    DateTokensShort("3", "травня");
  }

  /** A short date behind the prefix splits into its day and month. */
  lemma DateTokensShort(day: string, month: string)
    requires day != [] && NoSpace(day) && month != [] && NoSpace(month)
    requires |day| + 1 + |month| < |CreatedPrefix|
    ensures DateTokens(CreatedPrefix + day + " " + month) == [day, month]
  {
    var rest := day + " " + month;
    assert CreatedPrefix + day + " " + month == CreatedPrefix + rest;
    RemoveAllPrefix(CreatedPrefix, rest);
    RemoveAllShort(rest, CreatedPrefix);
    assert [day, month][1..] == [month];
    assert Join([day, month], " ") == rest;
    SplitWsJoin([day, month]);
  }

  /** A day and a month name behind the prefix become the zero-padded day and the month number. */
  lemma TransformDateRecognised(day: string, month: string)
    requires day != [] && NoSpace(day) && month in MonthMapping
    requires !Contains(day + " " + month, CreatedPrefix)
    ensures TransformDate(CreatedPrefix + day + " " + month) == ZFill(day, 2) + "." + MonthMapping[month]
  {
    MonthNameIsWord(month);
    DateTokensOf(day, month);
    TransformDateOfTokens(CreatedPrefix + day + " " + month, day, month);
  }

  /** A day and a word behind the prefix split into those two tokens. */
  lemma DateTokensOf(day: string, month: string)
    requires day != [] && NoSpace(day) && month != [] && NoSpace(month)
    requires !Contains(day + " " + month, CreatedPrefix)
    ensures DateTokens(CreatedPrefix + day + " " + month) == [day, month]
  {
    var rest := day + " " + month;
    assert CreatedPrefix + day + " " + month == CreatedPrefix + rest;
    RemoveAllPrefix(CreatedPrefix, rest);
    RemoveAllAbsent(rest, CreatedPrefix);
    assert [day, month][1..] == [month];
    assert Join([day, month], " ") == rest;
    SplitWsJoin([day, month]);
  }

  lemma MonthNameIsWord(name: string)
    requires name in MonthMapping
    ensures name != [] && NoSpace(name)
  {
  }

  /** `transform_date` changes its input exactly when the date is recognised; otherwise it is the identity. */
  lemma {:induction false} TransformDateChangesIff(raw: string)
    ensures TransformDate(raw) != raw <==> Recognised(raw)
    ensures !Recognised(raw) ==> TransformDate(raw) == raw
  {
    if Recognised(raw) {
      // two tokens mean the input contains whitespace; the output contains none
      var t := RemoveAll(raw, CreatedPrefix);
      var c := TwoTokensHaveSpace(t);
      RemoveAllKeepsChars(raw, CreatedPrefix, c);
      RecognisedOutputNoSpace(raw);
      var r := TransformDate(raw);
      assert c !in r;
    }
  }

  lemma RecognisedOutputNoSpace(raw: string)
    requires Recognised(raw)
    ensures NoSpace(TransformDate(raw))
  {
    var parts := DateTokens(raw);
    ZFillNoSpace(parts[0], 2);
    MonthNumberNoSpace(parts[1]);
    var z := ZFill(parts[0], 2);
    var m := MonthMapping[parts[1]];
    assert TransformDate(raw) == z + "." + m;
    assert NoSpace(".");
  }

  lemma MonthNumberNoSpace(name: string)
    requires name in MonthMapping
    ensures NoSpace(MonthMapping[name])
  {
    var v := MonthMapping[name];
    assert v in MonthMapping.Values;
    MonthNumbersExact();
    MonthNumbersAreDigits();
    assert '0' <= v[0] <= '9' && '0' <= v[1] <= '9';
    DigitsNoSpace(v);
  }

  lemma DigitsNoSpace(v: string)
    requires |v| == 2 && '0' <= v[0] <= '9' && '0' <= v[1] <= '9'
    ensures NoSpace(v)
  {
  }

  lemma TwoTokensHaveSpace(t: string) returns (c: char)
    requires |SplitWs(t)| >= 2
    ensures c in t && IsSpace(c)
  {
    var s := t[SpacePrefixLen(t)..];
    if SpacePrefixLen(t) > 0 {
      c := t[0];
    } else {
      var n := WordLen(s);
      assert SplitWs(t) == [s[..n]] + SplitWs(s[n..]);
      assert s[n..] != [];
      c := s[n];
      assert s == t;
    }
  }

  /** `replace(..., "")` only deletes characters. */
  lemma {:induction false} RemoveAllKeepsChars(s: string, pattern: string, c: char)
    requires pattern != []
    requires c in RemoveAll(s, pattern)
    ensures c in s
    decreases |s|
  {
    if StartsWith(s, pattern) {
      RemoveAllKeepsChars(s[|pattern|..], pattern, c);
    } else if s != [] && c != s[0] {
      RemoveAllKeepsChars(s[1..], pattern, c);
    }
  }

  lemma ZFillNoSpace(s: string, width: nat)
    requires NoSpace(s)
    ensures NoSpace(ZFill(s, width))
  {
  }

  // ------------------------------------------------------------ field derivations

  /** The unit that marks a size fragment ("square metres"). */
  const AreaMarker: string := "м²"

  /** `location`: the sub-title texts joined with single spaces, in document order. */
  function Location(subTitles: seq<string>): string {
    Join(subTitles, " ")
  }

  /** The location string loses no sub-title and keeps their order: `split()` gives them back
      whenever each is a non-empty word. */
  lemma LocationKeepsParts(subTitles: seq<string>)
    requires forall k :: 0 <= k < |subTitles| ==> subTitles[k] != [] && NoSpace(subTitles[k])
    ensures SplitWs(Location(subTitles)) == subTitles
  {
    SplitWsJoin(subTitles);
  }


  /** The info texts that contain the area unit, in document order. */
  function SizeFragments(infos: seq<string>): (r: seq<string>)
    ensures |r| <= |infos|
    ensures forall k :: 0 <= k < |r| ==> Contains(r[k], AreaMarker) && r[k] in infos
  {
    if infos == [] then []
    else if Contains(infos[0], AreaMarker) then [infos[0]] + SizeFragments(infos[1..])
    else SizeFragments(infos[1..])
  }

  /** `size`: the single-space join of the fragments that contain the area unit. */
  function Size(infos: seq<string>): string {
    Join(SizeFragments(infos), " ")
  }

  /** The size string loses no kept fragment and keeps their order: `split()` gives them back
      whenever each info text is a non-empty word. */
  lemma SizeKeepsFragments(infos: seq<string>)
    requires forall k :: 0 <= k < |infos| ==> infos[k] != [] && NoSpace(infos[k])
    ensures SplitWs(Size(infos)) == SizeFragments(infos)
  {
    var parts := SizeFragments(infos);
    assert forall k :: 0 <= k < |parts| ==> parts[k] in infos;
    SplitWsJoin(parts);
  }


  /** Without the area unit anywhere, nothing is kept and the size is empty. */
  lemma {:induction false} SizeFragmentsNone(infos: seq<string>)
    requires forall k :: 0 <= k < |infos| ==> !Contains(infos[k], AreaMarker)
    ensures SizeFragments(infos) == [] && Size(infos) == []
  {
    if infos != [] {
      SizeFragmentsNone(infos[1..]);
    }
  }

  /** No fragment with the area unit is dropped. */
  lemma {:induction false} SizeFragmentsComplete(infos: seq<string>, x: string)
    requires x in infos && Contains(x, AreaMarker)
    ensures x in SizeFragments(infos)
  {
    if infos[0] != x {
      SizeFragmentsComplete(infos[1..], x);
    }
  }

  /** Filtering keeps document order: it distributes over concatenation. */
  lemma {:induction false} SizeFragmentsAppend(a: seq<string>, b: seq<string>)
    ensures SizeFragments(a + b) == SizeFragments(a) + SizeFragments(b)
  {
    if a != [] {
      assert (a + b)[1..] == a[1..] + b;
      SizeFragmentsAppend(a[1..], b);
    } else {
      assert a + b == b;
    }
  }

  /** `find_elements(...)[1]`: the second date value; fewer than two raise IndexError. */
  function RawDate(dates: seq<string>): (r: Option<string>)
    ensures r.Some? <==> |dates| >= 2
    ensures r.Some? ==> r.value == dates[1]
  {
    if |dates| >= 2 then Some(dates[1]) else None
  }

  // ------------------------------------------------------------ one attempt

  /** What one extraction attempt on one listing meets. `None` stands for a lookup that raises. */
  datatype Attempt = Attempt(
    title: Option<string>,
    subTitles: seq<string>,
    price: Option<string>,
    infos: seq<string>,
    dates: seq<string>,
    description: Option<string>,
    detailButton: bool,
    clickOk: bool,        // scrollIntoView and the ActionChains click complete
    opensTab: bool,       // the click opens the detail page in a new tab
    url: Option<string>)  // `current_url` of the focused window

  datatype Fields = Fields(title: string, location: string, price: string, size: string,
                           date: string, description: Option<string>)

  /** The record appended to `results`; `description` is `None` when the page has none. */
  datatype ListingRecord = ListingRecord(title: string, location: string, price: string, size: string,
                                         date: string, description: Option<string>, url: string)

  datatype ExtractError = NoTitle | NoPrice | NoSecondDate | NoDetailButton

  /** Lines 82-124: the lookups in order; the first one that raises ends the attempt. */
  function ExtractFields(a: Attempt): (r: Result<Fields, ExtractError>)
    ensures r.Ok? <==> a.title.Some? && a.price.Some? && |a.dates| >= 2 && a.detailButton
    ensures a.title.None? ==> r == Err(NoTitle)
    ensures a.title.Some? && a.price.None? ==> r == Err(NoPrice)
    ensures a.title.Some? && a.price.Some? && |a.dates| < 2 ==> r == Err(NoSecondDate)
    ensures a.title.Some? && a.price.Some? && |a.dates| >= 2 && !a.detailButton ==> r == Err(NoDetailButton)
    ensures r.Ok? ==> r.value.title == a.title.value && r.value.price == a.price.value
    ensures r.Ok? ==> r.value.description == a.description && r.value.date == TransformDate(a.dates[1])
    ensures r.Ok? ==> r.value.location == Location(a.subTitles) && r.value.size == Size(a.infos)
  {
    match a.title
    case None => Err(NoTitle)
    case Some(title) =>
      var location := Location(a.subTitles);
      match a.price
      case None => Err(NoPrice)
      case Some(price) =>
        var size := Size(a.infos);
        match RawDate(a.dates)
        case None => Err(NoSecondDate)
        case Some(rawDate) =>
          var date := TransformDate(rawDate);
          var description := a.description;
          if !a.detailButton then Err(NoDetailButton)
          else Ok(Fields(title, location, price, size, date, description))
  }

  /** The window state after an attempt, the records it appended, and whether it reached `break`. */
  datatype AttemptOutcome = AttemptOutcome(windows: Windows, appended: seq<ListingRecord>, success: bool)

  function MakeRecord(f: Fields, url: string): ListingRecord {
    ListingRecord(f.title, f.location, f.price, f.size, f.date, f.description, url)
  }

  /** Lines 80-177 for one attempt, in the code's order: extract, click, switch to
      `window_handles[-1]`, read the URL, append, close, switch to `main`. A failure
      anywhere leaves the windows as they are at that point. The listing element
      belongs to the main window's document, so its lookups raise whenever the main
      window is closed or another window has the focus. */
  function AttemptSpec(w: Windows, main: Handle, a: Attempt): (o: AttemptOutcome)
    ensures |o.appended| <= 1
    ensures o.success ==> |o.appended| == 1 && o.windows.focus == main && main in o.windows.handles
    ensures w.focus != main || main !in w.handles ==> o == AttemptOutcome(w, [], false)
  {
    if w.focus != main || main !in w.handles then AttemptOutcome(w, [], false)
    else
    match ExtractFields(a)
    case Err(_) => AttemptOutcome(w, [], false)
    case Ok(f) =>
      if !a.clickOk then AttemptOutcome(w, [], false)
      else
        var w1 := if a.opensTab then OpenedTab(w) else w;
        if w1.handles == [] then AttemptOutcome(w1, [], false)
        else
          match SwitchedTo(w1, w1.handles[|w1.handles| - 1])
          case None => AttemptOutcome(w1, [], false)
          case Some(w2) =>
            match a.url
            case None => AttemptOutcome(w2, [], false)
            case Some(u) =>
              var rec := MakeRecord(f, u);
              match CloseFocused(w2)
              case None => AttemptOutcome(w2, [rec], false)
              case Some(w3) =>
                match SwitchedTo(w3, main)
                case None => AttemptOutcome(w3, [rec], false)
                case Some(w4) => AttemptOutcome(w4, [rec], true)
  }

  // ------------------------------------------------------------ retry and limit

  /** Windows and records after a stretch of attempts or listings. */
  datatype Progress = Progress(windows: Windows, records: seq<ListingRecord>)

  /** Attempts `k`..`n-1` of listing `i` (the inner `for attempt in range(retries)` with `break`). */
  function ListingSpec(w: Windows, main: Handle, world: (nat, nat) -> Attempt, i: nat, k: nat, n: nat): (p: Progress)
    requires k <= n
    ensures |p.records| <= n - k
    decreases n - k
  {
    if k >= n then Progress(w, [])
    else
      var o := AttemptSpec(w, main, world(i, k));
      if o.success then Progress(o.windows, o.appended)
      else
        var rest := ListingSpec(o.windows, main, world, i, k + 1, n);
        Progress(rest.windows, o.appended + rest.records)
  }

  /** Listings `i`..`count-1`, each with `n` attempts (the outer `for` loop). */
  function RunSpec(w: Windows, main: Handle, world: (nat, nat) -> Attempt, i: nat, count: nat, n: nat): (p: Progress)
    requires i <= count
    ensures |p.records| <= (count - i) * n
    decreases count - i
  {
    if i >= count then Progress(w, [])
    else
      var l := ListingSpec(w, main, world, i, 0, n);
      var rest := RunSpec(l.windows, main, world, i + 1, count, n);
      assert |l.records + rest.records| <= n + (count - (i + 1)) * n;
      Progress(rest.windows, l.records + rest.records)
  }

  /** Length of `found[:limit]` (Python slicing, negative `limit` counts from the end). */
  function Processed(found: nat, limit: int): (m: nat)
    ensures m <= found
    ensures limit >= 0 ==> m == if found < limit then found else limit
  {
    if limit >= 0 then (if found < limit then found else limit)
    else if found + limit > 0 then found + limit else 0
  }

  /** Length of `range(retries)`. */
  function Attempts(retries: int): (n: nat)
    ensures retries <= 0 ==> n == 0
    ensures retries > 0 ==> n == retries
  {
    if retries > 0 then retries else 0
  }

  /** The index page: whether it loads, how many listing elements it shows, and the per-attempt oracle. */
  datatype Page = Page(loads: bool, found: nat, world: (nat, nat) -> Attempt)

  /** `scrape_main_page`: no records when the page cannot be loaded or the current window is gone
      (the outer `except`), otherwise the records of the first `limit` listings. */
  function ScrapeSpec(w: Windows, page: Page, limit: int, retries: int): (p: Progress)
    ensures |p.records| <= Processed(page.found, limit) * Attempts(retries)
    ensures !page.loads || w.focus !in w.handles ==> p == Progress(w, [])
  {
    if !page.loads || w.focus !in w.handles then Progress(w, [])
    else RunSpec(w, w.focus, page.world, 0, Processed(page.found, limit), Attempts(retries))
  }

  /** One attempt, step by step on the driver. */
  method RunAttempt(d: Driver, main: Handle, a: Attempt) returns (appended: seq<ListingRecord>, success: bool)
    modifies d
    ensures var o := AttemptSpec(old(d.State()), main, a);
      d.State() == o.windows && appended == o.appended && success == o.success
    ensures d.quitCalls == old(d.quitCalls)
  {
    appended, success := [], false;
    if d.focus != main || main !in d.handles {
      return;  // the lookups on the listing raise
    }
    var fields := ExtractFields(a);
    if fields.Err? || !a.clickOk {
      return;
    }
    if a.opensTab {
      d.OpenTab();
    }
    if d.handles == [] {
      return;  // window_handles[-1] raises IndexError
    }
    var ok := d.SwitchTo(d.handles[|d.handles| - 1]);
    if !ok || a.url.None? {
      return;
    }
    appended := [MakeRecord(fields.value, a.url.value)];
    ok := d.Close();
    if !ok {
      return;
    }
    ok := d.SwitchTo(main);
    success := ok;
  }

  /** The retry loop for listing `i`: at most `n` attempts, stopping at the first success;
      failures are swallowed. */
  method ProcessListing(d: Driver, main: Handle, world: (nat, nat) -> Attempt, i: nat, n: nat)
    returns (records: seq<ListingRecord>)
    modifies d
    ensures var p := ListingSpec(old(d.State()), main, world, i, 0, n);
      d.State() == p.windows && records == p.records
    ensures d.quitCalls == old(d.quitCalls)
  {
    ghost var listing := ListingSpec(d.State(), main, world, i, 0, n);
    EmptyConcat(listing.records);
    records := [];
    var attempt := 0;
    while attempt < n
      invariant attempt <= n && d.quitCalls == old(d.quitCalls)
      invariant Resume(d.State(), records, main, world, i, attempt, n) == listing
    {
      var success;
      records, success := RetryStep(d, main, world, i, attempt, n, records);
      if success {
        break;
      }
      attempt := attempt + 1;
    }
    EmptyConcat(records);
  }

  /** One pass of the retry loop's body: run attempt `k` and add what it appended. */
  method RetryStep(d: Driver, main: Handle, world: (nat, nat) -> Attempt, i: nat, k: nat, n: nat,
                   records: seq<ListingRecord>)
    returns (records': seq<ListingRecord>, success: bool)
    requires k < n
    modifies d
    ensures success ==> Resume(old(d.State()), records, main, world, i, k, n) == Progress(d.State(), records')
    ensures !success ==>
      Resume(old(d.State()), records, main, world, i, k, n) == Resume(d.State(), records', main, world, i, k + 1, n)
    ensures d.quitCalls == old(d.quitCalls)
  {
    ResumeStep(d.State(), records, main, world, i, k, n);
    var appended;
    appended, success := RunAttempt(d, main, world(i, k));
    records' := records + appended;
  }

  /** What the listing loop ends with from a point where `records` are collected. */
  function Resume(w: Windows, records: seq<ListingRecord>, main: Handle, world: (nat, nat) -> Attempt, i: nat, k: nat, n: nat): Progress
    requires k <= n
  {
    var p := ListingSpec(w, main, world, i, k, n);
    Progress(p.windows, records + p.records)
  }

  lemma ResumeStep(w: Windows, records: seq<ListingRecord>, main: Handle, world: (nat, nat) -> Attempt, i: nat, k: nat, n: nat)
    requires k < n
    ensures var o := AttemptSpec(w, main, world(i, k));
      Resume(w, records, main, world, i, k, n)
      == if o.success then Progress(o.windows, records + o.appended)
         else Resume(o.windows, records + o.appended, main, world, i, k + 1, n)
  {
    ListingFirstAttempt(w, main, world, i, k, n);
    var o := AttemptSpec(w, main, world(i, k));
    if !o.success {
      ConcatAssoc(records, o.appended, ListingSpec(o.windows, main, world, i, k + 1, n).records);
    }
  }

  /** What the listing loop ends with from listing `i` on, with `results` collected so far. */
  function ResumeRun(w: Windows, results: seq<ListingRecord>, main: Handle, world: (nat, nat) -> Attempt,
                     i: nat, count: nat, n: nat): Progress
    requires i <= count
  {
    var p := RunSpec(w, main, world, i, count, n);
    Progress(p.windows, results + p.records)
  }

  lemma ResumeRunStep(w: Windows, results: seq<ListingRecord>, main: Handle, world: (nat, nat) -> Attempt,
                      i: nat, count: nat, n: nat)
    requires i < count
    ensures var l := ListingSpec(w, main, world, i, 0, n);
      ResumeRun(w, results, main, world, i, count, n) == ResumeRun(l.windows, results + l.records, main, world, i + 1, count, n)
  {
    var l := ListingSpec(w, main, world, i, 0, n);
    RunFirstListing(w, main, world, i, count, n);
    ConcatAssoc(results, l.records, RunSpec(l.windows, main, world, i + 1, count, n).records);
  }

  /** `scrape_main_page` on an already created driver; the driver is quit on both exits. */
  method ScrapeMainPage(d: Driver, page: Page, limit: int, retries: int) returns (results: seq<ListingRecord>)
    modifies d
    ensures var p := ScrapeSpec(old(d.State()), page, limit, retries);
      results == p.records && d.State() == p.windows
    ensures d.quitCalls == old(d.quitCalls) + 1
  {
    if !page.loads || d.focus !in d.handles {
      d.Quit();
      return [];
    }
    var main := d.focus;
    var count := Processed(page.found, limit);
    var n := Attempts(retries);
    ghost var total := RunSpec(d.State(), main, page.world, 0, count, n);
    EmptyConcat(total.records);
    results := [];
    var i := 0;
    while i < count
      invariant i <= count && d.quitCalls == old(d.quitCalls)
      invariant ResumeRun(d.State(), results, main, page.world, i, count, n) == total
    {
      ghost var w := d.State();
      ResumeRunStep(w, results, main, page.world, i, count, n);
      var records := ProcessListing(d, main, page.world, i, n);
      results := results + records;
      i := i + 1;
    }
    EmptyConcat(results);
    d.Quit();
  }

  // ------------------------------------------------------------ properties of the retry loop

  /** Only attempts below `n` of listing `i` are consulted: two oracles that agree on them give the same outcome. */
  lemma {:induction false} ListingUsesOnlyItsAttempts(w: Windows, main: Handle, world1: (nat, nat) -> Attempt,
                                                      world2: (nat, nat) -> Attempt, i: nat, k: nat, n: nat)
    requires k <= n
    requires forall k' :: k <= k' < n ==> world1(i, k') == world2(i, k')
    ensures ListingSpec(w, main, world1, i, k, n) == ListingSpec(w, main, world2, i, k, n)
    decreases n - k
  {
    if k < n {
      var o := AttemptSpec(w, main, world1(i, k));
      if !o.success {
        ListingUsesOnlyItsAttempts(o.windows, main, world1, world2, i, k + 1, n);
      }
      ListingSameStep(w, main, world1, world2, i, k, n);
    }
  }

  lemma ListingSameStep(w: Windows, main: Handle, world1: (nat, nat) -> Attempt,
                        world2: (nat, nat) -> Attempt, i: nat, k: nat, n: nat)
    requires k < n && world1(i, k) == world2(i, k)
    requires var o := AttemptSpec(w, main, world1(i, k));
      !o.success ==> ListingSpec(o.windows, main, world1, i, k + 1, n) == ListingSpec(o.windows, main, world2, i, k + 1, n)
    ensures ListingSpec(w, main, world1, i, k, n) == ListingSpec(w, main, world2, i, k, n)
  {
    ListingFirstAttempt(w, main, world1, i, k, n);
    ListingFirstAttempt(w, main, world2, i, k, n);
  }

  /** One unfolding of the retry loop. */
  lemma ListingFirstAttempt(w: Windows, main: Handle, world: (nat, nat) -> Attempt, i: nat, k: nat, n: nat)
    requires k < n
    ensures var o := AttemptSpec(w, main, world(i, k));
      ListingSpec(w, main, world, i, k, n)
      == if o.success then Progress(o.windows, o.appended)
         else var rest := ListingSpec(o.windows, main, world, i, k + 1, n);
              Progress(rest.windows, o.appended + rest.records)
  {
  }

  /** Once an attempt succeeds no later attempt of that listing is consulted. */
  lemma SuccessEndsRetries(w: Windows, main: Handle, world1: (nat, nat) -> Attempt,
                           world2: (nat, nat) -> Attempt, i: nat, k: nat, n: nat)
    requires k < n && world1(i, k) == world2(i, k)
    requires AttemptSpec(w, main, world1(i, k)).success
    ensures ListingSpec(w, main, world1, i, k, n) == ListingSpec(w, main, world2, i, k, n)
    ensures ListingSpec(w, main, world1, i, k, n).records == AttemptSpec(w, main, world1(i, k)).appended
  {
  }

  /** One listing of the outer loop, given the progress `l` it makes. */
  lemma RunSpecStep(w: Windows, main: Handle, world: (nat, nat) -> Attempt, i: nat, count: nat, n: nat, l: Progress)
    requires i < count && l == ListingSpec(w, main, world, i, 0, n)
    ensures var rest := RunSpec(l.windows, main, world, i + 1, count, n);
      RunSpec(w, main, world, i, count, n) == Progress(rest.windows, l.records + rest.records)
  {
  }

  lemma {:induction false} RunUsesOnlyFirstListings(w: Windows, main: Handle, world1: (nat, nat) -> Attempt,
                                                    world2: (nat, nat) -> Attempt, i: nat, count: nat, n: nat)
    requires i <= count
    requires forall i': nat, k': nat :: i <= i' < count && k' < n ==> world1(i', k') == world2(i', k')
    ensures RunSpec(w, main, world1, i, count, n) == RunSpec(w, main, world2, i, count, n)
    decreases count - i
  {
    if i < count {
      var l := ListingSpec(w, main, world1, i, 0, n);
      RunUsesOnlyFirstListings(l.windows, main, world1, world2, i + 1, count, n);
      RunUsesFirstListingStep(w, main, world1, world2, i, count, n);
    }
  }

  /** The step of `RunUsesOnlyFirstListings`: listing `i` agrees, and so do the later ones. */
  lemma RunUsesFirstListingStep(w: Windows, main: Handle, world1: (nat, nat) -> Attempt,
                                world2: (nat, nat) -> Attempt, i: nat, count: nat, n: nat)
    requires i < count
    requires forall k' :: 0 <= k' < n ==> world1(i, k') == world2(i, k')
    requires var l := ListingSpec(w, main, world1, i, 0, n);
      RunSpec(l.windows, main, world1, i + 1, count, n) == RunSpec(l.windows, main, world2, i + 1, count, n)
    ensures RunSpec(w, main, world1, i, count, n) == RunSpec(w, main, world2, i, count, n)
  {
    ListingUsesOnlyItsAttempts(w, main, world1, world2, i, 0, n);
    var l := ListingSpec(w, main, world1, i, 0, n);
    RunSpecStep(w, main, world1, i, count, n, l);
    RunSpecStep(w, main, world2, i, count, n, l);
  }


  /** At most `limit` listings and at most `retries` attempts each are looked at: pages that agree
      there give the same results. */
  lemma ScrapeUsesOnlyLimitAndRetries(w: Windows, page1: Page, page2: Page, limit: int, retries: int)
    requires page1.loads == page2.loads && page1.found == page2.found
    requires forall i: nat, k: nat :: i < Processed(page1.found, limit) && k < Attempts(retries) ==>
               page1.world(i, k) == page2.world(i, k)
    ensures ScrapeSpec(w, page1, limit, retries) == ScrapeSpec(w, page2, limit, retries)
  {
    if page1.loads && w.focus in w.handles {
      RunUsesOnlyFirstListings(w, w.focus, page1.world, page2.world, 0, Processed(page1.found, limit), Attempts(retries));
    }
  }

  /** A listing whose every attempt fails before the record is built adds nothing and leaves the windows alone. */
  lemma {:induction false} ListingAllFailNoRecord(w: Windows, main: Handle, world: (nat, nat) -> Attempt, i: nat, k: nat, n: nat)
    requires k <= n
    requires forall k' :: k <= k' < n ==> ExtractFields(world(i, k')).Err? || !world(i, k').clickOk
    ensures ListingSpec(w, main, world, i, k, n) == Progress(w, [])
    decreases n - k
  {
    if k < n {
      ListingAllFailNoRecord(w, main, world, i, k + 1, n);
    }
  }

  /** An attempt that opens a tab from the idle main window, and reaches the append, succeeds:
      one record, and the browser is idle on the main window again. */
  lemma CleanAttemptRestoresMain(w: Windows, main: Handle, a: Attempt)
    requires w.Valid() && w.Idle(main)
    requires ExtractFields(a).Ok? && a.clickOk && a.opensTab && a.url.Some?
    ensures var o := AttemptSpec(w, main, a);
      o.success && o.windows.Idle(main) && o.windows.Valid() && o.windows.next == w.next + 1
      && o.appended == [MakeRecord(ExtractFields(a).value, a.url.value)]
  {
    var w1 := OpenedTab(w);
    assert w1.handles == [main, w.next];
    assert main != w.next;
    WithoutLast([main], w.next);
  }

  /** The failure path does not clean up: when the URL cannot be read, the detail tab stays open and focused. */
  lemma UrlFailureLeavesTabFocused(w: Windows, main: Handle, a: Attempt)
    requires w.Valid() && w.Idle(main)
    requires ExtractFields(a).Ok? && a.clickOk && a.opensTab && a.url.None?
    ensures var o := AttemptSpec(w, main, a);
      !o.success && o.appended == [] && o.windows.handles == [main, w.next] && o.windows.focus == w.next
      && o.windows.focus != main
  {
  }

  /** With a well-behaved browser every listing yields at most one record and the browser stays idle on `main`. */
  lemma {:induction false} CleanListingAtMostOne(w: Windows, main: Handle, world: (nat, nat) -> Attempt, i: nat, k: nat, n: nat)
    requires w.Valid() && w.Idle(main)
    requires k <= n
    requires forall k' :: k <= k' < n ==> world(i, k').opensTab && world(i, k').url.Some?
    ensures var p := ListingSpec(w, main, world, i, k, n);
      |p.records| <= 1 && p.windows.Valid() && p.windows.Idle(main)
    decreases n - k
  {
    if k < n {
      var a := world(i, k);
      if !(ExtractFields(a).Ok? && a.clickOk) {
        CleanListingAtMostOne(w, main, world, i, k + 1, n);
      }
      CleanListingStep(w, main, world, i, k, n);
    }
  }

  /** One attempt of `CleanListingAtMostOne`: a success ends the listing cleanly, a failure leaves
      the windows alone for the next attempt. */
  lemma CleanListingStep(w: Windows, main: Handle, world: (nat, nat) -> Attempt, i: nat, k: nat, n: nat)
    requires w.Valid() && w.Idle(main) && k < n
    requires world(i, k).opensTab && world(i, k).url.Some?
    requires !(ExtractFields(world(i, k)).Ok? && world(i, k).clickOk) ==>
      var p := ListingSpec(w, main, world, i, k + 1, n);
      |p.records| <= 1 && p.windows.Valid() && p.windows.Idle(main)
    ensures var p := ListingSpec(w, main, world, i, k, n);
      |p.records| <= 1 && p.windows.Valid() && p.windows.Idle(main)
  {
    var a := world(i, k);
    ListingFirstAttempt(w, main, world, i, k, n);
    if ExtractFields(a).Ok? && a.clickOk {
      CleanAttemptRestoresMain(w, main, a);
    }
  }

  /** Away from the main window no lookup succeeds: once the main window is closed or another window
      has the focus, the remaining attempts of a listing append nothing and leave the windows alone. */
  lemma {:induction false} ListingOffMainNothing(w: Windows, main: Handle, world: (nat, nat) -> Attempt,
                                                 i: nat, k: nat, n: nat)
    requires k <= n
    requires w.focus != main || main !in w.handles
    ensures ListingSpec(w, main, world, i, k, n) == Progress(w, [])
    decreases n - k
  {
    if k < n {
      ListingOffMainNothing(w, main, world, i, k + 1, n);
    }
  }

  /** The same for every remaining listing of the run. */
  lemma {:induction false} RunOffMainNothing(w: Windows, main: Handle, world: (nat, nat) -> Attempt,
                                             i: nat, count: nat, n: nat)
    requires i <= count
    requires w.focus != main || main !in w.handles
    ensures RunSpec(w, main, world, i, count, n) == Progress(w, [])
    decreases count - i
  {
    if i < count {
      ListingOffMainNothing(w, main, world, i, 0, n);
      RunOffMainNothing(w, main, world, i + 1, count, n);
    }
  }

  /** When the click does not open a tab, the attempt records the listing and then closes the main window itself. */
  lemma AttemptWithoutTabClosesMain(w: Windows, main: Handle, a: Attempt)
    requires w.Idle(main)
    requires ExtractFields(a).Ok? && a.clickOk && !a.opensTab && a.url.Some?
    ensures var o := AttemptSpec(w, main, a);
      o.windows.handles == [] && o.appended == [MakeRecord(ExtractFields(a).value, a.url.value)] && !o.success
  {
    assert Without([main], main) == [];
  }

  /** The record is appended before the tab is closed, so when the first listing's detail page
      does not open in a new tab the main window itself is closed: the scrape returns that one
      record, and every later attempt and listing adds nothing. */
  lemma ClickWithoutTabEndsScrape(page: Page, limit: int, retries: int)
    requires page.loads && Processed(page.found, limit) >= 1 && retries >= 1
    requires var a := page.world(0, 0); ExtractFields(a).Ok? && a.clickOk && !a.opensTab && a.url.Some?
    ensures var p := ScrapeSpec(Fresh(), page, limit, retries);
      p.records == [MakeRecord(ExtractFields(page.world(0, 0)).value, page.world(0, 0).url.value)]
      && p.windows.handles == []
  {
    FirstAttemptEndsScrape(Fresh(), 0, page.world, Processed(page.found, limit), Attempts(retries));
    AttemptWithoutTabClosesMain(Fresh(), 0, page.world(0, 0));
  }

  /** When the first listing's URL cannot be read the detail tab stays open and focused, so the
      scrape returns no record at all and leaves both windows open. */
  lemma UrlFailureEndsScrape(page: Page, limit: int, retries: int)
    requires page.loads && Processed(page.found, limit) >= 1 && retries >= 1
    requires var a := page.world(0, 0); ExtractFields(a).Ok? && a.clickOk && a.opensTab && a.url.None?
    ensures var p := ScrapeSpec(Fresh(), page, limit, retries);
      p.records == [] && p.windows.handles == [0, 1] && p.windows.focus == 1
  {
    FirstAttemptEndsScrape(Fresh(), 0, page.world, Processed(page.found, limit), Attempts(retries));
    UrlFailureLeavesTabFocused(Fresh(), 0, page.world(0, 0));
  }

  /** A first attempt that fails and leaves the main window closed or unfocused decides the whole run. */
  lemma FirstAttemptEndsScrape(w: Windows, main: Handle, world: (nat, nat) -> Attempt, count: nat, n: nat)
    requires 0 < count && 0 < n
    requires var o := AttemptSpec(w, main, world(0, 0));
      !o.success && (o.windows.focus != main || main !in o.windows.handles)
    ensures var o := AttemptSpec(w, main, world(0, 0));
      RunSpec(w, main, world, 0, count, n) == Progress(o.windows, o.appended)
  {
    var o := AttemptSpec(w, main, world(0, 0));
    ListingFirstAttempt(w, main, world, 0, 0, n);
    ListingOffMainNothing(o.windows, main, world, 0, 1, n);
    EmptyConcat(o.appended);
    RunFirstListing(w, main, world, 0, count, n);
    RunOffMainNothing(o.windows, main, world, 1, count, n);
    EmptyConcat(o.appended);
  }

  /** A listing whose first two attempts fail to extract and whose third goes through yields exactly
      the third attempt's record, with the browser idle on the main window again. */
  lemma ThirdAttemptSucceeds(w: Windows, main: Handle, world: (nat, nat) -> Attempt, i: nat)
    requires w.Valid() && w.Idle(main)
    requires ExtractFields(world(i, 0)).Err? && ExtractFields(world(i, 1)).Err?
    requires var a := world(i, 2); ExtractFields(a).Ok? && a.clickOk && a.opensTab && a.url.Some?
    ensures var p := ListingSpec(w, main, world, i, 0, 3);
      p.records == [MakeRecord(ExtractFields(world(i, 2)).value, world(i, 2).url.value)] && p.windows.Idle(main)
  {
    CleanAttemptRestoresMain(w, main, world(i, 2));
    assert ListingSpec(w, main, world, i, 0, 3) == ListingSpec(w, main, world, i, 1, 3);
    assert ListingSpec(w, main, world, i, 1, 3) == ListingSpec(w, main, world, i, 2, 3);
  }

  /** An index page without listings yields no records (and is not an error). */
  lemma NoListingsNoRecords(w: Windows, page: Page, limit: int, retries: int)
    requires page.found == 0
    ensures ScrapeSpec(w, page, limit, retries).records == []
  {
  }

  /** Two listings on a freshly started browser, both clean, the second without a description: two
      records in page order, the second with no description. */
  lemma TwoListingsEndToEnd(page: Page, limit: int)
    requires page.loads && page.found == 2 && limit >= 2
    requires forall i: nat :: i < 2 ==>
      var a := page.world(i, 0); ExtractFields(a).Ok? && a.clickOk && a.opensTab && a.url.Some?
    requires page.world(1, 0).description.None?
    ensures var r := ScrapeSpec(Fresh(), page, limit, 3).records;
      |r| == 2
      && r[0] == MakeRecord(ExtractFields(page.world(0, 0)).value, page.world(0, 0).url.value)
      && r[1] == MakeRecord(ExtractFields(page.world(1, 0)).value, page.world(1, 0).url.value)
      && r[1].description.None?
  {
    var w := Fresh();
    assert ScrapeSpec(w, page, limit, 3) == RunSpec(w, 0, page.world, 0, 2, 3) by {
      assert Processed(2, limit) == 2 && Attempts(3) == 3;
    }
    assert w.Valid() && w.Idle(0);
    TwoCleanListings(w, 0, page.world, 3);
  }

  /** Two listings whose first attempts are clean, from the idle main window: one record each, in order. */
  lemma TwoCleanListings(w: Windows, main: Handle, world: (nat, nat) -> Attempt, n: nat)
    requires n >= 1 && w.Valid() && w.Idle(main)
    requires var a := world(0, 0); ExtractFields(a).Ok? && a.clickOk && a.opensTab && a.url.Some?
    requires var a := world(1, 0); ExtractFields(a).Ok? && a.clickOk && a.opensTab && a.url.Some?
    ensures RunSpec(w, main, world, 0, 2, n).records
      == [MakeRecord(ExtractFields(world(0, 0)).value, world(0, 0).url.value),
          MakeRecord(ExtractFields(world(1, 0)).value, world(1, 0).url.value)]
  {
    var w1 := CleanListingThenRest(w, main, world, 0, 2, n);
    var w2 := CleanListingThenRest(w1, main, world, 1, 2, n);
    TwoThenEmpty(MakeRecord(ExtractFields(world(0, 0)).value, world(0, 0).url.value),
                 MakeRecord(ExtractFields(world(1, 0)).value, world(1, 0).url.value),
                 RunSpec(w2, main, world, 2, 2, n).records);
  }

  /** A listing whose first attempt is clean contributes its one record ahead of the later listings,
      which start from the idle main window `rest`. */
  lemma CleanListingThenRest(w: Windows, main: Handle, world: (nat, nat) -> Attempt, i: nat, count: nat, n: nat)
    returns (rest: Windows)
    requires i < count && n >= 1 && w.Valid() && w.Idle(main)
    requires var a := world(i, 0); ExtractFields(a).Ok? && a.clickOk && a.opensTab && a.url.Some?
    ensures rest.Valid() && rest.Idle(main)
    ensures RunSpec(w, main, world, i, count, n).records
      == [MakeRecord(ExtractFields(world(i, 0)).value, world(i, 0).url.value)]
         + RunSpec(rest, main, world, i + 1, count, n).records
  {
    var l := CleanFirstAttemptListing(w, main, world, i, n);
    RunFirstListing(w, main, world, i, count, n);
    rest := l.windows;
  }

  /** A listing whose first attempt is clean yields that attempt's record and ends idle on `main`. */
  lemma CleanFirstAttemptListing(w: Windows, main: Handle, world: (nat, nat) -> Attempt, i: nat, n: nat) returns (p: Progress)
    requires n >= 1 && w.Valid() && w.Idle(main)
    requires var a := world(i, 0); ExtractFields(a).Ok? && a.clickOk && a.opensTab && a.url.Some?
    ensures p == ListingSpec(w, main, world, i, 0, n)
    ensures p.records == [MakeRecord(ExtractFields(world(i, 0)).value, world(i, 0).url.value)]
    ensures p.windows.Valid() && p.windows.Idle(main)
  {
    CleanAttemptRestoresMain(w, main, world(i, 0));
    ListingFirstAttempt(w, main, world, i, 0, n);
    p := ListingSpec(w, main, world, i, 0, n);
  }

  /** One unfolding of the listing loop. */
  lemma RunFirstListing(w: Windows, main: Handle, world: (nat, nat) -> Attempt, i: nat, count: nat, n: nat)
    requires i < count
    ensures var l := ListingSpec(w, main, world, i, 0, n);
      RunSpec(w, main, world, i, count, n).records == l.records + RunSpec(l.windows, main, world, i + 1, count, n).records
  {
  }

  // ------------------------------------------------------------ storing

  /** A stored document: field name to value, `None` for Python's `None`. */
  type Document = map<string, Option<string>>

  /** The dictionary built at lines 150-160. */
  function ToDocument(r: ListingRecord): (doc: Document)
    ensures |doc| == 7
    ensures "title" in doc && doc["title"] == Some(r.title)
    ensures "location" in doc && doc["location"] == Some(r.location)
    ensures "price" in doc && doc["price"] == Some(r.price)
    ensures "size" in doc && doc["size"] == Some(r.size)
    ensures "date" in doc && doc["date"] == Some(r.date)
    ensures "description" in doc && doc["description"] == r.description
    ensures "url" in doc && doc["url"] == Some(r.url)
  {
    var doc := map["title" := Some(r.title), "location" := Some(r.location), "price" := Some(r.price),
                   "size" := Some(r.size), "date" := Some(r.date), "description" := r.description,
                   "url" := Some(r.url)];
    doc
  }

  /** The document store; only `insert_one` is modelled. */
  class Collection {
    var documents: seq<Document>

    constructor ()
      ensures documents == []
    {
      documents := [];
    }

    method InsertOne(doc: Document)
      modifies this
      ensures documents == old(documents) + [doc]
    {
      documents := documents + [doc];
    }
  }

  /** `store_data`: one `insert_one` for a non-empty document; an empty one is only reported. */
  method StoreData(c: Collection, data: Document) returns (reportedEmpty: bool)
    modifies c
    ensures c.documents == if |data| > 0 then old(c.documents) + [data] else old(c.documents)
    ensures reportedEmpty <==> |data| == 0
  {
    if |data| > 0 {
      c.InsertOne(data);
      reportedEmpty := false;
    } else {
      reportedEmpty := true;
    }
  }

  /** Lines 192-193 of `main`: every scraped record is stored, in order, since none is empty. */
  method StoreAll(c: Collection, records: seq<ListingRecord>)
    modifies c
    ensures c.documents == old(c.documents) + seq(|records|, k requires 0 <= k < |records| => ToDocument(records[k]))
  {
    var i := 0;
    while i < |records|
      invariant i <= |records|
      invariant c.documents == old(c.documents) + seq(i, k requires 0 <= k < i => ToDocument(records[k]))
    {
      var reported := StoreData(c, ToDocument(records[i]));
      i := i + 1;
    }
  }
}
