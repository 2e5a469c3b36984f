/** The zoning scraper (`auto_scrape_zones.py`): name cleaning and filtering,
    the per-link tab handling of the three site scrapers, and the per-URL loop
    of `main`. The pages are inputs: each link carries its texts and what
    happens when it is visited. */
module Zones {
  import opened Wrappers
  import opened Text
  import opened Browser

  // ------------------------------------------------------------ names

  /** `is_valid_name`: false exactly when the name has a '.' (a sentence break) or its stripped,
      lower-cased form starts with "district". */
  function IsValidName(name: string): (r: bool)
    ensures r <==> '.' !in name && !StartsWith(Lower(Strip(name)), "district")
  {
    var sentences := SplitOn(name, '.');
    SplitOnManyIff(name, '.');
    if |sentences| > 1 then false
    else if StartsWith(Lower(Strip(name)), "district") then false
    else true
  }

  /** `clean_name`: drop everything up to the first '-', strip, drop one more leading '-', strip. */
  function CleanName(name: string): (r: string)
    ensures r == [] || (!IsSpace(r[0]) && !IsSpace(r[|r| - 1]))
  {
    var parts := SplitMax(name, '-', 1);
    var n1 := Strip(parts[|parts| - 1]);
    if StartsWith(n1, "-") then Strip(n1[1..]) else n1
  }

  /** Without a '-', `clean_name` only strips whitespace. */
  lemma CleanNameNoHyphen(name: string)
    requires '-' !in name
    ensures CleanName(name) == Strip(name)
  {
    assert SplitMax(name, '-', 1) == [name];
    var n1 := Strip(name);
    StripHasNoNewChars(name, '-');
    assert !StartsWith(n1, "-");
  }

  /** With a '-', `clean_name` keeps what follows the first one, stripped, minus one further leading '-', stripped again. */
  lemma CleanNameAfterHyphen(name: string, i: nat)
    requires FirstIndex(name, '-') == Some(i)
    ensures var s := Strip(name[i + 1..]);
      CleanName(name) == if s != [] && s[0] == '-' then Strip(s[1..]) else s
  {
    var parts := SplitMax(name, '-', 1);
    assert parts == [name[..i]] + SplitMax(name[i + 1..], '-', 0);
    assert parts[|parts| - 1] == name[i + 1..];
    var s := Strip(name[i + 1..]);
    assert CleanName(name) == if StartsWith(s, "-") then Strip(s[1..]) else s;
    StartsWithChar(s, '-');
  }

  lemma StartsWithChar(s: string, c: char)
    ensures StartsWith(s, [c]) <==> s != [] && s[0] == c
  {
    if s != [] {
      assert s[..1] == [s[0]];
    }
  }

  lemma StripHasNoNewChars(s: string, c: char)
    requires c !in s
    ensures c !in Strip(s)
  {
  }

  /** The Albion and Algona filter: the cleaned name mentions "district" and is valid. */
  predicate KeepDistrict(name: string): (r: bool)
    ensures r <==> Contains(Lower(name), "district") && '.' !in name
                   && !StartsWith(Lower(Strip(name)), "district")
  {
    Contains(Lower(name), "district") && IsValidName(name)
  }

  /** A kept district name contains "district" (ignoring case) but does not start with it, and has no '.'. */
  lemma KeptDistrictName(raw: string)
    requires KeepDistrict(CleanName(raw))
    ensures var n := CleanName(raw);
      Contains(Lower(n), "district") && !StartsWith(Lower(n), "district") && '.' !in n
  {
    var n := CleanName(raw);
    StripStripped(n);
  }

  // ------------------------------------------------------------ the page, abstracted

  datatype Site = AirwayHeights | Albion | Algona

  /** Outcome of `window.open(href, '_blank')`. */
  datatype OpenResult = Opened | Blocked | Raised

  /** Outcome of the description lookup on the opened tab. */
  datatype Lookup = Elements(texts: seq<string>) | NoSuchElement | LookupFailed

  /** One link of the list page: its text, the `span[2]` text (Algona only; `None` when missing),
      its `href`, and what happens when it is visited. */
  datatype Link = Link(text: string, span: Option<string>, href: string, open: OpenResult, lookup: Lookup)

  /** One output entry. */
  datatype Zone = Zone(name: string, description: string, link: string)

  /** Exceptions that escape a site scraper and reach `main`'s handler. */
  datatype SiteError = NameIndexError | NoNameSpan | WindowError

  const DescriptionNotFound: string := "Description not found"

  /** The name a site scraper derives from a link: `Ok(None)` when the link is skipped,
      `Err` when the derivation raises (outside the per-link `try`). */
  function ZoneName(site: Site, link: Link): (r: Result<Option<string>, SiteError>)
    ensures site == Algona ==> (r.Err? <==> link.span.None?)
    ensures site == AirwayHeights ==> (r.Err? <==> ' ' !in Strip(link.text))
    ensures site != Algona && r.Err? ==> r.error == NameIndexError
    ensures site != AirwayHeights && r.Ok? && r.value.Some? ==> KeepDistrict(r.value.value)
  {
    match site
    case AirwayHeights =>
      var parts := SplitMax(Strip(link.text), ' ', 1);
      if |parts| < 2 then Err(NameIndexError)
      else if Contains(parts[1], "Zone Classifications") then Ok(None)
      else Ok(Some(parts[1]))
    case Albion =>
      var parts := SplitMax(Strip(link.text), ' ', 2);
      if |parts| < 3 then Err(NameIndexError)
      else
        var name := CleanName(parts[2]);
        if KeepDistrict(name) then Ok(Some(name)) else Ok(None)
    case Algona =>
      match link.span
      case None => Err(NoNameSpan)
      case Some(t) =>
        var name := CleanName(Strip(t));
        if KeepDistrict(name) then Ok(Some(name)) else Ok(None)
  }

  /** The Airway Heights name is the text after the first space of the stripped link text; a text
      without a space raises, and names mentioning "Zone Classifications" are skipped. */
  lemma AirwayHeightsName(link: Link)
    ensures var t := Strip(link.text);
      match FirstIndex(t, ' ')
      case None => ZoneName(AirwayHeights, link) == Err(NameIndexError)
      case Some(i) =>
        ZoneName(AirwayHeights, link)
        == if Contains(t[i + 1..], "Zone Classifications") then Ok(None) else Ok(Some(t[i + 1..]))
  {
  }

  /** Albion raises on a stripped link text with fewer than two spaces. */
  lemma AlbionNameRaises(link: Link)
    requires var t := Strip(link.text);
      FirstIndex(t, ' ').None? || FirstIndex(t[FirstIndex(t, ' ').value + 1..], ' ').None?
    ensures ZoneName(Albion, link) == Err(NameIndexError)
  {
    SplitMaxTwo(Strip(link.text), ' ');
  }

  /** Otherwise the Albion name is the cleaned text after the second space (`i` and `i + 1 + j`
      are the first two spaces), kept when it passes the district filter. */
  lemma AlbionName(link: Link, i: nat, j: nat)
    requires var t := Strip(link.text);
      FirstIndex(t, ' ') == Some(i) && FirstIndex(t[i + 1..], ' ') == Some(j)
    ensures var name := CleanName(Strip(link.text)[i + 1..][j + 1..]);
      ZoneName(Albion, link) == if KeepDistrict(name) then Ok(Some(name)) else Ok(None)
  {
    var t := Strip(link.text);
    SplitMaxTwoThird(t, ' ', i, j);
    AlbionThirdPiece(link, t[i + 1..][j + 1..]);
  }

  lemma AlbionThirdPiece(link: Link, rest: string)
    requires var parts := SplitMax(Strip(link.text), ' ', 2); |parts| == 3 && parts[2] == rest
    ensures var name := CleanName(rest);
      ZoneName(Albion, link) == if KeepDistrict(name) then Ok(Some(name)) else Ok(None)
  {
  }

  /** The Algona name is the cleaned, stripped `span[2]` text, kept exactly when it passes the
      district filter. */
  lemma AlgonaName(link: Link)
    requires link.span.Some?
    ensures var name := CleanName(Strip(link.span.value));
      ZoneName(Algona, link) == if KeepDistrict(name) then Ok(Some(name)) else Ok(None)
  {
  }

  /** Every name the Albion and Algona scrapers keep is a valid district name. */
  lemma DistrictNamesFiltered(site: Site, link: Link)
    requires site != AirwayHeights
    requires ZoneName(site, link).Ok? && ZoneName(site, link).value.Some?
    ensures var n := ZoneName(site, link).value.value;
      Contains(Lower(n), "district") && !StartsWith(Lower(n), "district") && '.' !in n
  {
    if site == Albion {
      KeptDistrictName(SplitMax(Strip(link.text), ' ', 2)[2]);
    } else {
      KeptDistrictName(Strip(link.span.value));
    }
  }

  /** The description a site reads on the opened tab; `None` when the lookup raises something
      other than NoSuchElementException. Albion uses `find_element` (first match; none raises
      NoSuchElementException), the others join all matches with spaces. */
  function Description(site: Site, lookup: Lookup): (r: Option<string>)
    ensures r.None? <==> lookup.LookupFailed?
    ensures lookup.NoSuchElement? ==> r == Some(DescriptionNotFound)
    ensures lookup.Elements? && site != Albion ==> r == Some(Join(lookup.texts, " "))
    ensures lookup.Elements? && site == Albion ==>
      r == Some(if lookup.texts == [] then DescriptionNotFound else lookup.texts[0])
  {
    match lookup
    case NoSuchElement => Some(DescriptionNotFound)
    case LookupFailed => None
    case Elements(texts) =>
      if site == Albion then (if texts == [] then Some(DescriptionNotFound) else Some(texts[0]))
      else Some(Join(texts, " "))
  }

  // ------------------------------------------------------------ one link visit

  /** Windows after a visit, the entry appended (if any), and whether an exception escaped the
      `except` block (which ends the whole site). */
  datatype VisitOutcome = VisitOutcome(windows: Windows, appended: seq<Zone>, escaped: bool)

  /** The `try` block: open, switch to `window_handles[1]`, look up, append, close, switch to
      `window_handles[0]`. `ok` is false when something in it raised. */
  datatype TryOutcome = TryOutcome(windows: Windows, appended: seq<Zone>, ok: bool)

  function TrySpec(site: Site, w: Windows, name: string, link: Link): (t: TryOutcome)
    ensures |t.appended| <= 1
  {
    if link.open == Raised then TryOutcome(w, [], false)
    else
      var w1 := if link.open == Opened then OpenedTab(w) else w;
      if |w1.handles| < 2 then TryOutcome(w1, [], false)
      else
        match SwitchedTo(w1, w1.handles[1])
        case None => TryOutcome(w1, [], false)
        case Some(w2) =>
          match Description(site, link.lookup)
          case None => TryOutcome(w2, [], false)
          case Some(desc) =>
            var zone := [Zone(name, desc, link.href)];
            match CloseFocused(w2)
            case None => TryOutcome(w2, zone, false)
            case Some(w3) =>
              if w3.handles == [] then TryOutcome(w3, zone, false)
              else
                match SwitchedTo(w3, w3.handles[0])
                case None => TryOutcome(w3, zone, false)
                case Some(w4) => TryOutcome(w4, zone, true)
  }

  /** The `except` block: close the focused window, switch to `window_handles[0]`; either step can raise. */
  function CleanupSpec(w: Windows): (r: Result<Windows, Windows>)
    ensures w.focus !in w.handles ==> r == Err(w)
    ensures w.Valid() ==> (r.Ok? <==> w.focus in w.handles && |w.handles| >= 2)
    ensures r.Ok? ==> r.value.handles != [] && r.value.focus == r.value.handles[0]
    ensures r.Ok? ==> forall y :: y in r.value.handles <==> y in w.handles && y != w.focus
  {
    match CloseFocused(w)
    case None => Err(w)
    case Some(w1) =>
      if w1.handles == [] then Err(w1)
      else
        match SwitchedTo(w1, w1.handles[0])
        case None => Err(w1)
        case Some(w2) => Ok(w2)
  }

  function VisitSpec(site: Site, w: Windows, name: string, link: Link): (v: VisitOutcome)
    ensures |v.appended| <= 1
  {
    var t := TrySpec(site, w, name, link);
    if t.ok then VisitOutcome(t.windows, t.appended, false)
    else
      match CleanupSpec(t.windows)
      case Ok(w') => VisitOutcome(w', t.appended, false)
      case Err(w') => VisitOutcome(w', t.appended, true)
  }

  /** From the idle main window, a link whose tab opens is always cleaned up: success or a failed
      lookup, the browser is idle on the main window again and nothing escapes. An entry is added
      exactly when the lookup did not fail. */
  lemma VisitRestoresMain(site: Site, w: Windows, main: Handle, name: string, link: Link)
    requires w.Valid() && w.Idle(main) && link.open == Opened
    ensures var v := VisitSpec(site, w, name, link);
      !v.escaped && v.windows.Idle(main) && v.windows.Valid()
      && v.appended == (match Description(site, link.lookup)
                        case None => []
                        case Some(d) => [Zone(name, d, link.href)])
  {
    var w1 := OpenedTab(w);
    assert w1.handles == [main, w.next] && main != w.next;
    assert Without([main, w.next], w.next) == [main];
  }

  /** When `window.open` raises, the `except` block closes the main window itself and then
      `window_handles[0]` raises: the exception escapes and no window is left open. */
  lemma FailedOpenClosesMain(site: Site, w: Windows, main: Handle, name: string, link: Link)
    requires w.Idle(main) && link.open != Opened
    ensures var v := VisitSpec(site, w, name, link);
      v.escaped && v.windows.handles == [] && v.appended == []
  {
    assert Without([main], main) == [];
  }

  // ------------------------------------------------------------ one site

  /** Windows and the site's result after links `i`.. . */
  datatype SiteOutcome = SiteOutcome(windows: Windows, zones: Result<seq<Zone>, SiteError>)

  /** The `for link in ...` loop of one scraper from link `i` on. */
  function SiteSpec(site: Site, w: Windows, links: seq<Link>, i: nat): (o: SiteOutcome)
    requires i <= |links|
    ensures o.zones.Ok? ==> |o.zones.value| <= |links| - i
    decreases |links| - i
  {
    if i == |links| then SiteOutcome(w, Ok([]))
    else
      match ZoneName(site, links[i])
      case Err(e) => SiteOutcome(w, Err(e))
      case Ok(None) => SiteSpec(site, w, links, i + 1)
      case Ok(Some(name)) =>
        var v := VisitSpec(site, w, name, links[i]);
        if v.escaped then SiteOutcome(v.windows, Err(WindowError))
        else Prepend(v.appended, SiteSpec(site, v.windows, links, i + 1))
  }

  /** `zones` collected before an outcome: kept in front of its entries, dropped with its error. */
  function Prepend(zones: seq<Zone>, o: SiteOutcome): (r: SiteOutcome)
    ensures r.windows == o.windows && r.zones.Ok? == o.zones.Ok?
    ensures o.zones.Ok? ==>
      |r.zones.value| == |zones| + |o.zones.value|
      && r.zones.value[..|zones|] == zones && r.zones.value[|zones|..] == o.zones.value
  {
    match o.zones
    case Err(_) => o
    case Ok(zs) => SiteOutcome(o.windows, Ok(zones + zs))
  }

  /** Collecting in two steps is collecting once. */
  lemma PrependTwice(a: seq<Zone>, b: seq<Zone>, o: SiteOutcome)
    ensures Prepend(a, Prepend(b, o)) == Prepend(a + b, o)
  {
    if o.zones.Ok? {
      ConcatAssoc(a, b, o.zones.value);
    }
  }

  /** The entries a site yields when every visit behaves: one per kept link, in link order. */
  function ExpectedZones(site: Site, links: seq<Link>): seq<Zone>
  {
    if links == [] then []
    else
      match ZoneName(site, links[0])
      case Ok(Some(name)) =>
        var d := Description(site, links[0].lookup);
        (if d.Some? then [Zone(name, d.value, links[0].href)] else []) + ExpectedZones(site, links[1..])
      case _ => ExpectedZones(site, links[1..])
  }

  /** Every name derives, and every kept link opens its tab. */
  predicate WellBehaved(site: Site, links: seq<Link>) {
    forall k :: 0 <= k < |links| ==>
      ZoneName(site, links[k]).Ok? && (ZoneName(site, links[k]).value.Some? ==> links[k].open == Opened)
  }

  /** With well-behaved links a site yields exactly the expected entries, in link order, and leaves the
      browser idle on the main window. */
  lemma {:induction false} WellBehavedSite(site: Site, w: Windows, main: Handle, links: seq<Link>, i: nat)
    requires i <= |links| && w.Valid() && w.Idle(main) && WellBehaved(site, links)
    ensures var o := SiteSpec(site, w, links, i);
      o.zones == Ok(ExpectedZones(site, links[i..])) && o.windows.Valid() && o.windows.Idle(main)
    decreases |links| - i
  {
    if i < |links| {
      assert links[i..][0] == links[i] && links[i..][1..] == links[i + 1..];
      match ZoneName(site, links[i])
      case Ok(None) =>
        WellBehavedSite(site, w, main, links, i + 1);
      case Ok(Some(name)) =>
        VisitRestoresMain(site, w, main, name, links[i]);
        var v := VisitSpec(site, w, name, links[i]);
        WellBehavedSite(site, v.windows, main, links, i + 1);
    }
  }

  /** Resuming the site loop at link `i` with `zones` collected. */
  function ResumeSite(site: Site, w: Windows, zones: seq<Zone>, links: seq<Link>, i: nat): SiteOutcome
    requires i <= |links|
  {
    Prepend(zones, SiteSpec(site, w, links, i))
  }

  lemma ResumeSiteRaise(site: Site, w: Windows, zones: seq<Zone>, links: seq<Link>, i: nat, e: SiteError)
    requires i < |links| && ZoneName(site, links[i]) == Err(e)
    ensures ResumeSite(site, w, zones, links, i) == SiteOutcome(w, Err(e))
  {
  }

  lemma ResumeSiteSkip(site: Site, w: Windows, zones: seq<Zone>, links: seq<Link>, i: nat)
    requires i < |links| && ZoneName(site, links[i]) == Ok(None)
    ensures ResumeSite(site, w, zones, links, i) == ResumeSite(site, w, zones, links, i + 1)
  {
  }

  lemma ResumeSiteVisit(site: Site, w: Windows, zones: seq<Zone>, links: seq<Link>, i: nat, name: string)
    requires i < |links| && ZoneName(site, links[i]) == Ok(Some(name))
    ensures var v := VisitSpec(site, w, name, links[i]);
      ResumeSite(site, w, zones, links, i)
      == if v.escaped then SiteOutcome(v.windows, Err(WindowError))
         else ResumeSite(site, v.windows, zones + v.appended, links, i + 1)
  {
    var v := VisitSpec(site, w, name, links[i]);
    if !v.escaped {
      PrependTwice(zones, v.appended, SiteSpec(site, v.windows, links, i + 1));
    }
  }

  lemma ResumeSiteStart(site: Site, w: Windows, links: seq<Link>)
    ensures ResumeSite(site, w, [], links, 0) == SiteSpec(site, w, links, 0)
  {
    var o := SiteSpec(site, w, links, 0);
    if o.zones.Ok? {
      EmptyConcat(o.zones.value);
    }
  }

  lemma ResumeSiteEnd(site: Site, w: Windows, zones: seq<Zone>, links: seq<Link>)
    ensures ResumeSite(site, w, zones, links, |links|) == SiteOutcome(w, Ok(zones))
  {
    EmptyConcat(zones);
  }

  /** One link visit, step by step on the driver. */
  method Visit(d: Driver, site: Site, name: string, link: Link) returns (appended: seq<Zone>, escaped: bool)
    modifies d
    ensures var v := VisitSpec(site, old(d.State()), name, link);
      d.State() == v.windows && appended == v.appended && escaped == v.escaped
    ensures d.quitCalls == old(d.quitCalls)
  {
    var ok;
    appended, ok := Try(d, site, name, link);
    escaped := false;
    if !ok {
      escaped := Cleanup(d);
    }
  }

  /** The `try` block, step by step on the driver; `ok` is false once a step raises. */
  method Try(d: Driver, site: Site, name: string, link: Link) returns (appended: seq<Zone>, ok: bool)
    modifies d
    ensures var t := TrySpec(site, old(d.State()), name, link);
      d.State() == t.windows && appended == t.appended && ok == t.ok
    ensures d.quitCalls == old(d.quitCalls)
  {
    appended := [];
    if link.open == Raised {
      return [], false;
    }
    if link.open == Opened {
      d.OpenTab();
    }
    if |d.handles| < 2 {
      return [], false;
    }
    ok := d.SwitchTo(d.handles[1]);
    if !ok {
      return;
    }
    var desc := Description(site, link.lookup);
    if desc.None? {
      return [], false;
    }
    appended := [Zone(name, desc.value, link.href)];
    ok := d.Close();
    if !ok {
      return;
    }
    if d.handles == [] {
      return appended, false;
    }
    ok := d.SwitchTo(d.handles[0]);
  }

  /** The `except` block, step by step on the driver. */
  method Cleanup(d: Driver) returns (escaped: bool)
    modifies d
    ensures var c := CleanupSpec(old(d.State()));
      escaped == c.Err? && d.State() == (if c.Ok? then c.value else c.error)
    ensures d.quitCalls == old(d.quitCalls)
  {
    var closed := d.Close();
    if !closed || d.handles == [] {
      return true;
    }
    var switched := d.SwitchTo(d.handles[0]);
    return !switched;
  }

  /** The body of a site scraper's `for link in ...` loop for link `i`: derive the name, and visit
      the link when it is kept. `stop` is the exception that ends the site, if any. */
  method ScrapeLink(d: Driver, site: Site, links: seq<Link>, i: nat, zones: seq<Zone>)
    returns (zones': seq<Zone>, stop: Option<SiteError>)
    requires i < |links|
    modifies d
    ensures stop.None? ==>
      ResumeSite(site, old(d.State()), zones, links, i) == ResumeSite(site, d.State(), zones', links, i + 1)
    ensures stop.Some? ==>
      ResumeSite(site, old(d.State()), zones, links, i) == SiteOutcome(d.State(), Err(stop.value))
    ensures d.quitCalls == old(d.quitCalls)
  {
    zones' := zones;
    var name := ZoneName(site, links[i]);
    if name.Err? {
      ResumeSiteRaise(site, d.State(), zones, links, i, name.error);
      return zones', Some(name.error);
    }
    if name.value.None? {
      ResumeSiteSkip(site, d.State(), zones, links, i);
    } else {
      ResumeSiteVisit(site, d.State(), zones, links, i, name.value.value);
      var appended, escaped := Visit(d, site, name.value.value, links[i]);
      if escaped {
        return zones', Some(WindowError);
      }
      zones' := zones + appended;
    }
    stop := None;
  }

  /** `scrape_zones_airway_heights`, `scrape_districts_albion` or `scrape_districts_algona` over the
      links the page lists (the initial `click_element` is abstracted into which links are found). */
  method ScrapeSite(d: Driver, site: Site, links: seq<Link>) returns (r: Result<seq<Zone>, SiteError>)
    modifies d
    ensures var o := SiteSpec(site, old(d.State()), links, 0);
      d.State() == o.windows && r == o.zones
    ensures d.quitCalls == old(d.quitCalls)
  {
    ghost var total := SiteSpec(site, d.State(), links, 0);
    var zones: seq<Zone> := [];
    ResumeSiteStart(site, d.State(), links);
    var i := 0;
    while i < |links|
      invariant i <= |links| && d.quitCalls == old(d.quitCalls)
      invariant ResumeSite(site, d.State(), zones, links, i) == total
    {
      var stop;
      zones, stop := ScrapeLink(d, site, links, i, zones);
      if stop.Some? {
        return Err(stop.value);
      }
      i := i + 1;
    }
    ResumeSiteEnd(site, d.State(), zones, links);
    return Ok(zones);
  }

  // ------------------------------------------------------------ main

  /** Outcome of `find_elements` in `click_element`. */
  datatype FindResult = Found(count: nat) | FindRaised

  /** `click_element`: the index of the element clicked, if any; it never raises. */
  function ClickElement(f: FindResult): (clicked: Option<nat>)
    ensures clicked.Some? <==> f.Found? && f.count > 0
    ensures clicked.Some? ==> clicked.value == 0
  {
    match f
    case FindRaised => None
    case Found(n) => if n > 0 then Some(0) else None
  }

  /** One entry of `urls_xpaths`, with what its page holds. `loads` is false when `driver.get` raises. */
  datatype SiteRun = SiteRun(url: string, site: Site, loads: bool, links: seq<Link>)

  datatype MainOutcome = MainOutcome(windows: Windows, allZones: map<string, seq<Zone>>)

  /** The `for url, xpath, scrape_function in urls_xpaths` loop from entry `i` on. A failure is
      caught and only skips that URL. `driver.get` also raises once the focused window is closed. */
  function MainSpec(w: Windows, runs: seq<SiteRun>, i: nat, allZones: map<string, seq<Zone>>): (o: MainOutcome)
    requires i <= |runs|
    ensures allZones.Keys <= o.allZones.Keys
    decreases |runs| - i
  {
    if i == |runs| then MainOutcome(w, allZones)
    else
      var run := runs[i];
      if !run.loads || w.focus !in w.handles then MainSpec(w, runs, i + 1, allZones)
      else
        var o := SiteSpec(run.site, w, run.links, 0);
        match o.zones
        case Err(_) => MainSpec(o.windows, runs, i + 1, allZones)
        case Ok(zs) => MainSpec(o.windows, runs, i + 1, allZones[run.url := zs])
  }

  /** `all_zones` only gets keys for the URLs in the list. */
  lemma {:induction false} MainKeys(w: Windows, runs: seq<SiteRun>, i: nat, allZones: map<string, seq<Zone>>)
    requires i <= |runs|
    ensures forall url :: url in MainSpec(w, runs, i, allZones).allZones ==>
      url in allZones || exists k :: i <= k < |runs| && runs[k].url == url
    decreases |runs| - i
  {
    if i < |runs| {
      var run := runs[i];
      MainStep(w, runs, i, allZones);
      if !run.loads || w.focus !in w.handles {
        MainKeys(w, runs, i + 1, allZones);
      } else {
        var o := SiteSpec(run.site, w, run.links, 0);
        if o.zones.Err? {
          MainKeys(o.windows, runs, i + 1, allZones);
        } else {
          MainKeys(o.windows, runs, i + 1, allZones[run.url := o.zones.value]);
        }
      }
    }
  }

  /** The body of `main`'s loop for one URL: load it, scrape it, record its entries when the scraper returns. */
  method ScrapeUrl(d: Driver, runs: seq<SiteRun>, i: nat, allZones: map<string, seq<Zone>>)
    returns (allZones': map<string, seq<Zone>>)
    requires i < |runs|
    modifies d
    ensures MainSpec(old(d.State()), runs, i, allZones) == MainSpec(d.State(), runs, i + 1, allZones')
    ensures d.quitCalls == old(d.quitCalls)
  {
    MainStep(d.State(), runs, i, allZones);
    allZones' := allZones;
    var run := runs[i];
    if run.loads && d.focus in d.handles {
      var r := ScrapeSite(d, run.site, run.links);
      if r.Ok? {
        allZones' := allZones[run.url := r.value];
      }
    }
  }

  /** `main` on an already created driver: scrape every URL, then quit. */
  method ScrapeAll(d: Driver, runs: seq<SiteRun>) returns (allZones: map<string, seq<Zone>>)
    modifies d
    ensures var o := MainSpec(old(d.State()), runs, 0, map[]);
      allZones == o.allZones && d.State() == o.windows
    ensures d.quitCalls == old(d.quitCalls) + 1
  {
    ghost var total := MainSpec(d.State(), runs, 0, map[]);
    allZones := map[];
    var i := 0;
    while i < |runs|
      invariant i <= |runs| && d.quitCalls == old(d.quitCalls)
      invariant MainSpec(d.State(), runs, i, allZones) == total
    {
      allZones := ScrapeUrl(d, runs, i, allZones);
      i := i + 1;
    }
    d.Quit();
  }

  lemma MainStep(w: Windows, runs: seq<SiteRun>, i: nat, allZones: map<string, seq<Zone>>)
    requires i < |runs|
    ensures var run := runs[i];
      MainSpec(w, runs, i, allZones)
      == if !run.loads || w.focus !in w.handles then MainSpec(w, runs, i + 1, allZones)
         else
           var o := SiteSpec(run.site, w, run.links, 0);
           if o.zones.Err? then MainSpec(o.windows, runs, i + 1, allZones)
           else MainSpec(o.windows, runs, i + 1, allZones[run.url := o.zones.value])
  {
  }

  /** From link `i` on, the scraper raises on a name before it visits any link: the links are
      skipped until one whose name cannot be derived. */
  predicate RaisesBeforeVisit(site: Site, links: seq<Link>, i: nat)
    decreases |links| - i
  {
    i < |links|
    && (ZoneName(site, links[i]).Err?
        || (ZoneName(site, links[i]) == Ok(None) && RaisesBeforeVisit(site, links, i + 1)))
  }

  /** Such a scraper ends with that error and leaves the windows as they were. */
  lemma {:induction false} RaisesBeforeVisitSite(site: Site, w: Windows, links: seq<Link>, i: nat)
    requires RaisesBeforeVisit(site, links, i)
    ensures var o := SiteSpec(site, w, links, i); o.windows == w && o.zones.Err?
    decreases |links| - i
  {
    if ZoneName(site, links[i]).Err? {
      SiteRaiseStep(site, w, links, i);
    } else {
      SiteSkipStep(site, w, links, i);
      RaisesBeforeVisitSite(site, w, links, i + 1);
    }
  }

  lemma SiteSkipStep(site: Site, w: Windows, links: seq<Link>, i: nat)
    requires i < |links| && ZoneName(site, links[i]) == Ok(None)
    ensures SiteSpec(site, w, links, i) == SiteSpec(site, w, links, i + 1)
  {
  }

  lemma SiteRaiseStep(site: Site, w: Windows, links: seq<Link>, i: nat)
    requires i < |links| && ZoneName(site, links[i]).Err?
    ensures SiteSpec(site, w, links, i) == SiteOutcome(w, Err(ZoneName(site, links[i]).error))
  {
  }

  /** A URL whose page does not load, or whose scraper raises before visiting a link. */
  predicate Quiet(run: SiteRun) {
    !run.loads || RaisesBeforeVisit(run.site, run.links, 0)
  }

  /** A quiet URL is skipped: `all_zones` and the windows stay as they were. */
  lemma QuietRunSkipped(w: Windows, runs: seq<SiteRun>, i: nat, allZones: map<string, seq<Zone>>)
    requires i < |runs| && Quiet(runs[i])
    ensures MainSpec(w, runs, i, allZones) == MainSpec(w, runs, i + 1, allZones)
  {
    var run := runs[i];
    MainStep(w, runs, i, allZones);
    if run.loads && w.focus in w.handles {
      RaisesBeforeVisitSite(run.site, w, run.links, 0);
    }
  }

  /** A quiet run when `quiet` holds, a run that loads and behaves otherwise. */
  predicate QuietOrBehaved(run: SiteRun, quiet: bool) {
    if quiet then Quiet(run) else run.loads && WellBehaved(run.site, run.links)
  }

  /** With the browser idle on `main` and every site either quiet (the indices in `quiet`) or
      loading and well behaved, every URL that is not quiet gets its expected entries: a site's
      result never depends on how earlier sites went, and quiet sites leave the browser idle. */
  lemma {:induction false} WellBehavedMain(w: Windows, main: Handle, runs: seq<SiteRun>, i: nat,
                                           allZones: map<string, seq<Zone>>, quiet: set<nat>)
    requires i <= |runs| && w.Valid() && w.Idle(main)
    requires forall k :: i <= k < |runs| ==> QuietOrBehaved(runs[k], k in quiet)
    ensures var o := MainSpec(w, runs, i, allZones);
      o.windows.Idle(main)
      && forall k :: i <= k < |runs| && LastForUrl(runs, k) && k !in quiet ==>
           runs[k].url in o.allZones && o.allZones[runs[k].url] == ExpectedZones(runs[k].site, runs[k].links)
    decreases |runs| - i, 1
  {
    if i < |runs| {
      if i in quiet {
        QuietRunSkipped(w, runs, i, allZones);
        WellBehavedMainQuiet(w, main, runs, i, allZones, quiet);
      } else {
        var o := WellBehavedFirstRun(w, main, runs, i, allZones);
        WellBehavedMainBusy(w, o.windows, main, runs, i, allZones, quiet);
      }
    }
  }

  /** `WellBehavedMain` when run `i` is quiet, so that the loop goes on from run `i + 1` unchanged. */
  lemma WellBehavedMainQuiet(w: Windows, main: Handle, runs: seq<SiteRun>, i: nat,
                             allZones: map<string, seq<Zone>>, quiet: set<nat>)
    requires i < |runs| && i in quiet && w.Valid() && w.Idle(main)
    requires forall k :: i + 1 <= k < |runs| ==> QuietOrBehaved(runs[k], k in quiet)
    requires MainSpec(w, runs, i, allZones) == MainSpec(w, runs, i + 1, allZones)
    ensures var o := MainSpec(w, runs, i, allZones);
      o.windows.Idle(main)
      && forall k :: i <= k < |runs| && LastForUrl(runs, k) && k !in quiet ==>
           runs[k].url in o.allZones && o.allZones[runs[k].url] == ExpectedZones(runs[k].site, runs[k].links)
    decreases |runs| - i, 0
  {
    WellBehavedMain(w, main, runs, i + 1, allZones, quiet);
    var o := MainSpec(w, runs, i + 1, allZones);
    forall k | i <= k < |runs| && LastForUrl(runs, k) && k !in quiet
      ensures runs[k].url in o.allZones && o.allZones[runs[k].url] == ExpectedZones(runs[k].site, runs[k].links)
    {
      assert k != i;
    }
  }

  /** `WellBehavedMain` when run `i` loads and behaves, so that the loop goes on from run `i + 1`
      on the windows `w'` that run leaves, with its expected entries recorded. */
  lemma WellBehavedMainBusy(w: Windows, w': Windows, main: Handle, runs: seq<SiteRun>, i: nat,
                            allZones: map<string, seq<Zone>>, quiet: set<nat>)
    requires i < |runs| && i !in quiet && w'.Valid() && w'.Idle(main)
    requires forall k :: i + 1 <= k < |runs| ==> QuietOrBehaved(runs[k], k in quiet)
    requires MainSpec(w, runs, i, allZones)
      == MainSpec(w', runs, i + 1, allZones[runs[i].url := ExpectedZones(runs[i].site, runs[i].links)])
    ensures var o := MainSpec(w, runs, i, allZones);
      o.windows.Idle(main)
      && forall k :: i <= k < |runs| && LastForUrl(runs, k) && k !in quiet ==>
           runs[k].url in o.allZones && o.allZones[runs[k].url] == ExpectedZones(runs[k].site, runs[k].links)
    decreases |runs| - i, 0
  {
    var run := runs[i];
    var next := allZones[run.url := ExpectedZones(run.site, run.links)];
    WellBehavedMain(w', main, runs, i + 1, next, quiet);
    if LastForUrl(runs, i) {
      MainKeepsEntry(w', runs, i + 1, next, run.url);
    }
  }

  /** No later run has the same URL as run `k`. */
  predicate LastForUrl(runs: seq<SiteRun>, k: nat)
    requires k < |runs|
  {
    forall j :: k < j < |runs| ==> runs[j].url != runs[k].url
  }

  /** One step of `WellBehavedMain`: the first run yields its expected entries and the loop goes on from there. */
  lemma WellBehavedFirstRun(w: Windows, main: Handle, runs: seq<SiteRun>, i: nat,
                            allZones: map<string, seq<Zone>>) returns (o: SiteOutcome)
    requires i < |runs| && w.Valid() && w.Idle(main)
    requires runs[i].loads && WellBehaved(runs[i].site, runs[i].links)
    ensures o == SiteSpec(runs[i].site, w, runs[i].links, 0)
    ensures o.zones == Ok(ExpectedZones(runs[i].site, runs[i].links)) && o.windows.Valid() && o.windows.Idle(main)
    ensures MainSpec(w, runs, i, allZones) == MainSpec(o.windows, runs, i + 1, allZones[runs[i].url := o.zones.value])
  {
    var run := runs[i];
    WellBehavedSite(run.site, w, main, run.links, 0);
    assert run.links[0..] == run.links;
    o := SiteSpec(run.site, w, run.links, 0);
  }

  /** An entry is never removed, and is only replaced by a later run for the same URL. */
  lemma {:induction false} MainKeepsEntry(w: Windows, runs: seq<SiteRun>, i: nat,
                                          allZones: map<string, seq<Zone>>, url: string)
    requires i <= |runs| && url in allZones
    requires forall j :: i <= j < |runs| ==> runs[j].url != url
    ensures var o := MainSpec(w, runs, i, allZones);
      url in o.allZones && o.allZones[url] == allZones[url]
    decreases |runs| - i
  {
    if i < |runs| {
      var run := runs[i];
      if run.loads && w.focus in w.handles {
        var o := SiteSpec(run.site, w, run.links, 0);
        if o.zones.Ok? {
          MainKeepsEntry(o.windows, runs, i + 1, allZones[run.url := o.zones.value], url);
        } else {
          MainKeepsEntry(o.windows, runs, i + 1, allZones, url);
        }
      } else {
        MainKeepsEntry(w, runs, i + 1, allZones, url);
      }
    }
  }
}
