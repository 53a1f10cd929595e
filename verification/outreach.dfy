/**
 * The list-building logic of `outreach.py`: which extractor a portfolio URL
 * is sent to, how each extractor turns the first few cards of a page into
 * records, and how `run_all_scrapes` strings the per-site results together.
 *
 * The browser is not modelled. What a page shows once an extractor has
 * navigated and waited is a `Page` value (its cards and its title), and how
 * one site's visit ends (finished, timed out after 90 seconds, or raised
 * some other error) is the parameter `browser`.
 */
module Outreach {
  import opened Wrappers
  import opened PyStrings

  /** One element the extractor's selector matched: its inner text and its
      `href` attribute, which may be absent. */
  datatype Card = Card(text: string, href: Option<string>)

  /** What the browser shows for a site: the matched cards, in document
      order, and the page title. */
  datatype Page = Page(cards: seq<Card>, title: string)

  /** The dictionaries the scrape produces. */
  datatype Record =
    | Company(companyName: string, companyLink: Option<string>, vcFirm: string)
    | Visited(vcFirm: string, pageTitle: string)
    | ScrapeError(url: string, error: string)

  const TimeoutError: string := "Timeout"

  /** The four sites with an extractor of their own. */
  datatype Site = YCombinator | Techstars | Sequoia | A16z

  /** The sites in the order the dispatch tests them. */
  const DispatchOrder: seq<Site> := [YCombinator, Techstars, Sequoia, A16z]

  /** The substring of a URL that selects a site's extractor. */
  function Domain(site: Site): string {
    match site
    case YCombinator => "ycombinator.com"
    case Techstars => "techstars.com"
    case Sequoia => "sequoiacap.com"
    case A16z => "a16z.com"
  }

  /** The `vc_firm` label a site's records carry. */
  function FirmLabel(site: Site): string {
    match site
    case YCombinator => "Y Combinator"
    case Techstars => "Techstars"
    case Sequoia => "Sequoia Capital"
    case A16z => "a16z"
  }

  const VcWebsites: seq<string> := [
    "https://a16z.com/portfolio/",
    "https://www.sequoiacap.com/companies/",
    "https://www.benchmark.com/portfolio/",
    "https://www.ycombinator.com/companies",
    "https://www.techstars.com/portfolio"
  ]

  /** The if/elif chain of `extract_with_playwright`, testing the domains of
      `order` in turn; None is the generic visit of the final else. */
  function FirstMatch(url: string, order: seq<Site>): (r: Option<Site>)
    ensures r.Some? ==> r.value in order && Contains(url, Domain(r.value))
    decreases |order|
  {
    if order == [] then None
    else if Contains(url, Domain(order[0])) then Some(order[0])
    else FirstMatch(url, order[1..])
  }

  /** The extractor `extract_with_playwright` sends a URL to. */
  function SiteFor(url: string): Option<Site> {
    FirstMatch(url, DispatchOrder)
  }

  /** An f-string renders an absent attribute as `None`. */
  function HrefText(href: Option<string>): string {
    match href
    case Some(h) => h
    case None => "None"
  }

  /** Techstars' `if name and link` test: both the text and the link are non-empty. */
  predicate Linked(c: Card) {
    c.text != "" && c.href.Some? && c.href.value != ""
  }

  /** The record a card becomes on each site, or None when the extractor
      skips it. Y Combinator and Sequoia prefix the site's origin to the
      `href`; Techstars keeps a card only when both its text and its link
      are non-empty; a16z keeps the `href` as it is. */
  function ShapeCard(site: Site, c: Card): Option<Record> {
    match site
    case YCombinator =>
      Some(Company(Strip(c.text), Some("https://www.ycombinator.com" + HrefText(c.href)), FirmLabel(site)))
    case Techstars =>
      if Linked(c) then
        Some(Company(Strip(c.text), c.href, FirmLabel(site)))
      else None
    case Sequoia =>
      Some(Company(Strip(c.text), Some("https://www.sequoiacap.com" + HrefText(c.href)), FirmLabel(site)))
    case A16z =>
      Some(Company(Strip(c.text), c.href, FirmLabel(site)))
  }

  /** Every extractor looks at no more than this many cards. */
  const CardLimit: nat := 3

  /** `cards[:3]` */
  function FirstCards(cards: seq<Card>): (r: seq<Card>)
    ensures |r| == Min(CardLimit, |cards|) && r == cards[..|r|]
  {
    cards[..Min(CardLimit, |cards|)]
  }

  /** The records the loop of an extractor has collected after the cards `cs`. */
  function Harvest(site: Site, cs: seq<Card>): seq<Record>
    decreases |cs|
  {
    if cs == [] then []
    else
      Harvest(site, cs[..|cs| - 1]) +
      (match ShapeCard(site, cs[|cs| - 1])
       case Some(r) => [r]
       case None => [])
  }

  /** The `for c in cards[:3]` loop shared by `extract_ycombinator`,
      `extract_techstars`, `extract_sequoia` and `extract_a16z`; they differ
      only in how a card is shaped. */
  method ExtractSite(site: Site, cards: seq<Card>) returns (results: seq<Record>)
    ensures results == Harvest(site, FirstCards(cards))
    ensures |results| <= CardLimit
  {
    var shown := FirstCards(cards);
    results := [];
    for i := 0 to |shown|
      invariant results == Harvest(site, shown[..i])
    {
      assert shown[..i + 1][..i] == shown[..i];
      match ShapeCard(site, shown[i]) {
        case Some(r) => results := results + [r];
        case None =>
      }
    }
    assert shown[..|shown|] == shown;
    HarvestBound(site, shown);
  }

  /** What `extract_with_playwright` returns for a page that loaded. */
  function Extracted(url: string, page: Page): seq<Record> {
    match SiteFor(url)
    case Some(site) => Harvest(site, FirstCards(page.cards))
    case None => [Visited(url, page.title)]
  }

  method ExtractWithPlaywright(url: string, page: Page) returns (records: seq<Record>)
    ensures records == Extracted(url, page)
    ensures SiteFor(url).None? ==> records == [Visited(url, page.title)]
    ensures 1 <= |records| || SiteFor(url).Some?
    ensures |records| <= CardLimit
  {
    match SiteFor(url) {
      case Some(site) =>
        records := ExtractSite(site, page.cards);
      case None =>
        records := [Visited(url, page.title)];
    }
  }

  /** How the visit of one site ends under `asyncio.wait_for`. */
  datatype Visit =
    | Loaded(page: Page)
    | TimedOut
    | Raised(message: string)

  /** What one site adds to the results when its visit does not raise. */
  function SiteRecords(url: string, visit: Visit): seq<Record>
    requires !visit.Raised?
  {
    match visit
    case Loaded(page) => Extracted(url, page)
    case TimedOut => [ScrapeError(url, TimeoutError)]
  }

  /** `run_all_scrapes` after visiting `urls`: the records so far, or the
      message of the error that escaped. */
  function Gathered(urls: seq<string>, browser: string -> Visit): Result<seq<Record>, string>
    decreases |urls|
  {
    if urls == [] then Success([])
    else
      match Gathered(urls[..|urls| - 1], browser)
      case Failure(m) => Failure(m)
      case Success(rs) =>
        var url := urls[|urls| - 1];
        match browser(url)
        case Raised(m) => Failure(m)
        case TimedOut => Success(rs + SiteRecords(url, TimedOut))
        case Loaded(page) => Success(rs + SiteRecords(url, Loaded(page)))
  }

  /** `run_all_scrapes`: every site of `VC_WEBSITES` in order; a timeout is
      recorded and the next site runs, any other error ends the run. */
  method RunAllScrapes(browser: string -> Visit) returns (outcome: Result<seq<Record>, string>)
    ensures outcome == Gathered(VcWebsites, browser)
  {
    var urls := VcWebsites;
    var results: seq<Record> := [];
    for i := 0 to |urls|
      invariant Gathered(urls[..i], browser) == Success(results)
    {
      var url := urls[i];
      match browser(url) {
        case Loaded(page) =>
          var result := ExtractWithPlaywright(url, page);
          GatheredStep(urls, i, browser);
          results := results + result;
        case TimedOut =>
          GatheredStep(urls, i, browser);
          results := results + [ScrapeError(url, TimeoutError)];
        case Raised(m) =>
          RaisesAt(urls, i, browser);
          GatheredStopsAtError(urls, i + 1, browser);
          return Failure(m);
      }
    }
    assert urls[..|urls|] == urls;
    outcome := Success(results);
  }

  /** No site among the first `k` of `order` has its domain in the URL. */
  predicate NoneBefore(url: string, order: seq<Site>, k: nat)
    requires k <= |order|
  {
    forall j :: 0 <= j < k ==> !Contains(url, Domain(order[j]))
  }

  /** The sites of `order` are pairwise distinct. */
  predicate Distinct(order: seq<Site>) {
    forall i, j :: 0 <= i < j < |order| ==> order[i] != order[j]
  }

  /** Testing distinct sites in turn picks the `k`th exactly when its domain
      occurs in the URL and no earlier one does. */
  lemma {:induction false} FirstMatchAt(url: string, order: seq<Site>, k: nat)
    requires Distinct(order) && k < |order|
    ensures FirstMatch(url, order) == Some(order[k]) <==> Contains(url, Domain(order[k])) && NoneBefore(url, order, k)
    decreases k
  {
    var rest := order[1..];
    if k == 0 {
      assert order[0] !in rest;
    } else {
      FirstMatchAt(url, rest, k - 1);
      assert order[k] == rest[k - 1] && order[0] != order[k];
      assert NoneBefore(url, order, k) <==> !Contains(url, Domain(order[0])) && NoneBefore(url, rest, k - 1) by {
        if !Contains(url, Domain(order[0])) && NoneBefore(url, rest, k - 1) {
          forall j | 0 <= j < k
            ensures !Contains(url, Domain(order[j]))
          {
            if j > 0 {
              assert order[j] == rest[j - 1];
            }
          }
        }
      }
    }
  }

  /** Testing sites in turn gives None exactly when no domain occurs. */
  lemma {:induction false} FirstMatchNone(url: string, order: seq<Site>)
    ensures FirstMatch(url, order).None? <==> NoneBefore(url, order, |order|)
    decreases |order|
  {
    if order != [] {
      var rest := order[1..];
      FirstMatchNone(url, rest);
      assert NoneBefore(url, order, |order|) <==> !Contains(url, Domain(order[0])) && NoneBefore(url, rest, |rest|) by {
        if !Contains(url, Domain(order[0])) && NoneBefore(url, rest, |rest|) {
          forall j | 0 <= j < |order|
            ensures !Contains(url, Domain(order[j]))
          {
            if j > 0 {
              assert order[j] == rest[j - 1];
            }
          }
        }
      }
    }
  }

  /** The dispatch picks the first site of `DispatchOrder` whose domain
      occurs in the URL, and falls back to a generic visit only when none
      does. */
  lemma DispatchFirstMatch(url: string)
    ensures forall k :: 0 <= k < |DispatchOrder| ==>
      (SiteFor(url) == Some(DispatchOrder[k]) <==>
        Contains(url, Domain(DispatchOrder[k])) &&
        forall j :: 0 <= j < k ==> !Contains(url, Domain(DispatchOrder[j])))
    ensures SiteFor(url).None? <==> forall k :: 0 <= k < |DispatchOrder| ==> !Contains(url, Domain(DispatchOrder[k]))
  {
    assert Distinct(DispatchOrder);
    forall k | 0 <= k < |DispatchOrder|
      ensures SiteFor(url) == Some(DispatchOrder[k]) <==>
        Contains(url, Domain(DispatchOrder[k])) && NoneBefore(url, DispatchOrder, k)
    {
      FirstMatchAt(url, DispatchOrder, k);
    }
    FirstMatchNone(url, DispatchOrder);
  }

  /** An extractor never keeps more records than it saw cards. */
  lemma {:induction false} HarvestBound(site: Site, cs: seq<Card>)
    ensures |Harvest(site, cs)| <= |cs|
    decreases |cs|
  {
    if cs != [] {
      HarvestBound(site, cs[..|cs| - 1]);
    }
  }

  /** On every site except Techstars each card gives exactly one record, in
      order. */
  lemma {:induction false} OneRecordPerCard(site: Site, cs: seq<Card>)
    requires site != Techstars
    ensures |Harvest(site, cs)| == |cs|
    ensures forall i :: 0 <= i < |cs| ==> Some(Harvest(site, cs)[i]) == ShapeCard(site, cs[i])
    decreases |cs|
  {
    if cs != [] {
      var init := cs[..|cs| - 1];
      var last := cs[|cs| - 1];
      OneRecordPerCard(site, init);
      assert ShapeCard(site, last).Some?;
      assert Harvest(site, cs) == Harvest(site, init) + [ShapeCard(site, last).value];
      forall i | 0 <= i < |cs|
        ensures Some(Harvest(site, cs)[i]) == ShapeCard(site, cs[i])
      {
        if i < |init| {
          assert Harvest(site, cs)[i] == Harvest(site, init)[i];
          assert cs[i] == init[i];
        } else {
          assert Harvest(site, cs)[i] == ShapeCard(site, last).value;
        }
      }
    }
  }

  /** A Techstars record always has a non-empty link, and Techstars keeps
      exactly the cards whose text and link are both non-empty. */
  lemma {:induction false} TechstarsKeepsLinkedCards(cs: seq<Card>)
    ensures forall r :: r in Harvest(Techstars, cs) ==>
      r.Company? && r.companyLink.Some? && r.companyLink.value != "" && r.vcFirm == "Techstars"
    ensures |Harvest(Techstars, cs)| == LinkedCards(cs)
    decreases |cs|
  {
    if cs != [] {
      var init := cs[..|cs| - 1];
      var last := cs[|cs| - 1];
      TechstarsKeepsLinkedCards(init);
      var tail := match ShapeCard(Techstars, last) case Some(r) => [r] case None => [];
      assert Harvest(Techstars, cs) == Harvest(Techstars, init) + tail;
      forall r | r in Harvest(Techstars, cs)
        ensures r.Company? && r.companyLink.Some? && r.companyLink.value != "" && r.vcFirm == "Techstars"
      {
        if r !in Harvest(Techstars, init) {
          assert r in tail;
        }
      }
    }
  }

  /** The number of cards with both a text and a link. */
  function LinkedCards(cs: seq<Card>): (n: nat)
    ensures n <= |cs|
    decreases |cs|
  {
    if cs == [] then 0
    else
      var c := cs[|cs| - 1];
      LinkedCards(cs[..|cs| - 1]) + (if Linked(c) then 1 else 0)
  }

  /** Every record an extractor keeps is a company labelled with the site,
      and its name neither starts nor ends with a blank. */
  lemma {:induction false} CompanyNamesTrimmed(site: Site, cs: seq<Card>)
    ensures forall r :: r in Harvest(site, cs) ==>
      && r.Company?
      && r.vcFirm == FirmLabel(site)
      && (r.companyName == [] || (!IsSpace(r.companyName[0]) && !IsSpace(r.companyName[|r.companyName| - 1])))
    decreases |cs|
  {
    if cs != [] {
      var init := cs[..|cs| - 1];
      var last := cs[|cs| - 1];
      CompanyNamesTrimmed(site, init);
      StripTrims(last.text);
      var tail := match ShapeCard(site, last) case Some(r) => [r] case None => [];
      assert Harvest(site, cs) == Harvest(site, init) + tail;
    }
  }

  /** Y Combinator and Sequoia links always start with the site's origin. */
  lemma OriginPrefixedLinks(site: Site, cs: seq<Card>)
    requires site == YCombinator || site == Sequoia
    ensures forall r :: r in Harvest(site, cs) ==>
      r.Company? && r.companyLink.Some? &&
      StartsWith(r.companyLink.value, if site == YCombinator then "https://www.ycombinator.com" else "https://www.sequoiacap.com")
  {
    HarvestOrigins(site, cs);
  }

  lemma {:induction false} HarvestOrigins(site: Site, cs: seq<Card>)
    requires site == YCombinator || site == Sequoia
    ensures forall r :: r in Harvest(site, cs) ==> exists c :: c in cs && ShapeCard(site, c) == Some(r)
    decreases |cs|
  {
    if cs != [] {
      HarvestOrigins(site, cs[..|cs| - 1]);
      forall r | r in Harvest(site, cs)
        ensures exists c :: c in cs && ShapeCard(site, c) == Some(r)
      {
        if r in Harvest(site, cs[..|cs| - 1]) {
          var c :| c in cs[..|cs| - 1] && ShapeCard(site, c) == Some(r);
          assert c in cs;
        } else {
          assert ShapeCard(site, cs[|cs| - 1]) == Some(r);
        }
      }
    }
  }

  /** One page never contributes more than three records. */
  lemma ExtractedLength(url: string, page: Page)
    ensures 1 <= |Extracted(url, page)| || SiteFor(url).Some?
    ensures |Extracted(url, page)| <= CardLimit
    ensures forall r :: r in Extracted(url, page) ==> !r.ScrapeError?
  {
    if site :| SiteFor(url) == Some(site) {
      HarvestBound(site, FirstCards(page.cards));
      HarvestCompanies(site, FirstCards(page.cards));
    }
  }

  lemma {:induction false} HarvestCompanies(site: Site, cs: seq<Card>)
    ensures forall r :: r in Harvest(site, cs) ==> r.Company?
    decreases |cs|
  {
    if cs != [] {
      HarvestCompanies(site, cs[..|cs| - 1]);
    }
  }

  /** Once an error escapes, the run is over: later sites change nothing. */
  lemma {:induction false} GatheredStopsAtError(urls: seq<string>, k: nat, browser: string -> Visit)
    requires k <= |urls| && Gathered(urls[..k], browser).Failure?
    ensures Gathered(urls, browser) == Gathered(urls[..k], browser)
    decreases |urls| - k
  {
    if k < |urls| {
      assert urls[..k + 1][..k] == urls[..k];
      GatheredStopsAtError(urls, k + 1, browser);
    } else {
      assert urls[..k] == urls;
    }
  }

  /** The records of every site, visited front to back. */
  function Collected(urls: seq<string>, browser: string -> Visit): seq<Record>
    requires forall u :: u in urls ==> !browser(u).Raised?
  {
    if urls == [] then [] else SiteRecords(urls[0], browser(urls[0])) + Collected(urls[1..], browser)
  }

  /** The run succeeds exactly when no site raised; its records are then
      every site's records, in the order of the URL list. */
  lemma {:induction false} GatheredIsCollected(urls: seq<string>, browser: string -> Visit)
    ensures Gathered(urls, browser).Success? <==> forall u :: u in urls ==> !browser(u).Raised?
    ensures Gathered(urls, browser).Success? ==> Gathered(urls, browser).value == Collected(urls, browser)
    decreases |urls|
  {
    if urls != [] {
      var init := urls[..|urls| - 1];
      var last := urls[|urls| - 1];
      GatheredIsCollected(init, browser);
      assert urls == init + [last];
      if forall u :: u in urls ==> !browser(u).Raised? {
        CollectedSnoc(init, last, browser);
      }
    }
  }

  lemma {:induction false} CollectedSnoc(urls: seq<string>, last: string, browser: string -> Visit)
    requires forall u :: u in urls + [last] ==> !browser(u).Raised?
    ensures Collected(urls + [last], browser) == Collected(urls, browser) + SiteRecords(last, browser(last))
    decreases |urls|
  {
    if urls == [] {
      assert [last][1..] == [];
    } else {
      assert (urls + [last])[1..] == urls[1..] + [last];
      CollectedSnoc(urls[1..], last, browser);
      ConcatAssoc(SiteRecords(urls[0], browser(urls[0])), Collected(urls[1..], browser), SiteRecords(last, browser(last)));
    }
  }

  /** The first site that raises decides the run's outcome. */
  lemma FirstErrorEndsRun(urls: seq<string>, k: nat, browser: string -> Visit)
    requires k < |urls| && browser(urls[k]).Raised?
    requires forall j :: 0 <= j < k ==> !browser(urls[j]).Raised?
    ensures Gathered(urls, browser) == Failure(browser(urls[k]).message)
  {
    NoErrorSucceeds(urls, k, browser);
    RaisesAt(urls, k, browser);
    GatheredStopsAtError(urls, k + 1, browser);
  }

  lemma {:induction false} NoErrorSucceeds(urls: seq<string>, k: nat, browser: string -> Visit)
    requires k <= |urls|
    requires forall j :: 0 <= j < k ==> !browser(urls[j]).Raised?
    ensures Gathered(urls[..k], browser).Success?
    decreases k
  {
    if k > 0 {
      NoErrorSucceeds(urls, k - 1, browser);
      assert urls[..k][..k - 1] == urls[..k - 1];
    }
  }

  /** A site that does not raise appends its records to the run's. */
  lemma GatheredStep(urls: seq<string>, k: nat, browser: string -> Visit)
    requires k < |urls| && Gathered(urls[..k], browser).Success? && !browser(urls[k]).Raised?
    ensures Gathered(urls[..k + 1], browser) ==
      Success(Gathered(urls[..k], browser).value + SiteRecords(urls[k], browser(urls[k])))
  {
    assert urls[..k + 1][..k] == urls[..k];
  }

  lemma RaisesAt(urls: seq<string>, k: nat, browser: string -> Visit)
    requires k < |urls| && Gathered(urls[..k], browser).Success? && browser(urls[k]).Raised?
    ensures Gathered(urls[..k + 1], browser) == Failure(browser(urls[k]).message)
  {
    assert urls[..k + 1][..k] == urls[..k];
  }

  /** Each timed-out site leaves exactly one error marker, the only markers
      there are, and no site adds more than three records. */
  lemma {:induction false} TimeoutMarkers(urls: seq<string>, browser: string -> Visit)
    requires Gathered(urls, browser).Success?
    ensures ErrorMarkers(Gathered(urls, browser).value) == Timeouts(urls, browser)
    ensures |Gathered(urls, browser).value| <= CardLimit * |urls|
    decreases |urls|
  {
    if urls != [] {
      var init := urls[..|urls| - 1];
      var url := urls[|urls| - 1];
      TimeoutMarkers(init, browser);
      var rs := Gathered(init, browser).value;
      match browser(url) {
        case TimedOut =>
          ErrorMarkersAppend(rs, [ScrapeError(url, TimeoutError)]);
        case Loaded(page) =>
          ExtractedLength(url, page);
          ErrorMarkersAppend(rs, Extracted(url, page));
          NoErrorMarkers(Extracted(url, page));
      }
    }
  }

  /** The number of `{url, error}` markers among the records. */
  function ErrorMarkers(rs: seq<Record>): nat
    decreases |rs|
  {
    if rs == [] then 0
    else ErrorMarkers(rs[..|rs| - 1]) + (if rs[|rs| - 1].ScrapeError? then 1 else 0)
  }

  /** The number of sites whose visit timed out. */
  function Timeouts(urls: seq<string>, browser: string -> Visit): nat
    decreases |urls|
  {
    if urls == [] then 0
    else Timeouts(urls[..|urls| - 1], browser) + (if browser(urls[|urls| - 1]).TimedOut? then 1 else 0)
  }

  lemma {:induction false} ErrorMarkersAppend(a: seq<Record>, b: seq<Record>)
    ensures ErrorMarkers(a + b) == ErrorMarkers(a) + ErrorMarkers(b)
    decreases |b|
  {
    if b == [] {
      assert a + b == a;
    } else {
      assert (a + b)[..|a + b| - 1] == a + b[..|b| - 1];
      ErrorMarkersAppend(a, b[..|b| - 1]);
    }
  }

  lemma {:induction false} NoErrorMarkers(rs: seq<Record>)
    requires forall r :: r in rs ==> !r.ScrapeError?
    ensures ErrorMarkers(rs) == 0
    decreases |rs|
  {
    if rs != [] {
      NoErrorMarkers(rs[..|rs| - 1]);
    }
  }
}
