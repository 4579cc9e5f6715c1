/**
 * fetch_jobs_indeed (src/scrapers/indeed_scraper.py, lines 6-116): build
 * the search URL, drive one browser session against the site, extract at
 * most five job records, and close the browser on every path out of the
 * try block.  The browser is abstract: a Site value says how each step of
 * the session turns out, and the Browser object records what was done.
 */
module IndeedScraper {
  import opened Wrappers
  import opened SearchUrl
  import opened CardExtraction

  /** The user-agent pool random.choice picks from (lines 12-16). */
  const UserAgents: seq<string> := [
    "Mozilla/5.0 (Windows NT 10.0; Win64; x64) AppleWebKit/537.36 (KHTML, like Gecko) Chrome/91.0.4472.124 Safari/537.36",
    "Mozilla/5.0 (Macintosh; Intel Mac OS X 10_15_7) AppleWebKit/537.36 (KHTML, like Gecko) Chrome/91.0.4472.124 Safari/537.36",
    "Mozilla/5.0 (Windows NT 10.0; Win64; x64; rv:89.0) Gecko/20100101 Firefox/89.0"
  ]

  /** The "Verify you are human" marker after navigation. */
  datatype Captcha =
    | NoCaptcha      // the marker is not on the page
    | SolvedInTime   // the marker disappears within the 300 s wait
    | StillShown     // the wait at line 65 times out and raises

  /** How the page behaves once page.goto has been called with some URL. */
  datatype Visit = Visit(
    loads: bool,                 // goto reaches domcontentloaded within 60 s
    captcha: Captcha,
    humanizeOk: bool,            // the mouse move and wheel raise nothing
    listingsAppear: bool,        // a listing card appears within 15 s
    cards: Option<seq<Card>>)    // query_selector_all's answer, None when it raises

  /**
   * The world the scraper runs in: browser launch, context set-up, and the
   * site's answer to a request for a URL sent with a user agent.
   */
  datatype Site = Site(
    launchOk: bool,                  // async_playwright and chromium.launch succeed
    contextOk: bool,                 // new_context, add_init_script and new_page succeed
    respond: (string, string) -> Visit)  // (url, user agent) to the page it gets

  /** The await inside the outer try whose exception ends the session. */
  datatype Step = ContextSetup | Navigation | CaptchaWait | Humanize | CardQuery

  /** The three ways out of the outer try block. */
  datatype Exit =
    | Listed(records: seq<JobRecord>)  // line 110
    | NoListings                       // lines 76-78
    | Failed(step: Step)               // lines 112-114

  /** What a call of fetch_jobs_indeed does for its caller. */
  datatype Outcome =
    | Returned(jobs: seq<JobRecord>)
    | Raised                           // launch failed before the try (lines 18-27)

  /** An automated browser: its context's user agent, the URLs it was sent to, the page, and whether it is closed. */
  class Browser {
    const site: Site
    var closed: bool
    var userAgent: Option<string>
    var visited: seq<string>
    var page: Option<Visit>

    /** chromium.launch: a fresh, open browser with nothing done yet. */
    constructor (site: Site)
      ensures this.site == site
      ensures !closed && userAgent == None && visited == [] && page == None
    {
      this.site := site;
      closed := false;
      userAgent := None;
      visited := [];
      page := None;
    }

    /** new_context with the given user agent, the init script, and new_page (lines 30-53). */
    method NewContext(agent: string) returns (ok: bool)
      requires !closed
      modifies this
      ensures ok == site.contextOk
      ensures userAgent == (if ok then Some(agent) else old(userAgent))
      ensures closed == old(closed) && visited == old(visited) && page == old(page)
    {
      ok := site.contextOk;
      if ok {
        userAgent := Some(agent);
      }
    }

    /** page.goto(url) (lines 56-59); the site's answer to url and the context's user agent becomes the current page. */
    method Goto(url: string) returns (ok: bool)
      requires !closed && userAgent.Some?
      modifies this
      ensures closed == old(closed) && userAgent == old(userAgent)
      ensures ok == site.respond(url, userAgent.value).loads
      ensures visited == old(visited) + [url] && page == Some(site.respond(url, userAgent.value))
    {
      visited := visited + [url];
      page := Some(site.respond(url, userAgent.value));
      ok := page.value.loads;
    }

    /** page.query_selector for the CAPTCHA marker (line 62). */
    method CaptchaShown() returns (shown: bool)
      requires !closed && page.Some?
      ensures shown <==> page.value.captcha != NoCaptcha
    {
      shown := page.value.captcha != NoCaptcha;
    }

    /** wait_for_selector(state="hidden", timeout=300000) (line 65). */
    method WaitCaptchaHidden() returns (ok: bool)
      requires !closed && page.Some?
      ensures ok <==> page.value.captcha != StillShown
    {
      ok := page.value.captcha != StillShown;
    }

    /** mouse.move and mouse.wheel (lines 70-71). */
    method Humanize() returns (ok: bool)
      requires !closed && page.Some?
      ensures ok == page.value.humanizeOk
    {
      ok := page.value.humanizeOk;
    }

    /** wait_for_selector on the two listing-card selectors, timeout 15000 (line 75). */
    method WaitForListings() returns (ok: bool)
      requires !closed && page.Some?
      ensures ok == page.value.listingsAppear
    {
      ok := page.value.listingsAppear;
    }

    /** query_selector_all on the two listing-card selectors (line 81). */
    method QueryCards() returns (cards: Option<seq<Card>>)
      requires !closed && page.Some?
      ensures cards == page.value.cards
    {
      cards := page.value.cards;
    }

    /** browser.close() (line 116). */
    method Close()
      modifies this
      ensures closed
      ensures userAgent == old(userAgent) && visited == old(visited) && page == old(page)
    {
      closed := true;
    }
  }

  // ---------------------------------------------------------------------
  // Specification of one call
  // ---------------------------------------------------------------------

  /** How the session ends once the page answered (lines 59-110). */
  function VisitExit(v: Visit): Exit
  {
    if !v.loads then Failed(Navigation)
    else if v.captcha == StillShown then Failed(CaptchaWait)
    else if !v.humanizeOk then Failed(Humanize)
    else if !v.listingsAppear then NoListings
    else if v.cards.None? then Failed(CardQuery)
    else Listed(KeptRecords(FirstCards(v.cards.value)))
  }

  /** How the outer try block ends for a session sent to url with the given user agent (lines 29-114). */
  function SessionExit(site: Site, url: string, agent: string): Exit
  {
    if !site.contextOk then Failed(ContextSetup) else VisitExit(site.respond(url, agent))
  }

  /** The value fetch_jobs_indeed returns on each way out of the try block. */
  function ExitValue(e: Exit): (r: seq<JobRecord>)
    ensures !e.Listed? ==> r == []
  {
    match e
    case Listed(records) => records
    case NoListings => []
    case Failed(_) => []
  }

  /** What one call of fetch_jobs_indeed does when random.choice picks agent. */
  function Fetch(q: JobQuery, site: Site, agent: string): Outcome
  {
    if !site.launchOk then Raised else Returned(ExitValue(SessionExit(site, SearchUrlOf(q), agent)))
  }

  // ---------------------------------------------------------------------
  // The procedure
  // ---------------------------------------------------------------------

  /** The body of the outer try block (lines 30-110), up to the point where finally runs. */
  method RunSession(browser: Browser, url: string) returns (exit: Exit)
    requires !browser.closed && browser.visited == [] && browser.userAgent == None
    modifies browser
    ensures browser.userAgent.Some? <==> browser.site.contextOk
    ensures browser.userAgent.Some? ==>
              browser.userAgent.value in UserAgents && exit == SessionExit(browser.site, url, browser.userAgent.value)
    ensures browser.userAgent.None? ==> exit == Failed(ContextSetup)
    ensures !browser.closed
    ensures browser.visited == if browser.site.contextOk then [url] else []
  {
    assert UserAgents[0] in UserAgents;
    var agent :| agent in UserAgents;  // random.choice(user_agents)
    var ok := browser.NewContext(agent);
    if !ok {
      return Failed(ContextSetup);
    }
    ok := browser.Goto(url);
    if !ok {
      return Failed(Navigation);
    }
    var shown := browser.CaptchaShown();
    if shown {
      ok := browser.WaitCaptchaHidden();
      if !ok {
        return Failed(CaptchaWait);
      }
    }
    ok := browser.Humanize();
    if !ok {
      return Failed(Humanize);
    }
    ok := browser.WaitForListings();
    if !ok {
      return NoListings;
    }
    var cards := browser.QueryCards();
    if cards.None? {
      return Failed(CardQuery);
    }
    var results := ProcessCards(cards.value);
    return Listed(results);
  }

  /**
   * fetch_jobs_indeed.  The browser it launched, if any, is returned so
   * that the caller can see it was closed whichever way the try block ended
   * and which user agent its context was given.
   */
  method FetchJobsIndeed(q: JobQuery, site: Site) returns (outcome: Outcome, browser: Browser?)
    ensures exists agent :: agent in UserAgents && outcome == Fetch(q, site, agent)
    ensures browser != null && browser.userAgent.Some? ==> outcome == Fetch(q, site, browser.userAgent.value)
    ensures browser == null <==> !site.launchOk
    ensures browser != null ==> fresh(browser) && browser.site == site && browser.closed
    ensures browser != null ==> browser.visited == if site.contextOk then [SearchUrlOf(q)] else []
    ensures browser != null ==> (browser.userAgent.Some? <==> site.contextOk)
    ensures browser != null && browser.userAgent.Some? ==> browser.userAgent.value in UserAgents
  {
    var url := SearchUrlOf(q);
    if !site.launchOk {
      assert Raised == Fetch(q, site, UserAgents[0]);
      return Raised, null;
    }
    browser := new Browser(site);
    var exit := RunSession(browser, url);
    browser.Close();
    outcome := Returned(ExitValue(exit));
    if browser.userAgent.None? {
      assert outcome == Fetch(q, site, UserAgents[0]);
    } else {
      assert outcome == Fetch(q, site, browser.userAgent.value);
    }
  }

  // ---------------------------------------------------------------------
  // Properties of a call
  // ---------------------------------------------------------------------

  /** A call raises exactly when the browser could not be launched. */
  lemma RaisesOnlyOnLaunch(q: JobQuery, site: Site, agent: string)
    ensures Fetch(q, site, agent) == Raised <==> !site.launchOk
  {
  }

  /** Whatever a call returns has at most five records, each with a real title and no empty field. */
  lemma FetchBounded(q: JobQuery, site: Site, agent: string)
    requires Fetch(q, site, agent).Returned?
    ensures |Fetch(q, site, agent).jobs| <= MaxCards
    ensures forall k :: 0 <= k < |Fetch(q, site, agent).jobs| ==> Kept(Fetch(q, site, agent).jobs[k])
  {
    var e := SessionExit(site, SearchUrlOf(q), agent);
    if e.Listed? {
      var cards := site.respond(SearchUrlOf(q), agent).cards.value;
      KeptRecordsLength(FirstCards(cards));
      KeptRecordsAreKept(FirstCards(cards));
    }
  }

  /** Any failure after launch, and a listing wait that times out, give the empty list. */
  lemma FailureGivesEmpty(q: JobQuery, site: Site, agent: string)
    requires site.launchOk
    requires !SessionExit(site, SearchUrlOf(q), agent).Listed?
    ensures Fetch(q, site, agent) == Returned([])
  {
  }

  /** A CAPTCHA solved within the wait changes nothing about the outcome. */
  lemma SolvedCaptchaProceeds(v: Visit)
    requires v.captcha == SolvedInTime
    ensures VisitExit(v) == VisitExit(v.(captcha := NoCaptcha))
  {
  }

  /** With no listing card within 15 s, the call returns []. */
  lemma NoListingsGivesEmpty(q: JobQuery, site: Site, agent: string)
    requires site.launchOk && site.contextOk
    requires var v := site.respond(SearchUrlOf(q), agent);
      v.loads && v.captcha != StillShown && v.humanizeOk && !v.listingsAppear
    ensures Fetch(q, site, agent) == Returned([])
  {
  }

  /** On a page whose cards all yield records, the call returns the first five of them, in order. */
  lemma FullPageGivesFive(q: JobQuery, site: Site, agent: string)
    requires site.launchOk && site.contextOk
    requires var v := site.respond(SearchUrlOf(q), agent);
      v.loads && v.captcha != StillShown && v.humanizeOk && v.listingsAppear && v.cards.Some?
      && |v.cards.value| >= MaxCards
      && forall k :: 0 <= k < |v.cards.value| ==> Extract(v.cards.value[k]).Some?
    ensures |Fetch(q, site, agent).jobs| == MaxCards
    ensures forall k :: 0 <= k < MaxCards ==>
              Fetch(q, site, agent).jobs[k] == Extract(site.respond(SearchUrlOf(q), agent).cards.value[k]).value
  {
    var cards := site.respond(SearchUrlOf(q), agent).cards.value;
    var first := FirstCards(cards);
    KeptRecordsAll(first);
  }

  /** Two queries with the same URL, sent with the same user agent, get the same outcome. */
  lemma SameUrlSameOutcome(q1: JobQuery, q2: JobQuery, site: Site, agent: string)
    requires SearchUrlOf(q1) == SearchUrlOf(q2)
    ensures Fetch(q1, site, agent) == Fetch(q2, site, agent)
  {
  }

  /**
   * Before the page request, the user agent plays no part: when launch or
   * context set-up fails, every agent gives the same outcome.
   */
  lemma AgentUnusedBeforeRequest(q: JobQuery, site: Site, a1: string, a2: string)
    requires !site.launchOk || !site.contextOk
    ensures Fetch(q, site, a1) == Fetch(q, site, a2)
  {
  }

  /** A site that answers every agent alike makes the outcome independent of random.choice. */
  lemma AgentBlindSite(q: JobQuery, site: Site, a1: string, a2: string)
    requires forall url :: site.respond(url, a1) == site.respond(url, a2)
    ensures Fetch(q, site, a1) == Fetch(q, site, a2)
  {
  }
}
