# Indeed job scraper: a Dafny model of `fetch_jobs_indeed`

The service answers a job query by scraping the Indeed result page. A query has five fields: domain, skills, experience, country and city. All of the service's logic is in one coroutine, `fetch_jobs_indeed` (`src/scrapers/indeed_scraper.py`). It does four things:

1. It builds a search URL from the five fields.
2. It drives one browser session: launch, context, navigation, an optional human CAPTCHA wait, some "human-like" mouse activity, and a wait for listing cards.
3. It reads title, company and location from the first five cards. Each field has a two-selector fallback that ends in `"N/A"`.
4. It returns the records whose title is real, or `[]` on any failure. The browser is closed in a `finally`.

The project models these four pieces in four modules, one file each. Each module is proved against its own specification:

- `SearchUrl` (`search_url.dfy`). The URL builder of lines 7-9 as functions: Python's `' '.join`, `str(int)`, `replace(' ', '+')` and the fixed base. It also has two reading-back functions. `PlusToSpace` decodes `+` back to a space and touches nothing else. `ParseSearchUrl` splits the URL after the fixed base at its first `&`, which must begin `&l=`. Round trips connect each one to the builder.
- `JsTrim` (`js_trim.dfy`). JavaScript's `String.prototype.trim`, over the full ECMAScript WhiteSpace and LineTerminator code-point set.
- `CardExtraction` (`card_extraction.dfy`). A card is a datatype: the innerText (or absence) of each of the six selectors, plus a flag for "an `evaluate` call on this card raises". `Field` is the `a?.innerText?.trim() || b?.innerText?.trim() || 'N/A'` rule. `Extract` is one iteration of the loop. `ProcessCards` is the imperative `for` loop over `job_cards[:5]` with its per-card `try/except: continue`. It is proved equal to the specification `KeptRecords(FirstCards(cards))`. Lemmas about that specification give the bound, the filter, the order, and the skipping of raising cards.
- `IndeedScraper` (`indeed_scraper.dfy`). The session as a state machine over an abstract browser. `Browser` is a class with a mutable `closed` flag, the user agent of its context, the URLs it was sent to and the current page. A `Site` value says how each awaited step turns out; its `respond` maps the URL sent to `page.goto`, together with the context's user agent, to the page's behaviour. `RunSession` is the outer `try` body. `FetchJobsIndeed` adds the launch before it and the `finally: browser.close()` after it. It is proved to:
  - return `Fetch(q, site, agent)` for the user agent `agent` its context was given;
  - leave the browser closed on every way out of the `try`;
  - send the browser to exactly `SearchUrlOf(q)`.

  `random.choice(user_agents)` is a nondeterministic choice (`:|`) from the three-string pool. The URL is a function of the query alone, so the choice cannot change it. The choice can change the outcome only through the site's answer to the page request: `AgentUnusedBeforeRequest` and `AgentBlindSite` state this.

Behaviour of the code worth stating:

- **Launch failure raises.** `async_playwright()` and `chromium.launch` (lines 18-27) run before the `try`. When either fails, the call raises to its caller (`Outcome.Raised`, `RaisesOnlyOnLaunch`). In that case there is no browser to close.
- **Mouse activity can end the session.** The mouse move and wheel (lines 70-71) are inside the outer `try`. A failure of either reaches the outer `except` and yields `[]`.
- **A raising `evaluate` drops the whole card.** The three `evaluate` calls share one `try` (lines 85-108), whose `except` continues with the next card. A missing element does not raise: the `?.`/`||` chain turns it into `"N/A"`, and the record is still kept when its title is real (`MissingCompanyKept`).
- **A literal title of `"N/A"` is dropped.** Such a title cannot be told from a missing one (`LiteralNATitleDropped`).
- **Experience may be negative.** `experience` is a plain Python `int` that nothing validates, so `str()` of a negative number (`-3`) is modelled too.

## Model

| member | source | states |
|---|---|---|
| `SearchUrl.ReplaceSpaces` | src/scrapers/indeed_scraper.py:7-8 | `replace(' ', '+')` leaves no space in its result |
| `SearchUrl.PlusToSpace` | src/scrapers/indeed_scraper.py:7-8 | decoding of `+` alone: every `+` becomes a space, so none is left, and every other character is kept |
| `SearchUrl.ReplaceSpacesAppend` | src/scrapers/indeed_scraper.py:7-8 | replacing spaces commutes with concatenation of the f-string pieces |
| `SearchUrl.ReplaceSpacesFixed` | src/scrapers/indeed_scraper.py:7-8 | a text with no space is passed through unchanged |
| `SearchUrl.DecodeEncoded` | src/scrapers/indeed_scraper.py:7-8 | a text without `+` is recovered exactly by decoding its encoding |
| `SearchUrl.SpaceAndPlusCollide` | src/scrapers/indeed_scraper.py:7-8 | the encoding is not injective: a space and a literal `+` encode alike |
| `SearchUrl.ReplaceSpacesJoin` | src/scrapers/indeed_scraper.py:7 | encoding `' '.join(skills)` equals joining the encoded skills with `+` |
| `SearchUrl.NatToDecimal` | src/scrapers/indeed_scraper.py:7 | decimal digits of a natural number: non-empty, digits only, no leading zero |
| `SearchUrl.IntToDecimal` | src/scrapers/indeed_scraper.py:7 | `str(experience)`: non-empty, a leading `-` exactly for negatives, otherwise digits |
| `SearchUrl.NatDecimalRoundTrip` | src/scrapers/indeed_scraper.py:7 | the digits of n read back as n |
| `SearchUrl.DecimalRoundTrip` | src/scrapers/indeed_scraper.py:7 | `int(str(i)) == i` for every int, negative ones included |
| `SearchUrl.QueryParam` | src/scrapers/indeed_scraper.py:7 | the q parameter contains no space and is as long as the unencoded query text |
| `SearchUrl.QueryParamShape` | src/scrapers/indeed_scraper.py:7 | q is encoded domain, `+`, the encoded skills joined by `+`, `+`, `str(experience)`, `+years` |
| `SearchUrl.QueryParamDecodes` | src/scrapers/indeed_scraper.py:7 | with no `+` in domain or skills, decoding q gives `domain skills experience years` back |
| `SearchUrl.EmptySkillsDoublePlus` | src/scrapers/indeed_scraper.py:7 | an empty skill list yields `domain++N+years` |
| `SearchUrl.PlainQuery` | src/scrapers/indeed_scraper.py:7 | with space-free domain and two space-free skills, q is the fields joined by `+`, then `+years` |
| `SearchUrl.DubaiQuery` | src/scrapers/indeed_scraper.py:7 | engineer / python, sql / 3 give `engineer+python+sql+3+years` |
| `SearchUrl.LocationParam` | src/scrapers/indeed_scraper.py:8 | the l parameter contains no space and has length of city, `", "` and country |
| `SearchUrl.LocationParamShape` | src/scrapers/indeed_scraper.py:8 | l is the encoded city, `,+`, the encoded country |
| `SearchUrl.PlainLocation` | src/scrapers/indeed_scraper.py:8 | with space-free city and country, l is `city,+country` |
| `SearchUrl.DubaiLocation` | src/scrapers/indeed_scraper.py:8 | city Dubai, country AE give `Dubai,+AE` |
| `SearchUrl.SearchUrlOf` | src/scrapers/indeed_scraper.py:9 | the URL has no space and starts with the fixed base `https://ae.indeed.com/jobs?q=` |
| `SearchUrl.DubaiUrl` | src/scrapers/indeed_scraper.py:7-9 | engineer / python, sql / 3 / Dubai, AE give `https://ae.indeed.com/jobs?q=engineer+python+sql+3+years&l=Dubai,+AE` |
| `SearchUrl.ParseSearchUrl` | src/scrapers/indeed_scraper.py:9 | a successful split at the first `&` gives back parts that rebuild the URL, with no `&` in q |
| `SearchUrl.ParseSearchUrlRoundTrip` | src/scrapers/indeed_scraper.py:7-9 | with no `&` in domain or skills, splitting the URL recovers exactly q and l |
| `JsTrim.IsTrimmable` | src/scrapers/indeed_scraper.py:87-98 | space, tab, line feed and carriage return are trimmed; no visible ASCII character is |
| `JsTrim.TrimStart` | src/scrapers/indeed_scraper.py:87-98 | removes exactly the leading trimmable prefix; the result does not start with one |
| `JsTrim.TrimEnd` | src/scrapers/indeed_scraper.py:87-98 | removes exactly the trailing trimmable suffix; the result does not end with one |
| `JsTrim.Trim` | src/scrapers/indeed_scraper.py:87-98 | `trim()` is the slice between the first and last non-trimmable character; the cut-off parts are all trimmable |
| `JsTrim.TrimEmptyIff` | src/scrapers/indeed_scraper.py:87-98 | `trim()` gives `""` (a falsy JavaScript string) exactly when the text is all whitespace |
| `JsTrim.TrimIdempotent` | src/scrapers/indeed_scraper.py:87-98 | trimming twice is trimming once |
| `CardExtraction.TrimmedText` | src/scrapers/indeed_scraper.py:87-98 | `el?.innerText?.trim()` is falsy exactly when the element is missing or its text is all whitespace; otherwise it starts and ends with a non-whitespace character |
| `CardExtraction.Field` | src/scrapers/indeed_scraper.py:86-99 | the first non-empty trimmed text of primary then secondary, else `N/A`; never empty; never starts or ends with whitespace |
| `CardExtraction.Extract` | src/scrapers/indeed_scraper.py:85-108 | a card yields a record iff no evaluate raises and its title is not `N/A`; the record carries the three fields and is kept |
| `CardExtraction.FirstCards` | src/scrapers/indeed_scraper.py:84 | `job_cards[:5]`: a prefix of at most five cards, clamped at the length |
| `CardExtraction.ProcessCards` | src/scrapers/indeed_scraper.py:81-110 | the loop returns `KeptRecords(FirstCards(cards))`: at most 5 records, each with a real title and non-empty fields |
| `CardExtraction.KeptRecordsLength` | src/scrapers/indeed_scraper.py:84-106 | at most one record per card |
| `CardExtraction.KeptRecordsOrder` | src/scrapers/indeed_scraper.py:84-106 | records are the extracts of strictly increasing card positions; all other cards yield nothing |
| `CardExtraction.KeptRecordsAreKept` | src/scrapers/indeed_scraper.py:101-106 | every record has a title other than `N/A` and no empty field |
| `CardExtraction.KeptRecordsSkipRaising` | src/scrapers/indeed_scraper.py:85-108 | a raising card is skipped: records before it are kept and the cards after it still count |
| `CardExtraction.KeptRecordsAll` | src/scrapers/indeed_scraper.py:84-106 | when every card yields a record, one record per card, in card order |
| `CardExtraction.MissingCompanyKept` | src/scrapers/indeed_scraper.py:91-106 | a card with a real title but no company text is kept, with company `N/A` |
| `CardExtraction.LiteralNATitleDropped` | src/scrapers/indeed_scraper.py:86-101 | a title whose text is literally `N/A` drops the card |
| `CardExtraction.SevenCardsFive` | src/scrapers/indeed_scraper.py:84-106 | of seven cards that all yield records, exactly the first five are returned |
| `IndeedScraper.Browser.constructor` | src/scrapers/indeed_scraper.py:20-27 | a launched browser is open and has done nothing yet |
| `IndeedScraper.Browser.NewContext` | src/scrapers/indeed_scraper.py:30-53 | context and page set-up succeed as the site allows; the context takes the given user agent |
| `IndeedScraper.Browser.Goto` | src/scrapers/indeed_scraper.py:56-59 | records the URL, makes the site's answer to that URL the current page, reports whether it loaded |
| `IndeedScraper.Browser.CaptchaShown` | src/scrapers/indeed_scraper.py:62 | the CAPTCHA marker is found exactly when the page shows one |
| `IndeedScraper.Browser.WaitCaptchaHidden` | src/scrapers/indeed_scraper.py:65 | the 300 s wait succeeds unless the marker stays |
| `IndeedScraper.Browser.Humanize` | src/scrapers/indeed_scraper.py:69-71 | the mouse move and wheel succeed as the page allows |
| `IndeedScraper.Browser.WaitForListings` | src/scrapers/indeed_scraper.py:75 | the 15 s wait succeeds exactly when listing cards appear |
| `IndeedScraper.Browser.QueryCards` | src/scrapers/indeed_scraper.py:81 | returns the page's listing cards |
| `IndeedScraper.Browser.Close` | src/scrapers/indeed_scraper.py:116 | the browser is closed; nothing else changes |
| `IndeedScraper.ExitValue` | src/scrapers/indeed_scraper.py:74-114 | every exit but the listing one returns `[]` |
| `IndeedScraper.RunSession` | src/scrapers/indeed_scraper.py:29-110 | the try body ends as `SessionExit` for the pool user agent it gave the context, or with a context failure and no agent; it leaves the browser open and sent to the search URL only |
| `IndeedScraper.FetchJobsIndeed` | src/scrapers/indeed_scraper.py:6-116 | returns `Fetch(q, site, agent)` for some pool user agent, the one the context was given when there is one; any launched browser is closed on every path and was sent only to `SearchUrlOf(q)` |
| `IndeedScraper.RaisesOnlyOnLaunch` | src/scrapers/indeed_scraper.py:18-29 | a call raises exactly when the launch before the try fails |
| `IndeedScraper.FetchBounded` | src/scrapers/indeed_scraper.py:84-110 | any returned list has at most 5 records, each with a real title and no empty field |
| `IndeedScraper.FailureGivesEmpty` | src/scrapers/indeed_scraper.py:74-114 | every exit other than the listing one returns `[]` |
| `IndeedScraper.SolvedCaptchaProceeds` | src/scrapers/indeed_scraper.py:62-66 | a CAPTCHA solved within the wait leads to the same outcome as no CAPTCHA |
| `IndeedScraper.NoListingsGivesEmpty` | src/scrapers/indeed_scraper.py:74-78 | a listing wait that times out returns `[]` |
| `IndeedScraper.FullPageGivesFive` | src/scrapers/indeed_scraper.py:84-110 | on a page of at least five cards that all yield records, the first five are returned in order |
| `IndeedScraper.SameUrlSameOutcome` | src/scrapers/indeed_scraper.py:7-9 | for one user agent, the outcome depends on the query only through its URL |
| `IndeedScraper.AgentUnusedBeforeRequest` | src/scrapers/indeed_scraper.py:12-53 | when launch or context set-up fails, the user agent chosen makes no difference |
| `IndeedScraper.AgentBlindSite` | src/scrapers/indeed_scraper.py:12-59 | a site that answers every agent alike gives one outcome whichever agent is chosen |

The specification functions `Join`, `QueryText`, `DigitsValue`, `DecimalValue`, `Title`, `Company`, `Location`, `Kept`, `KeptRecords`, `VisitExit`, `SessionExit` and `Fetch` define what the members above are proved against. `DigitChar`, `Somes`, `SomesLength`, `SomesAppend`, `SomesAll`, `SomesOrder`, `SomeIndexes`, `Extracts`, `ExtractsAppend`, `ReplaceSpacesAll`, `IndexOf`, `JoinExcludes`, `IndexOfFirst`, `SplitThree` and `SearchUrlParts` are helpers.

## Left out

- Playwright itself is not modelled. These are foreign-library calls, folded into the `launchOk` and `contextOk` steps:
  - the launch flags and channel;
  - the context options (viewport, locale, time zone);
  - the text of the fingerprint-masking init script (lines 20-53).
- The randomised sleeps (lines 56 and 69), the mouse coordinates (lines 70-71) and the choice of user agent are timing, randomness and UI. The user agent is kept only as a nondeterministic pick from its pool, and a sleep is part of the step that follows it.
- The `print` diagnostics (lines 63, 66, 77, 113) are console output only.
- The CAPTCHA check keeps only its outcome (none, solved in time, still shown). Real marker detection and the 300 s clock are timing behaviour.
- DOM selector matching, the rendering rules of `innerText`, and the document order of the two card selectors are not modelled: a card holds the text each selector yields.
- `Card.evaluateRaises` does not say which of the three `evaluate` calls raised, because the effect is the same: the card is skipped.
- An exception raised by `asyncio.sleep` or by the CAPTCHA probe `query_selector` itself is not modelled. Either one would take the same outer `except` path as the modelled steps.
- `browser.close()` raising in the `finally` is left out. In the model it always succeeds.
- Cancellation is left out. `except Exception` does not catch `asyncio.CancelledError`, while the bare `except:` at line 76 does.
- Concurrency between invocations is left out. Each call owns its browser and shares nothing.
- Skills that are not strings, which make `' '.join` raise at line 7, are left out: skills are a `seq<string>`.
- General percent-encoding is left out, because the code does none. `SpaceAndPlusCollide` states one consequence: a space and a literal `+` encode alike.
- A full query-string parser is not modelled. `ParseSearchUrl` is only the split at the first `&`. A real parser differs from it in three ways:
  - a raw `&` in city or country also splits the query, so it cuts `l` short;
  - a `#` in any field starts a fragment, so the rest of the URL is not sent;
  - a `%XX` sequence in any field is percent-decoded, so it is not read back as typed.
- The site's answer to context set-up (`Site.contextOk`) is taken to be the same for every user agent. Only the page request sees the agent.
- `IntToDecimal`, `DecimalRoundTrip`: Python 3.11 and later refuse by default to render an `int` of more than 4300 digits. The f-string at line 7 then raises `ValueError` before the `try`. The model renders every `int`.
- `api/main.py`, `src/agent_engine.py` and `run_scarpee.py` are left out: HTTP routing, a pass-through, and a demo script. `src/model/JobQuery.py` appears only as the `JobQuery` datatype.
