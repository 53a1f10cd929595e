# Startup outreach scripts, modelled in Dafny

This project models the decision logic of two Python scripts that look for
startups on venture-capital portfolio pages and write cold emails to them.

`internship_agent.py` holds the desktop agent `NewGradJobAgent`. It keeps a
six-field profile of the candidate. It downloads a portfolio page and asks a
language model to list the startups on it as a JSON array. It cleans the
model's reply and parses it, retrying once. It then asks the model for one
cold email per startup and writes each email, or the error that stopped it,
into a results view.

`outreach.py` drives a headless browser over a fixed list of five portfolio
URLs. A URL that contains one of four domains goes to that site's extractor.
Any other URL, such as benchmark.com's, gets one record holding its page
title. An extractor turns the first three matching elements of the page into company
records. `run_all_scrapes` concatenates the per-site records, records a
timeout as one error marker, and lets any other error end the run.

The model is split by module:

- `PyStrings` (`py_strings.dfy`) holds the Python `str` operations both
  scripts rely on. These are `strip` (with Python's set of blank
  characters), `startswith`/`endswith`, `find`/`rfind`, slicing with
  clamped bounds, `in`, and `str(n)`.
- `ReplyCleanup` (`reply_cleanup.dfy`) holds `scrape_vc_startups`:
  - the 5000-character page excerpt in the extraction prompt;
  - the bracket wrapping of the stripped reply;
  - the parse / find-and-rfind / parse-again cascade.
- `JobAgent` (`job_agent.dfy`) holds the profile and its completeness gate,
  and `generate_cold_email` with its key lookups and defaults. It also holds
  the class `NewGradJobAgent`:
  - `user_info` and the results view are fields;
  - `search_startups_and_generate_emails` and its email loop are methods
    that update them.
- `Outreach` (`outreach.dfy`) holds the URL dispatch, the card shaping of
  the four extractors, their shared `cards[:3]` loop, and `run_all_scrapes`.

Everything outside the program is a parameter:

- **The page download** is `fetch`. It gives the page text, or a failure for
  any transport error or non-2xx status.
- **The extraction call to the model** is `ask`. It gives the reply, or a
  failure. A `None` reply counts as a failure, because `.strip()` on it
  raises inside the same handler.
- **The email call to the model** is `compose`. It is given the request
  record; `JobAgent.PromptText` is the exact text the model is shown for it.
  It gives the reply's `message.content`, which may be None, or a failure.
- **`json.loads`** is `decode`. It gives the parsed array, or `None` for a
  decode error. A text that starts with `[` and ends with `]` can only parse
  as an array, and the first parse always gets such a text.
- **The browser** is a `Page` value (the matched elements and the title) and
  the parameter `browser`. `browser` says how each site's visit ends: its
  page loaded, `asyncio.wait_for` timed out, or some other error was raised.

`internship_agent.py` has no code-fence handling and no table of fallback
startups. The reply is wrapped in brackets before the first parse, so the
first `[` is at index 0 and the last `]` is at the end. The retry slice is
therefore the whole text, and the retry parses the same text again
(`RetrySliceIsWhole`, `RecoverIsOneParse`). A reply with prose around an
array, such as `Sure! [...] Hope this helps!`, therefore gives the empty
list.

## Model

| member | source | states |
|---|---|---|
| PyStrings.StripTrims | internship_agent.py:149 | the result is empty exactly when every character is blank; otherwise it neither starts nor ends with a blank |
| PyStrings.StripKeepsMiddle | outreach.py:56 | the result is a contiguous part of the input and only blanks lie on either side of it |
| PyStrings.Find | internship_agent.py:165 | `find` gives -1 exactly when the character is absent, else the first index holding it |
| PyStrings.RFind | internship_agent.py:166 | `rfind` gives -1 exactly when the character is absent, else the last index holding it |
| PyStrings.Slice | internship_agent.py:168 | a slice with in-range bounds is the subsequence between them; out-of-range bounds never fail and never lengthen |
| PyStrings.Prefix | internship_agent.py:117 | `s[:n]` is the first `min(n, len(s))` characters |
| PyStrings.ContainsIffOccurs | outreach.py:118-124 | the left-to-right `in` scan holds exactly when the needle occurs at some index |
| PyStrings.NatToString | internship_agent.py:246 | `str(n)` is a non-empty run of decimal digits whose value is `n`, with no leading zero (`"0"` for zero) |
| ReplyCleanup.PageExcerpt | internship_agent.py:117 | the excerpt is a prefix of the page of at most 5000 characters; it is the whole page when the page is shorter and exactly 5000 characters otherwise |
| ReplyCleanup.PromptIgnoresTail | internship_agent.py:115-136 | nothing after the first 5000 characters of a page changes the extraction prompt, whose length is then fixed |
| ReplyCleanup.Wrap | internship_agent.py:150-153 | the wrapped text always starts with `[` and ends with `]` |
| ReplyCleanup.WrapShape | internship_agent.py:150-153 | the wrapped text is the original with `[` in front exactly when it did not start with one and `]` at the end exactly when it did not end with one |
| ReplyCleanup.WrapIdempotent | internship_agent.py:150-153 | wrapping leaves a text unchanged exactly when it is already bracketed on both ends; wrapping twice equals wrapping once |
| ReplyCleanup.WrapAddsOnlyMissing | internship_agent.py:150-153 | the wrapped text keeps the original at whichever end already had its bracket |
| ReplyCleanup.CleanIsBracketed | internship_agent.py:149-153 | the text given to the first parse is always bracketed, and a stripped reply that already was passes through unchanged |
| ReplyCleanup.RetrySliceIsWhole | internship_agent.py:164-168 | on a bracketed text the retry slice is the whole text, and the "no JSON array" branch cannot be taken |
| ReplyCleanup.RecoverIsOneParse | internship_agent.py:155-178 | the parse-and-retry cascade gives the array of one parse of the cleaned reply, or the empty list when that parse fails |
| ReplyCleanup.ScrapeVcStartups | internship_agent.py:107-182 | a download failure gives no startups and sends no prompt; otherwise exactly the excerpt prompt is sent; startups are returned only when both calls succeeded |
| ReplyCleanup.ScrapeOutcome | internship_agent.py:107-182 | the startups are the parse of the cleaned model reply when the download and the model call succeed, and the empty list in every other case |
| JobAgent.GenerateColdEmail | internship_agent.py:184-222 | an incomplete profile raises the profile error and a nameless startup raises `KeyError('name')`, both before any model call; otherwise exactly one request is sent; a reply gives its content (possibly None) and a failed call gives `ModelFailure` carrying the call's error message |
| JobAgent.PromptShowsTarget | internship_agent.py:191-194 | right after the opening sentence the prompt shows `Startup: <name>`, then `Industry: <industry>` (`Industry: Tech` when the key is missing) |
| JobAgent.PromptShowsLocation | internship_agent.py:194-195 | the Industry line is followed at once by the startup's `Location: <location>` line (`Location: Remote` when the key is missing), so that line sits in the startup's slot and not among the candidate lines |
| JobAgent.TargetDefaults | internship_agent.py:193-195 | the request shows the startup's name, a missing industry as "Tech" and a missing location as "Remote"; a present value is shown unchanged |
| JobAgent.AbortIsFinal | internship_agent.py:248-260 | once an error has escaped the per-startup handler, later startups change nothing |
| JobAgent.EveryNamedStartupIsReported | internship_agent.py:248-256 | when every startup has a name the loop never stops early; each startup gets one report, in order: the profile error when the profile is incomplete, otherwise the model's email text, the None-content report, or the failed call's message |
| JobAgent.NamedReports | internship_agent.py:248-256 | when every startup has a name, report `i` is what the loop body writes for startup `i` |
| JobAgent.IncompleteProfileNeverAsks | internship_agent.py:188-189 | with an incomplete profile no request is ever sent and every report is the profile error |
| JobAgent.NamelessStartupEndsRun | internship_agent.py:255-256 | the first startup without a name ends the run; only the startups before it are reported and none after it is processed |
| JobAgent.NewGradJobAgent.constructor | internship_agent.py:16-23 | the profile starts with six empty fields, so it is not complete |
| JobAgent.NewGradJobAgent.SaveUserInfo | internship_agent.py:90-99 | the six entry values replace the whole profile and nothing else changes |
| JobAgent.NewGradJobAgent.SearchStartupsAndGenerateEmails | internship_agent.py:224-260 | an empty URL stops before scraping; no startups stops before any email is tried; otherwise the view is cleared to the "Found n startups" header followed by the email loop's reports, and the run ends completed or with the `'name'` error |
| JobAgent.NewGradJobAgent.WriteEmails | internship_agent.py:248-256 | the view gains the rendered reports of the email loop (for a None content: the heading, the first rule, then the `TypeError` line), the requests sent are the loop's requests, and the loop ends early exactly when a nameless startup fails |
| Outreach.ExtractSite | outreach.py:51-110 | the shared `for c in cards[:3]` loop of the Y Combinator, Techstars, Sequoia and a16z extractors returns the shaped records of the first three cards, in order, and never more than three |
| Outreach.ExtractWithPlaywright | outreach.py:112-132 | a URL with an extractor gets that extractor's records (at most three); any other URL gets exactly one `{vc_firm: url, page_title: title}` record |
| Outreach.FirstMatch | outreach.py:118-130 | a site chosen by the if/elif chain is one of the sites tested and its domain occurs in the URL |
| Outreach.FirstMatchAt | outreach.py:118-130 | testing distinct sites in turn chooses a site exactly when its domain occurs in the URL and no earlier site's domain does |
| Outreach.FirstMatchNone | outreach.py:118-131 | the chain falls through to the generic visit exactly when no tested domain occurs in the URL |
| Outreach.DispatchFirstMatch | outreach.py:118-130 | the extractor chosen is the first of Y Combinator, Techstars, Sequoia, a16z whose domain occurs in the URL; the generic visit happens exactly when none occurs |
| Outreach.HarvestBound | outreach.py:52 | an extractor keeps no more records than the cards it looked at |
| Outreach.OneRecordPerCard | outreach.py:52-59 | on every site but Techstars each card gives exactly one record, in card order |
| Outreach.TechstarsKeepsLinkedCards | outreach.py:68-76 | Techstars keeps exactly as many records as there are cards with a non-empty text and a non-empty link, and every record it keeps has a non-empty link |
| Outreach.CompanyNamesTrimmed | outreach.py:56 | every record an extractor keeps is a company with its site's label, and its name neither starts nor ends with a blank |
| Outreach.OriginPrefixedLinks | outreach.py:55-91 | Y Combinator links always start with `https://www.ycombinator.com` and Sequoia links with `https://www.sequoiacap.com` |
| Outreach.ExtractedLength | outreach.py:112-130 | one loaded page gives at most three records, at least one for a URL without an extractor, and never an error marker |
| Outreach.RunAllScrapes | outreach.py:134-145 | the run visits the five URLs in list order with the outcome `Gathered` describes |
| Outreach.GatheredStep | outreach.py:137-144 | a site that does not raise appends its records, or its one timeout marker, to the records gathered so far |
| Outreach.GatheredStopsAtError | outreach.py:136-144 | once a site raises something other than a timeout, later sites change nothing |
| Outreach.GatheredIsCollected | outreach.py:136-145 | the run succeeds exactly when no site raised; its records are then every site's records in the order of the URL list |
| Outreach.FirstErrorEndsRun | outreach.py:139-144 | the run fails with the message of the first site that raised |
| Outreach.TimeoutMarkers | outreach.py:142-144 | each timed-out site leaves exactly one error marker, no other marker appears, and no site adds more than three records |

## Left out

- The Tkinter window: `setup_gui`, the entries, the status label, `window.update` and the message boxes. The dialogs' outcomes are the `SearchOutcome` values.
- The debug `print` calls and the `logging` calls.
- `requests.get`, the OpenAI chat calls and `json.loads`. They are the parameters `fetch`, `ask`, `compose` and `decode`. The model name, temperature, token limits and the 10-second download timeout are not modelled.
- JSON arrays whose elements are not objects, and values that are not strings. Such an element makes `startup['name']` raise `TypeError` rather than `KeyError`. Startups are records of the three keys the agent reads; any other key is ignored.
- The Playwright session: launch, navigation, waiting, scrolling, `asyncio.sleep`, selectors and `browser.close`. A page is given as its matched elements and its title. A Playwright `TimeoutError` from `wait_for_selector` is not an `asyncio.TimeoutError`, so it reaches `browser` as an error that ends the run.
- Which extractor each of the five listed URLs reaches is not proved for those concrete strings. `DispatchFirstMatch` states the rule for every URL.
- `save_results` and its CSV file, the `EMAIL_TEMPLATE` constant, the `llm` client, and `agent.py`. These are file I/O, an unused constant and a third-party browser agent.
- The two model calls are functions of their prompt, so two identical requests get the same answer. The real calls sample at temperature 0.7 and may answer differently each time.
