/**
 * The decision logic of `NewGradJobAgent.scrape_vc_startups`: the page excerpt
 * that goes into the extraction prompt, and the string surgery that turns the
 * language model's reply into something the JSON parser is asked to read.
 *
 * The page download, the model call and `json.loads` are parameters:
 * `fetch` gives the page text or the transport error, `ask` the model's reply
 * or its error, `decode` the parsed array or None on a decode error.
 */
module ReplyCleanup {
  import opened Wrappers
  import opened PyStrings

  /** Only this many leading characters of the page are shown to the model. */
  const ExcerptLimit: nat := 5000

  const PromptIntro: string := "Analyze this VC website content and extract startup information:\n\n"

  const PromptInstructions: string :=
    "...\n\n"
    + "Extract startups that might be interested in entry-level positions for new graduates. "
    + "Focus on startups that are actively hiring and have a strong engineering or technical focus. "
    + "For each startup, return a JSON object with:\n"
    + "- name: Startup name\n"
    + "- website: Startup's website URL\n"
    + "- industry: Startup's industry focus\n"
    + "- stage: Startup's current stage (e.g., seed, series A, etc.)\n"
    + "- location: Startup's location\n"
    + "Return as a JSON array of these objects. Format the response exactly like this:\n"
    + "[\n"
    + "    {\n"
    + "        \"name\": \"Startup Name\",\n"
    + "        \"website\": \"https://startup.com\",\n"
    + "        \"industry\": \"Tech\",\n"
    + "        \"stage\": \"seed\",\n"
    + "        \"location\": \"San Francisco\"\n"
    + "    }\n"
    + "]\n"

  /** `html_content[:5000]`: the part of the page the model gets to see. */
  function PageExcerpt(page: string): (r: string)
    ensures |r| <= ExcerptLimit && |r| <= |page| && r == page[..|r|]
    ensures |page| <= ExcerptLimit ==> r == page
    ensures |page| >= ExcerptLimit ==> |r| == ExcerptLimit
  {
    Prefix(page, ExcerptLimit)
  }

  function ExtractionPrompt(page: string): string {
    PromptIntro + PageExcerpt(page) + PromptInstructions
  }

  /** Nothing after the first 5000 characters of a page can change the prompt. */
  lemma PromptIgnoresTail(page: string, tail: string)
    requires |page| >= ExcerptLimit
    ensures ExtractionPrompt(page + tail) == ExtractionPrompt(page)
    ensures |ExtractionPrompt(page)| == |PromptIntro| + ExcerptLimit + |PromptInstructions|
  {
    assert (page + tail)[..ExcerptLimit] == page[..ExcerptLimit];
  }

  /** The conditional bracket wrapping: `[` is put in front unless the text
      already starts with one, then `]` is put at the end unless it already
      ends with one. */
  function Wrap(t: string): (r: string)
    ensures |r| >= 2 && r[0] == '[' && r[|r| - 1] == ']'
  {
    var front := if StartsWith(t, "[") then t else "[" + t;
    assert front[0] == '[';
    if EndsWith(front, "]") then
      assert front[|front| - 1] == ']';
      front
    else front + "]"
  }

  /** Each bracket is added exactly when the text lacks it at that end; the
      text itself sits unchanged between them. */
  lemma WrapShape(t: string)
    ensures Wrap(t) == (if StartsWith(t, "[") then "" else "[") + t + (if EndsWith(t, "]") then "" else "]")
  {
    EndsWithChar(t, ']');
    if !StartsWith(t, "[") {
      var front := "[" + t;
      EndsWithChar(front, ']');
      if t != [] {
        assert front[|front| - 1] == t[|t| - 1];
      }
    }
  }

  /** `content.strip()` followed by the bracket wrapping: what the first
      `json.loads` is given. */
  function Clean(content: string): string {
    Wrap(Strip(content))
  }

  /** The try/except cascade over the cleaned reply: parse it; on a decode
      error slice from the first `[` to the last `]` and parse again; when
      that fails too, or no bracket pair is found, give the empty list. */
  function ParseWithRetry<V>(cleaned: string, decode: string -> Option<seq<V>>): seq<V> {
    match decode(cleaned)
    case Some(startups) => startups
    case None =>
      var startIdx := Find(cleaned, '[');
      var endIdx := RFind(cleaned, ']');
      if startIdx != -1 && endIdx != -1 then
        match decode(Slice(cleaned, startIdx, endIdx + 1))
        case Some(startups) => startups
        case None => []
      else []
  }

  /** What `scrape_vc_startups` makes of the model's reply. */
  function Recover<V>(content: string, decode: string -> Option<seq<V>>): seq<V> {
    ParseWithRetry(Clean(content), decode)
  }

  /** The two HTTP and model calls of `scrape_vc_startups`, and what it
      returns: the decoded startups together with every prompt sent. */
  datatype Scraped<V> = Scraped(startups: seq<V>, prompts: seq<string>)

  function ScrapeVcStartups<V>(
    url: string,
    fetch: string -> Result<string, string>,
    ask: string -> Result<string, string>,
    decode: string -> Option<seq<V>>): (r: Scraped<V>)
    ensures |r.prompts| <= 1
    ensures fetch(url).Failure? ==> r == Scraped([], [])
    ensures fetch(url).Success? ==> r.prompts == [ExtractionPrompt(fetch(url).value)]
    ensures r.startups != [] ==> fetch(url).Success? && ask(r.prompts[0]).Success?
  {
    match fetch(url)
    case Failure(_) => Scraped([], [])
    case Success(page) =>
      var prompt := ExtractionPrompt(page);
      match ask(prompt)
      case Failure(_) => Scraped([], [prompt])
      case Success(reply) => Scraped(Recover(reply, decode), [prompt])
  }

  /** Bracket wrapping leaves a text alone exactly when it is already
      bracketed on both ends, and wrapping twice is wrapping once. */
  lemma WrapIdempotent(t: string)
    ensures Wrap(t) == t <==> StartsWith(t, "[") && EndsWith(t, "]")
    ensures Wrap(Wrap(t)) == Wrap(t)
  {
    var w := Wrap(t);
    WrapShape(t);
    WrapShape(w);
    StartsWithChar(t, '[');
    EndsWithChar(t, ']');
    StartsWithChar(w, '[');
    EndsWithChar(w, ']');
    assert "" + w + "" == w;
  }

  /** A wrapped text starts with `[` and ends with `]`, and a bracket is
      added only on a side where the text lacks one: whatever the text
      already had at that end is kept. */
  lemma WrapAddsOnlyMissing(t: string)
    ensures StartsWith(Wrap(t), "[") && EndsWith(Wrap(t), "]")
    ensures StartsWith(t, "[") ==> StartsWith(Wrap(t), t)
    ensures EndsWith(t, "]") ==> EndsWith(Wrap(t), t)
  {
    WrapShape(t);
    var w := Wrap(t);
    assert w[..1] == [w[0]];
    assert w[|w| - 1..] == [w[|w| - 1]];
    if StartsWith(t, "[") {
      assert w[..|t|] == t;
    }
    if EndsWith(t, "]") {
      assert w[|w| - |t|..] == t;
    }
  }

  /** Before the first parse the trimmed reply is always bracketed, and a
      trimmed reply that already was passes through unchanged. */
  lemma CleanIsBracketed(content: string)
    ensures StartsWith(Clean(content), "[") && EndsWith(Clean(content), "]")
    ensures StartsWith(Strip(content), "[") && EndsWith(Strip(content), "]") ==> Clean(content) == Strip(content)
  {
    var t := Strip(content);
    WrapAddsOnlyMissing(t);
    WrapIdempotent(t);
  }

  /** On the retry path the first `[` of a bracketed text sits at index 0
      and its last `]` at the final index, so the retry slice is the whole
      text and the "no JSON array found" branch can never be taken. */
  lemma RetrySliceIsWhole(c: string)
    requires |c| >= 2 && c[0] == '[' && c[|c| - 1] == ']'
    ensures Find(c, '[') == 0 && RFind(c, ']') == |c| - 1
    ensures Slice(c, Find(c, '['), RFind(c, ']') + 1) == c
  {
  }

  /** The reply recovery amounts to one parse of the cleaned text: its array
      when it parses, the empty list when it does not. The retry never sees a
      different text, so two failed parses (or one) give the empty list. */
  lemma RecoverIsOneParse<V>(content: string, decode: string -> Option<seq<V>>)
    ensures decode(Clean(content)).Some? ==> Recover(content, decode) == decode(Clean(content)).value
    ensures decode(Clean(content)).None? ==> Recover(content, decode) == []
  {
    ParseBracketed(Clean(content), decode);
  }

  /** On a bracketed text the cascade is a single parse. */
  lemma ParseBracketed<V>(c: string, decode: string -> Option<seq<V>>)
    requires |c| >= 2 && c[0] == '[' && c[|c| - 1] == ']'
    ensures decode(c).Some? ==> ParseWithRetry(c, decode) == decode(c).value
    ensures decode(c).None? ==> ParseWithRetry(c, decode) == []
  {
    RetrySliceIsWhole(c);
  }

  /** Whatever fails (the download, the model call or both parses),
      `scrape_vc_startups` returns the empty list instead of raising; it
      returns a non-empty list only from a successful parse of the cleaned
      model reply to the prompt built from the page. */
  lemma ScrapeOutcome<V>(
    url: string,
    fetch: string -> Result<string, string>,
    ask: string -> Result<string, string>,
    decode: string -> Option<seq<V>>)
    ensures var r := ScrapeVcStartups(url, fetch, ask, decode);
      r.startups == (
        if fetch(url).Success? && ask(ExtractionPrompt(fetch(url).value)).Success?
        then (match decode(Clean(ask(ExtractionPrompt(fetch(url).value)).value))
              case Some(startups) => startups
              case None => [])
        else [])
  {
    if fetch(url).Success? {
      var prompt := ExtractionPrompt(fetch(url).value);
      if ask(prompt).Success? {
        RecoverIsOneParse(ask(prompt).value, decode);
      }
    }
  }
}
