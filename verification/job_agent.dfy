/**
 * `NewGradJobAgent` without its window: the six-field profile it keeps, the
 * completeness gate and defaults of `generate_cold_email`, and the control
 * rules of `search_startups_and_generate_emails`, whose text area is kept as
 * the sequence of chunks inserted into it.
 *
 * The two model calls are parameters giving the reply or the error message:
 * `ask` for the extraction prompt, `compose` for an email request (shown to
 * the model as `PromptText` of it). The content of an email reply may be
 * None. Every prompt and request the agent sends is returned, so "before any
 * model call" can be stated as "nothing was sent".
 */
module JobAgent {
  import opened Wrappers
  import opened PyStrings
  import ReplyCleanup

  /** The `user_info` dictionary: exactly these six keys. */
  datatype Profile = Profile(
    name: string,
    degree: string,
    graduationYear: string,
    skills: string,
    achievements: string,
    location: string)

  const EmptyProfile: Profile := Profile("", "", "", "", "", "")

  /** `all(self.user_info.values())`: no field is the empty string. */
  predicate Complete(p: Profile) {
    && p.name != ""
    && p.degree != ""
    && p.graduationYear != ""
    && p.skills != ""
    && p.achievements != ""
    && p.location != ""
  }

  /** One decoded startup object, cut down to the keys the agent reads; a
      key the object lacks is None. */
  datatype Startup = Startup(name: Option<string>, industry: Option<string>, location: Option<string>)

  /** `d.get(key, default)` once the key's entry is known. */
  function Get(entry: Option<string>, default: string): string {
    match entry
    case Some(v) => v
    case None => default
  }

  /** The three ways `generate_cold_email` can raise. */
  datatype EmailError =
    | ProfileIncomplete        // the ValueError of the profile check
    | MissingKey(key: string)  // the KeyError of `startup_info['name']`
    | ModelFailure(message: string)

  const ProfileIncompleteMessage: string := "Please fill in all your profile information first"

  /** `str(e)` for each error. */
  function ErrorText(e: EmailError): string {
    match e
    case ProfileIncomplete => ProfileIncompleteMessage
    case MissingKey(k) => "'" + k + "'"
    case ModelFailure(m) => m
  }

  /** The three startup fields the email prompt shows: `name` is looked up
      with `[]`, the other two with `.get` and a default. */
  datatype EmailTarget = EmailTarget(startupName: string, industry: string, location: string)

  function Target(startup: Startup): EmailTarget
    requires startup.name.Some?
  {
    EmailTarget(startup.name.value, Get(startup.industry, "Tech"), Get(startup.location, "Remote"))
  }

  /** What `generate_cold_email` sends to the model: the startup's three
      fields and the candidate's profile. */
  datatype EmailRequest = EmailRequest(target: EmailTarget, profile: Profile)

  const EmailIntro: string :=
    "Write a professional cold email for a new grad entry-level position. Include these details:\n"

  const EmailInstructions: string :=
    "\n"
    + "The email should be personalized and include:\n"
    + "1. A brief introduction as a recent graduate\n"
    + "2. Why you're interested in the startup\n"
    + "3. Relevant skills and experience from your degree\n"
    + "4. How you can contribute to their early-stage company\n"
    + "5. A professional closing\n"
    + "\n"
    + "Use this information about the candidate:\n"

  const EmailClosing: string := "\nMake it concise but impactful (3-4 paragraphs)."

  /** One `key: value` line of the prompt. */
  function Line(key: string, value: string): string {
    key + ": " + value + "\n"
  }

  /** The three lines about the startup. */
  function TargetLines(t: EmailTarget): string {
    Line("Startup", t.startupName) + Line("Industry", t.industry) + Line("Location", t.location)
  }

  /** The six lines about the candidate. */
  function CandidateLines(p: Profile): string {
    Line("Name", p.name)
    + Line("Degree", p.degree)
    + Line("Graduation Year", p.graduationYear)
    + Line("Skills", p.skills)
    + Line("Achievements", p.achievements)
    + Line("Location", p.location)
  }

  /** The prompt text the model is shown for a request. */
  function PromptText(req: EmailRequest): string {
    EmailIntro + TargetLines(req.target) + (EmailInstructions + CandidateLines(req.profile) + EmailClosing)
  }

  function EmailPrompt(startup: Startup, p: Profile): EmailRequest
    requires startup.name.Some?
  {
    EmailRequest(Target(startup), p)
  }

  /** The email model call: the reply's `message.content`, which may be
      None, or the message of the error the call raised. */
  type Composer = EmailRequest -> Result<Option<string>, string>

  /** The returned content (possibly None) or the error, and the prompts sent
      to the model (at most one). */
  datatype EmailAttempt = EmailAttempt(email: Result<Option<string>, EmailError>, prompts: seq<EmailRequest>)

  /** `generate_cold_email`, with the profile passed in explicitly. */
  function GenerateColdEmail(profile: Profile, startup: Startup, compose: Composer): (r: EmailAttempt)
    ensures !Complete(profile) ==> r == EmailAttempt(Failure(ProfileIncomplete), [])
    ensures Complete(profile) && startup.name.None? ==> r == EmailAttempt(Failure(MissingKey("name")), [])
    ensures r.prompts != [] <==> Complete(profile) && startup.name.Some?
    ensures r.prompts != [] ==> r.prompts == [EmailPrompt(startup, profile)]
    ensures r.email.Success? <==> r.prompts != [] && compose(r.prompts[0]).Success?
    ensures r.email.Success? ==> r.email.value == compose(r.prompts[0]).value
    ensures r.prompts != [] && compose(r.prompts[0]).Failure? ==> r.email == Failure(ModelFailure(compose(r.prompts[0]).error))
  {
    if !Complete(profile) then EmailAttempt(Failure(ProfileIncomplete), [])
    else if startup.name.None? then EmailAttempt(Failure(MissingKey("name")), [])
    else
      var prompt := EmailPrompt(startup, profile);
      match compose(prompt)
      case Success(content) => EmailAttempt(Success(content), [prompt])
      case Failure(m) => EmailAttempt(Failure(ModelFailure(m)), [prompt])
  }

  /** The prompt shows the startup's name, a missing industry as "Tech" and
      a missing location as "Remote"; a present one is shown as it is, even
      when empty. */
  lemma TargetDefaults(startup: Startup)
    requires startup.name.Some?
    ensures Target(startup).startupName == startup.name.value
    ensures Target(startup).industry == if startup.industry.Some? then startup.industry.value else "Tech"
    ensures Target(startup).location == if startup.location.Some? then startup.location.value else "Remote"
    ensures startup.industry.None? ==> Target(startup) == Target(startup.(industry := Some("Tech")))
    ensures startup.location.None? ==> Target(startup) == Target(startup.(location := Some("Remote")))
  {
  }

  /** The prompt shows the startup's name and then its industry, or "Tech"
      when the key is missing, each on a line of its own right after the
      opening sentence. */
  lemma PromptShowsTarget(startup: Startup, p: Profile)
    requires startup.name.Some?
    ensures var prompt := PromptText(EmailPrompt(startup, p));
      var at := |EmailIntro|;
      && OccursAt(prompt, Line("Startup", startup.name.value), at)
      && OccursAt(prompt, Line("Industry", Get(startup.industry, "Tech")), at + |Line("Startup", startup.name.value)|)
      && (startup.industry.None? ==> OccursAt(prompt, Line("Industry", "Tech"), at + |Line("Startup", startup.name.value)|))
  {
    TargetLinesOccur(EmailIntro, Target(startup), EmailInstructions + CandidateLines(p) + EmailClosing);
  }

  /** The line right after the industry line shows the startup's location,
      or "Remote" when the key is missing. The candidate's own location line
      comes later, among the candidate lines. */
  lemma PromptShowsLocation(startup: Startup, p: Profile)
    requires startup.name.Some?
    ensures var prompt := PromptText(EmailPrompt(startup, p));
      var industry := Line("Industry", Get(startup.industry, "Tech"));
      var at := |EmailIntro| + |Line("Startup", startup.name.value)|;
      && OccursAt(prompt, industry + Line("Location", Get(startup.location, "Remote")), at)
      && (startup.location.None? ==> OccursAt(prompt, industry + Line("Location", "Remote"), at))
  {
    TargetLinesOccur(EmailIntro, Target(startup), EmailInstructions + CandidateLines(p) + EmailClosing);
  }

  /** Where the three startup lines sit in a text built around them. */
  lemma TargetLinesOccur(pre: string, t: EmailTarget, post: string)
    ensures var s := pre + TargetLines(t) + post;
      var startup := Line("Startup", t.startupName);
      && OccursAt(s, startup, |pre|)
      && OccursAt(s, Line("Industry", t.industry), |pre| + |startup|)
      && OccursAt(s, Line("Location", t.location), |pre| + |startup| + |Line("Industry", t.industry)|)
      && OccursAt(s, Line("Industry", t.industry) + Line("Location", t.location), |pre| + |startup|)
  {
    var a := Line("Startup", t.startupName);
    var b := Line("Industry", t.industry);
    var c := Line("Location", t.location);
    var s := pre + (a + b + c) + post;
    OccursInMiddle(pre, a + b + c, post);
    OccursAtStart(a, b);
    OccursAtStart(a + b, c);
    OccursWithin(a + b + c, a + b, a, 0, 0);
    OccursInMiddle(a, b, c);
    OccursAtEnd(a + b, c);
    OccursWithin(s, a + b + c, a, |pre|, 0);
    OccursWithin(s, a + b + c, b, |pre|, |a|);
    OccursWithin(s, a + b + c, c, |pre|, |a + b|);
    ConcatAssoc(a, b, c);
    OccursAtEnd(a, b + c);
    OccursWithin(s, a + b + c, b + c, |pre|, |a|);
  }

  /** One entry of the results view per startup handled. */
  datatype Report =
    | Emailed(startupName: string, email: string)
    | Failed(startupName: string, reason: string)
    | NoContent(startupName: string)  // the reply's content was None

  /** The emails loop so far: the reports written, the prompts sent, and
      whether an error escaped the per-startup handler. */
  datatype EmailRun = EmailRun(reports: seq<Report>, prompts: seq<EmailRequest>, aborted: bool)

  /** The `for startup in startups` loop. A startup whose email fails is
      reported and the loop goes on, except when the startup has no `name`:
      the handler's own `startup['name']` then raises and ends the run. */
  function RunEmails(profile: Profile, startups: seq<Startup>, compose: Composer): EmailRun
    decreases |startups|
  {
    if startups == [] then EmailRun([], [], false)
    else
      var before := RunEmails(profile, startups[..|startups| - 1], compose);
      if before.aborted then before
      else EmailStep(profile, before, startups[|startups| - 1], compose)
  }

  /** What the loop body writes for a named startup: the email, or the
      error's text. */
  function ReportFor(startupName: string, email: Result<Option<string>, EmailError>): Report {
    match email
    case Success(Some(text)) => Emailed(startupName, text)
    case Success(None) => NoContent(startupName)
    case Failure(e) => Failed(startupName, ErrorText(e))
  }

  /** One pass of the loop body, after the earlier passes left `before`. */
  function EmailStep(profile: Profile, before: EmailRun, startup: Startup, compose: Composer): EmailRun {
    var attempt := GenerateColdEmail(profile, startup, compose);
    if attempt.email.Failure? && startup.name.None? then
      EmailRun(before.reports, before.prompts + attempt.prompts, true)
    else
      EmailRun(before.reports + [ReportFor(startup.name.value, attempt.email)], before.prompts + attempt.prompts, false)
  }

  const Rule: string := "--------------------------------------------------------------------------------\n"

  function FoundHeader(n: nat): string {
    "Found " + NatToString(n) + " startups. Generating emails...\n\n"
  }

  /** `str(e)` of the TypeError that `None + "\n"` raises. */
  const NoneConcatError: string := "unsupported operand type(s) for +: 'NoneType' and 'str'"

  function ErrorLine(startupName: string, reason: string): string {
    "Error generating email for " + startupName + ": " + reason + "\n"
  }

  /** The chunks one report inserts into the results view. A None content
      gets the heading and the first rule inserted before `email + "\n"`
      raises, then the handler's error line. */
  function ReportText(r: Report): seq<string> {
    match r
    case Emailed(n, email) => ["\nEmail for " + n + ":\n", Rule, email + "\n", Rule]
    case Failed(n, reason) => [ErrorLine(n, reason)]
    case NoContent(n) => ["\nEmail for " + n + ":\n", Rule, ErrorLine(n, NoneConcatError)]
  }

  function Render(reports: seq<Report>): seq<string>
    decreases |reports|
  {
    if reports == [] then []
    else Render(reports[..|reports| - 1]) + ReportText(reports[|reports| - 1])
  }

  /** Once an error has escaped the loop nothing more happens. */
  lemma {:induction false} AbortIsFinal(profile: Profile, xs: seq<Startup>, ys: seq<Startup>, compose: Composer)
    requires RunEmails(profile, xs, compose).aborted
    ensures RunEmails(profile, xs + ys, compose) == RunEmails(profile, xs, compose)
    decreases |ys|
  {
    if ys == [] {
      assert xs + ys == xs;
    } else {
      var zs := ys[..|ys| - 1];
      AbortIsFinal(profile, xs, zs, compose);
      assert (xs + ys)[..|xs + ys| - 1] == xs + zs;
    }
  }

  /** One more startup runs one more loop body, unless the run already ended. */
  lemma RunEmailsSnoc(profile: Profile, startups: seq<Startup>, i: nat, compose: Composer)
    requires i < |startups|
    ensures RunEmails(profile, startups[..i + 1], compose) ==
      var before := RunEmails(profile, startups[..i], compose);
      if before.aborted then before else EmailStep(profile, before, startups[i], compose)
  {
    assert startups[..i + 1][..i] == startups[..i];
  }

  /** A run that ended after the first `k` startups is the whole run. */
  lemma AbortedPrefix(profile: Profile, startups: seq<Startup>, k: nat, compose: Composer)
    requires k <= |startups| && RunEmails(profile, startups[..k], compose).aborted
    ensures RunEmails(profile, startups, compose) == RunEmails(profile, startups[..k], compose)
  {
    AbortIsFinal(profile, startups[..k], startups[k..], compose);
    assert startups[..k] + startups[k..] == startups;
  }

  lemma RenderSnoc(reports: seq<Report>, r: Report)
    ensures Render(reports + [r]) == Render(reports) + ReportText(r)
  {
    assert (reports + [r])[..|reports|] == reports;
  }

  /** When every startup has a name, one failure never stops the loop: each
      startup gets exactly one report, in order. With an incomplete profile
      it is the profile error; otherwise it is the model's email, the
      None-content report, or the model's error message. */
  lemma EveryNamedStartupIsReported(profile: Profile, startups: seq<Startup>, compose: Composer)
    requires forall i :: 0 <= i < |startups| ==> startups[i].name.Some?
    ensures var run := RunEmails(profile, startups, compose);
      && !run.aborted
      && |run.reports| == |startups|
      && (forall i :: 0 <= i < |startups| ==> run.reports[i].startupName == startups[i].name.value)
      && (forall i :: 0 <= i < |startups| ==>
            (run.reports[i].Emailed? <==>
               Complete(profile) && compose(EmailPrompt(startups[i], profile)).Success? && compose(EmailPrompt(startups[i], profile)).value.Some?))
      && (forall i :: 0 <= i < |startups| ==> !Complete(profile) ==>
            run.reports[i] == Failed(startups[i].name.value, ProfileIncompleteMessage))
      && (forall i :: 0 <= i < |startups| ==> Complete(profile) ==>
            match compose(EmailPrompt(startups[i], profile))
            case Success(Some(text)) => run.reports[i] == Emailed(startups[i].name.value, text)
            case Success(None) => run.reports[i] == NoContent(startups[i].name.value)
            case Failure(m) => run.reports[i] == Failed(startups[i].name.value, m))
  {
    var run := RunEmails(profile, startups, compose);
    NamedReports(profile, startups, compose);
    forall i | 0 <= i < |startups|
      ensures var attempt := GenerateColdEmail(profile, startups[i], compose);
        run.reports[i] == ReportFor(startups[i].name.value, attempt.email)
    {
    }
  }

  /** With every startup named, report `i` is what the loop body writes for
      startup `i`. */
  lemma {:induction false} NamedReports(profile: Profile, startups: seq<Startup>, compose: Composer)
    requires forall i :: 0 <= i < |startups| ==> startups[i].name.Some?
    ensures var run := RunEmails(profile, startups, compose);
      && !run.aborted
      && |run.reports| == |startups|
      && (forall i :: 0 <= i < |startups| ==>
            run.reports[i] == ReportFor(startups[i].name.value, GenerateColdEmail(profile, startups[i], compose).email))
    decreases |startups|
  {
    if startups != [] {
      var init := startups[..|startups| - 1];
      NamedReports(profile, init, compose);
      var run := RunEmails(profile, startups, compose);
      var before := RunEmails(profile, init, compose);
      forall i | 0 <= i < |startups|
        ensures run.reports[i] == ReportFor(startups[i].name.value, GenerateColdEmail(profile, startups[i], compose).email)
      {
        if i < |init| {
          assert run.reports[i] == before.reports[i];
          assert startups[i] == init[i];
        }
      }
    }
  }

  /** With an incomplete profile the model is never asked: every named
      startup is reported with the profile error. */
  lemma {:induction false} IncompleteProfileNeverAsks(profile: Profile, startups: seq<Startup>, compose: Composer)
    requires !Complete(profile)
    ensures var run := RunEmails(profile, startups, compose);
      && run.prompts == []
      && (forall i :: 0 <= i < |run.reports| ==> run.reports[i] == Failed(run.reports[i].startupName, ProfileIncompleteMessage))
    decreases |startups|
  {
    if startups != [] {
      IncompleteProfileNeverAsks(profile, startups[..|startups| - 1], compose);
    }
  }

  /** A startup without a name ends the run: the startups after it are never
      processed and no prompt is sent for them. */
  lemma {:induction false} NamelessStartupEndsRun(profile: Profile, startups: seq<Startup>, k: nat, compose: Composer)
    requires k < |startups| && startups[k].name.None?
    requires forall i :: 0 <= i < k ==> startups[i].name.Some?
    ensures RunEmails(profile, startups, compose).aborted
    ensures RunEmails(profile, startups, compose) == RunEmails(profile, startups[..k + 1], compose)
    ensures |RunEmails(profile, startups, compose).reports| == k
  {
    var xs := startups[..k + 1];
    assert xs[..k] == startups[..k];
    NamedReports(profile, startups[..k], compose);
    assert RunEmails(profile, xs, compose).aborted;
    AbortIsFinal(profile, xs, startups[k + 1..], compose);
    assert xs + startups[k + 1..] == startups;
  }

  /** How one search ends: the two early stops, a normal end, or an error
      caught by the outer handler (its message is `str(e)`, which the error
      dialog shows after "An error occurred: "). */
  datatype SearchOutcome = UrlMissing | NoStartupsFound | Completed | Crashed(message: string)

  class NewGradJobAgent {
    var userInfo: Profile
    /** The chunks inserted into the results text area, in order. */
    var resultsText: seq<string>

    /** The window is not modelled; the profile starts with six empty fields,
        so no email can be generated before a save. */
    constructor ()
      ensures userInfo == EmptyProfile && resultsText == []
      ensures !Complete(userInfo)
    {
      userInfo := EmptyProfile;
      resultsText := [];
    }

    /** `save_user_info`: the six entry values replace the whole profile. */
    method SaveUserInfo(entries: Profile)
      modifies this
      ensures userInfo == entries && resultsText == old(resultsText)
    {
      userInfo := entries;
    }

    /** `search_startups_and_generate_emails` with the URL entry's text. */
    method SearchStartupsAndGenerateEmails(
      urlEntry: string,
      fetch: string -> Result<string, string>,
      ask: string -> Result<string, string>,
      compose: Composer,
      decode: string -> Option<seq<Startup>>)
      returns (outcome: SearchOutcome, extractionPrompts: seq<string>, emailRequests: seq<EmailRequest>)
      modifies this
      ensures userInfo == old(userInfo)
      ensures urlEntry == "" ==> outcome == UrlMissing && extractionPrompts == [] && emailRequests == [] && resultsText == old(resultsText)
      ensures urlEntry != "" ==>
        var scraped := ReplyCleanup.ScrapeVcStartups(urlEntry, fetch, ask, decode);
        if scraped.startups == [] then
          outcome == NoStartupsFound && extractionPrompts == scraped.prompts && emailRequests == [] && resultsText == old(resultsText)
        else
          var run := RunEmails(userInfo, scraped.startups, compose);
          && resultsText == [FoundHeader(|scraped.startups|)] + Render(run.reports)
          && extractionPrompts == scraped.prompts
          && emailRequests == run.prompts
          && outcome == (if run.aborted then Crashed(ErrorText(MissingKey("name"))) else Completed)
    {
      if urlEntry == "" {
        outcome, extractionPrompts, emailRequests := UrlMissing, [], [];
        return;
      }
      var scraped := ReplyCleanup.ScrapeVcStartups(urlEntry, fetch, ask, decode);
      extractionPrompts, emailRequests := scraped.prompts, [];
      var startups := scraped.startups;
      if startups == [] {
        outcome := NoStartupsFound;
        return;
      }
      resultsText := [FoundHeader(|startups|)];
      var aborted;
      emailRequests, aborted := WriteEmails(startups, compose);
      outcome := if aborted then Crashed(ErrorText(MissingKey("name"))) else Completed;
    }

    /** The `for startup in startups` loop: each startup's email, or its
        error line, is appended to the results view; the loop stops early
        only when an error escapes the per-startup handler. */
    method WriteEmails(startups: seq<Startup>, compose: Composer)
      returns (prompts: seq<EmailRequest>, aborted: bool)
      modifies this`resultsText
      ensures var run := RunEmails(userInfo, startups, compose);
        && resultsText == old(resultsText) + Render(run.reports)
        && prompts == run.prompts
        && aborted == run.aborted
    {
      var profile := userInfo;
      ghost var run := EmailRun([], [], false);
      ghost var start := resultsText;
      prompts := [];
      var i := 0;
      while i < |startups|
        invariant 0 <= i <= |startups|
        invariant run == RunEmails(profile, startups[..i], compose) && !run.aborted
        invariant resultsText == start + Render(run.reports)
        invariant prompts == run.prompts
      {
        var startup := startups[i];
        RunEmailsSnoc(profile, startups, i, compose);
        var attempt := GenerateColdEmail(profile, startup, compose);
        if attempt.email.Failure? && startup.name.None? {
          AbortedPrefix(profile, startups, i + 1, compose);
          aborted := true;
          return;
        }
        var report := ReportFor(startup.name.value, attempt.email);
        RenderSnoc(run.reports, report);
        ConcatAssoc(start, Render(run.reports), ReportText(report));
        resultsText := resultsText + ReportText(report);
        prompts := prompts + attempt.prompts;
        run := EmailStep(profile, run, startup, compose);
        i := i + 1;
      }
      assert startups[..i] == startups;
      aborted := false;
    }
  }
}
