/**
 * The four analysis pipelines: static analysis of a domain, of a URL and of a
 * submitted HTML page, and dynamic analysis of a link in a sandboxed browser. Each is
 * a fixed sequence of calls into the analysis library with early returns, so the
 * model records every call a pipeline makes, with what it reported, in a log; what a
 * pipeline promises is stated over the calls it made and the result it returned.
 */
module Analysis {
  import opened Wrappers
  import opened Strings
  import Base64

  /** A warning raised by an analyzer; its content is the library's business. */
  datatype Warning = Warning(score: int, name: string, description: string)

  /** What an analysis context holds after an analyzer has run. */
  datatype Verdict = Verdict(safelisted: bool, dangerous: bool, score: int, warnings: seq<Warning>)

  /** A resource the browser loaded, as the browser reports it. */
  type Resource = string

  /** What a browser run leaves in the browser object. */
  datatype Page = Page(
    finalURL: string,
    html: string,
    screenshotData: string,
    visits: seq<string>,
    resources: seq<Resource>)

  /** One call into the analysis library or the browser sandbox, with what it reported. */
  datatype Call =
    | AnalysisCreated(url: string, html: string)
    | DomainAnalyzed(ok: bool, after: Verdict)
    | UrlAnalyzed(ok: bool, after: Verdict)
    | HtmlAnalyzed(ok: bool, after: Verdict)
    | BrandPicked(brand: string)
    | BrowserCreated(url: string)
    | BrowserRan(ok: bool, page: Page)

  /** The URL helpers: the library's `NormalizeURL` and the node's `validateURL`. */
  datatype UrlRules = UrlRules(normalize: string -> string, validate: string -> bool)

  /** The fields of a pipeline's answer; fields a pipeline does not set stay empty. */
  datatype AnalysisResults = AnalysisResults(
    url: string,
    urlFinal: string,
    safelisted: bool,
    dangerous: bool,
    score: int,
    brand: string,
    screenshot: string,
    warnings: seq<Warning>,
    visits: seq<string>,
    resources: seq<Resource>,
    html: string)

  datatype AnalysisError = InvalidURL | InvalidHTML | AnalysisFailed | ConnectionFailed

  /** The prefix of a browser's final URL when the page could not be reached. */
  const ChromeErrorPrefix := "chrome-error://"

  /** The prefix that turns the browser's screenshot data into a data URI. */
  const ScreenshotPrefix := "data:image/png;base64,"

  /** The calls made so far, in order. */
  class CallLog {
    ghost var calls: seq<Call>

    constructor ()
      ensures calls == []
    {
      calls := [];
    }
  }

  /** An analysis context: the page under analysis and the verdict the analyzers build. */
  class Context {
    const url: string
    const html: string
    const log: CallLog
    var safelisted: bool
    var dangerous: bool
    var score: int
    var warnings: seq<Warning>

    function Current(): Verdict
      reads this
    {
      Verdict(safelisted, dangerous, score, warnings)
    }

    /** `NewAnalysis`: a context for the page, with an empty verdict. */
    constructor (url: string, html: string, log: CallLog)
      modifies log
      ensures this.url == url && this.html == html && this.log == log
      ensures Current() == Verdict(false, false, 0, [])
      ensures log.calls == old(log.calls) + [AnalysisCreated(url, html)]
    {
      this.url := url;
      this.html := html;
      this.log := log;
      safelisted, dangerous, score, warnings := false, false, 0, [];
      new;
      log.calls := log.calls + [AnalysisCreated(url, html)];
    }

    /** `AnalyzeDomain`: may change the verdict, and may fail. */
    method AnalyzeDomain() returns (ok: bool)
      modifies this, log
      ensures log.calls == old(log.calls) + [DomainAnalyzed(ok, Current())]
    {
      ok := *;
      safelisted, dangerous, score, warnings := *, *, *, *;
      log.calls := log.calls + [DomainAnalyzed(ok, Current())];
    }

    /** `AnalyzeURL`: may change the verdict, and may fail. */
    method AnalyzeURL() returns (ok: bool)
      modifies this, log
      ensures log.calls == old(log.calls) + [UrlAnalyzed(ok, Current())]
    {
      ok := *;
      safelisted, dangerous, score, warnings := *, *, *, *;
      log.calls := log.calls + [UrlAnalyzed(ok, Current())];
    }

    /** `AnalyzeHTML`: may change the verdict, and may fail. */
    method AnalyzeHTML() returns (ok: bool)
      modifies this, log
      ensures log.calls == old(log.calls) + [HtmlAnalyzed(ok, Current())]
    {
      ok := *;
      safelisted, dangerous, score, warnings := *, *, *, *;
      log.calls := log.calls + [HtmlAnalyzed(ok, Current())];
    }

    /** `Brands.GetBrand`: the brand the analyzers matched, if any. */
    method GetBrand() returns (brand: string)
      modifies log
      ensures log.calls == old(log.calls) + [BrandPicked(brand)]
    {
      brand := *;
      log.calls := log.calls + [BrandPicked(brand)];
    }
  }

  /** A sandboxed browser opened on one URL. */
  class Browser {
    const url: string
    const log: CallLog
    var finalURL: string
    var html: string
    var screenshotData: string
    var visits: seq<string>
    var resources: seq<Resource>

    function Loaded(): Page
      reads this
    {
      Page(finalURL, html, screenshotData, visits, resources)
    }

    /** `NewBrowser`: nothing loaded yet. */
    constructor (url: string, log: CallLog)
      modifies log
      ensures this.url == url && this.log == log
      ensures Loaded() == Page("", "", "", [], [])
      ensures log.calls == old(log.calls) + [BrowserCreated(url)]
    {
      this.url := url;
      this.log := log;
      finalURL, html, screenshotData, visits, resources := "", "", "", [], [];
      new;
      log.calls := log.calls + [BrowserCreated(url)];
    }

    /** `Run`: visits the page and fills in what it saw, or fails. */
    method Run() returns (ok: bool)
      modifies this, log
      ensures log.calls == old(log.calls) + [BrowserRan(ok, Loaded())]
    {
      ok := *;
      finalURL, html, screenshotData, visits, resources := *, *, *, *, *;
      log.calls := log.calls + [BrowserRan(ok, Loaded())];
    }
  }

  /** A call that reported failure: a failed analyzer or a failed browser run. */
  predicate Failed(c: Call)
  {
    (c.DomainAnalyzed? || c.UrlAnalyzed? || c.HtmlAnalyzed? || c.BrowserRan?) && !c.ok
  }

  /** Nothing is called after a call that failed. */
  predicate StopsAtFailure(trace: seq<Call>)
  {
    forall i :: 0 <= i < |trace| - 1 ==> !Failed(trace[i])
  }

  /** Every URL analysis comes after an HTML analysis that succeeded. */
  predicate HtmlBeforeUrl(trace: seq<Call>)
  {
    forall i :: 0 <= i < |trace| && trace[i].UrlAnalyzed? ==>
      exists j :: 0 <= j < i && trace[j].HtmlAnalyzed? && trace[j].ok
  }

  /** No analysis context was created. */
  predicate NoContext(trace: seq<Call>)
  {
    forall i :: 0 <= i < |trace| ==> !trace[i].AnalysisCreated?
  }

  /** The result carries the verdict `v` of the analysis context. */
  predicate CarriesVerdict(res: AnalysisResults, v: Verdict)
  {
    res.safelisted == v.safelisted && res.dangerous == v.dangerous &&
    res.score == v.score && res.warnings == v.warnings
  }

  /** What a static pipeline leaves empty: the fields only a browser fills. */
  predicate NoBrowserFields(res: AnalysisResults)
  {
    res.screenshot == "" && res.visits == [] && res.resources == []
  }

  /** The decoded payload as text, one character per byte. */
  function BytesToString(b: seq<Base64.byte>): (s: string)
    ensures |s| == |b|
    ensures forall i :: 0 <= i < |b| ==> s[i] as int == b[i]
  {
    seq(|b|, i requires 0 <= i < |b| => b[i] as char)
  }

  /**
   * `analyzeDomain`: the normalized input must validate; then a context on it runs
   * the domain analyzer, and the verdict it leaves is returned with the raw input as
   * URL and the normalized input as final URL.
   */
  method AnalyzeDomainPipeline(rules: UrlRules, domain: string, log: CallLog)
    returns (r: Result<AnalysisResults, AnalysisError>, ghost trace: seq<Call>)
    modifies log
    ensures log.calls == old(log.calls) + trace
    ensures StopsAtFailure(trace)
    ensures r == Failure(InvalidURL) <==> !rules.validate(rules.normalize(domain))
    ensures r == Failure(InvalidURL) ==> trace == []
    ensures r.Failure? ==> r.error == InvalidURL || r.error == AnalysisFailed
    ensures r == Failure(AnalysisFailed) ==>
      |trace| == 2 && trace[1].DomainAnalyzed? && Failed(trace[1])
    ensures r.Success? ==>
      |trace| == 3 && trace[0] == AnalysisCreated(rules.normalize(domain), "") &&
      trace[1].DomainAnalyzed? && trace[1].ok && trace[2].BrandPicked? &&
      r.value.url == domain && r.value.urlFinal == rules.normalize(domain) &&
      CarriesVerdict(r.value, trace[1].after) && r.value.brand == trace[2].brand &&
      NoBrowserFields(r.value) && r.value.html == ""
  {
    var urlNormalized := rules.normalize(domain);
    var urlFinal := urlNormalized;
    if !rules.validate(urlNormalized) {
      return Failure(InvalidURL), [];
    }
    var analysis := new Context(urlFinal, "", log);
    trace := [AnalysisCreated(urlFinal, "")];
    var ok := analysis.AnalyzeDomain();
    trace := trace + [DomainAnalyzed(ok, analysis.Current())];
    if !ok {
      return Failure(AnalysisFailed), trace;
    }
    var brand := analysis.GetBrand();
    trace := trace + [BrandPicked(brand)];
    r := Success(AnalysisResults(
      domain, urlFinal, analysis.safelisted, analysis.dangerous, analysis.score,
      brand, "", analysis.warnings, [], [], ""));
  }

  /**
   * `analyzeURL`: as `analyzeDomain`, with the URL analyzer in place of the domain
   * analyzer.
   */
  method AnalyzeUrlPipeline(rules: UrlRules, domain: string, log: CallLog)
    returns (r: Result<AnalysisResults, AnalysisError>, ghost trace: seq<Call>)
    modifies log
    ensures log.calls == old(log.calls) + trace
    ensures StopsAtFailure(trace)
    ensures r == Failure(InvalidURL) <==> !rules.validate(rules.normalize(domain))
    ensures r == Failure(InvalidURL) ==> trace == []
    ensures r.Failure? ==> r.error == InvalidURL || r.error == AnalysisFailed
    ensures r == Failure(AnalysisFailed) ==>
      |trace| == 2 && trace[1].UrlAnalyzed? && Failed(trace[1])
    ensures r.Success? ==>
      |trace| == 3 && trace[0] == AnalysisCreated(rules.normalize(domain), "") &&
      trace[1].UrlAnalyzed? && trace[1].ok && trace[2].BrandPicked? &&
      r.value.url == domain && r.value.urlFinal == rules.normalize(domain) &&
      CarriesVerdict(r.value, trace[1].after) && r.value.brand == trace[2].brand &&
      NoBrowserFields(r.value) && r.value.html == ""
  {
    var urlNormalized := rules.normalize(domain);
    var urlFinal := urlNormalized;
    if !rules.validate(urlNormalized) {
      return Failure(InvalidURL), [];
    }
    var analysis := new Context(urlFinal, "", log);
    trace := [AnalysisCreated(urlFinal, "")];
    var ok := analysis.AnalyzeURL();
    trace := trace + [UrlAnalyzed(ok, analysis.Current())];
    if !ok {
      return Failure(AnalysisFailed), trace;
    }
    var brand := analysis.GetBrand();
    trace := trace + [BrandPicked(brand)];
    r := Success(AnalysisResults(
      domain, urlFinal, analysis.safelisted, analysis.dangerous, analysis.score,
      brand, "", analysis.warnings, [], [], ""));
  }

  /** Joining a trace with no failed call to one that stops at its first failure. */
  lemma StopsAtFailureAppend(a: seq<Call>, b: seq<Call>)
    requires forall i :: 0 <= i < |a| ==> !Failed(a[i])
    requires StopsAtFailure(b)
    ensures StopsAtFailure(a + b)
  {
    forall i | 0 <= i < |a + b| - 1
      ensures !Failed((a + b)[i])
    {
      if i >= |a| {
        assert (a + b)[i] == b[i - |a|];
      }
    }
  }

  /** Joining a trace with no URL analysis to one where HTML analysis always comes first. */
  lemma HtmlBeforeUrlAppend(a: seq<Call>, b: seq<Call>)
    requires forall i :: 0 <= i < |a| ==> !a[i].UrlAnalyzed?
    requires HtmlBeforeUrl(b)
    ensures HtmlBeforeUrl(a + b)
  {
    forall i | 0 <= i < |a + b| && (a + b)[i].UrlAnalyzed?
      ensures exists j :: 0 <= j < i && (a + b)[j].HtmlAnalyzed? && (a + b)[j].ok
    {
      assert i >= |a| && (a + b)[i] == b[i - |a|];
      var j :| 0 <= j < i - |a| && b[j].HtmlAnalyzed? && b[j].ok;
      assert (a + b)[j + |a|] == b[j];
    }
  }

  /**
   * The steps shared by the link and the HTML pipelines, on a fresh context: the HTML
   * analyzer, then (only if it succeeded) the URL analyzer, then (only if that
   * succeeded) the brand.
   */
  method AnalyzePage(analysis: Context) returns (ok: bool, brand: string, ghost trace: seq<Call>)
    modifies analysis, analysis.log
    ensures analysis.log.calls == old(analysis.log.calls) + trace
    ensures StopsAtFailure(trace) && HtmlBeforeUrl(trace)
    ensures 1 <= |trace| && trace[0].HtmlAnalyzed?
    ensures !ok ==> Failed(trace[|trace| - 1]) && |trace| <= 2 && (|trace| == 2 ==> trace[1].UrlAnalyzed?)
    ensures ok ==>
      |trace| == 3 && trace[0].ok && trace[1].UrlAnalyzed? && trace[1].ok &&
      trace[2] == BrandPicked(brand) && trace[1].after == analysis.Current()
  {
    ok := analysis.AnalyzeHTML();
    trace := [HtmlAnalyzed(ok, analysis.Current())];
    if !ok {
      return false, "", trace;
    }
    ok := analysis.AnalyzeURL();
    trace := trace + [UrlAnalyzed(ok, analysis.Current())];
    assert trace[0].HtmlAnalyzed? && trace[0].ok;
    if !ok {
      return false, "", trace;
    }
    brand := analysis.GetBrand();
    trace := trace + [BrandPicked(brand)];
    assert trace[0].HtmlAnalyzed? && trace[0].ok;
  }

  /**
   * `analyzeLink`: the normalized link must validate; a browser then visits it. A
   * failed run is an analysis failure; a final URL on the browser's error scheme is a
   * connection failure, found before any context exists. Otherwise a context on the
   * final URL and the rendered page runs the HTML analyzer and then the URL
   * analyzer, and the answer carries the browser's findings.
   */
  method AnalyzeLinkPipeline(rules: UrlRules, url: string, log: CallLog)
    returns (r: Result<AnalysisResults, AnalysisError>, ghost trace: seq<Call>)
    modifies log
    ensures log.calls == old(log.calls) + trace
    ensures StopsAtFailure(trace) && HtmlBeforeUrl(trace)
    ensures r == Failure(InvalidURL) <==> !rules.validate(rules.normalize(url))
    ensures r == Failure(InvalidURL) ==> trace == []
    ensures r != Failure(InvalidURL) ==>
      |trace| >= 2 && trace[0] == BrowserCreated(rules.normalize(url)) && trace[1].BrowserRan? &&
      (r == Failure(ConnectionFailed) <==> trace[1].ok && HasPrefix(trace[1].page.finalURL, ChromeErrorPrefix))
    ensures r == Failure(ConnectionFailed) ==> |trace| == 2 && NoContext(trace)
    ensures r.Failure? ==> r.error != InvalidHTML
    ensures r == Failure(AnalysisFailed) ==> Failed(trace[|trace| - 1])
    ensures r.Success? ==>
      |trace| == 6 && trace[1].ok &&
      trace[2] == AnalysisCreated(trace[1].page.finalURL, trace[1].page.html) &&
      trace[3].HtmlAnalyzed? && trace[3].ok && trace[4].UrlAnalyzed? && trace[4].ok &&
      trace[5].BrandPicked? &&
      r.value.url == url && r.value.urlFinal == trace[1].page.finalURL &&
      CarriesVerdict(r.value, trace[4].after) && r.value.brand == trace[5].brand &&
      r.value.screenshot == ScreenshotPrefix + trace[1].page.screenshotData &&
      r.value.visits == trace[1].page.visits && r.value.resources == trace[1].page.resources &&
      r.value.html == trace[1].page.html
  {
    var urlNormalized := rules.normalize(url);
    var urlFinal := urlNormalized;
    if !rules.validate(urlNormalized) {
      return Failure(InvalidURL), [];
    }
    var browser := new Browser(urlNormalized, log);
    trace := [BrowserCreated(urlNormalized)];
    var ok := browser.Run();
    trace := trace + [BrowserRan(ok, browser.Loaded())];
    if !ok {
      return Failure(AnalysisFailed), trace;
    }
    urlFinal := browser.finalURL;
    if HasPrefix(urlFinal, ChromeErrorPrefix) {
      return Failure(ConnectionFailed), trace;
    }
    var screenshot := ScreenshotPrefix + browser.screenshotData;
    var analysis := new Context(urlFinal, browser.html, log);
    trace := trace + [AnalysisCreated(urlFinal, browser.html)];
    var brand;
    ghost var steps;
    ok, brand, steps := AnalyzePage(analysis);
    StopsAtFailureAppend(trace, steps);
    HtmlBeforeUrlAppend(trace, steps);
    trace := trace + steps;
    if !ok {
      return Failure(AnalysisFailed), trace;
    }
    r := Success(AnalysisResults(
      url, urlFinal, analysis.safelisted, analysis.dangerous, analysis.score, brand,
      screenshot, analysis.warnings, browser.visits, browser.resources, browser.html));
  }

  /**
   * `analyzeHTML`: the URL, taken as given, must validate; then the payload must be
   * non-empty and decode as base64, else the HTML is invalid and nothing runs. A
   * context on the URL and the decoded page runs the HTML analyzer and then the URL
   * analyzer.
   */
  method AnalyzeHtmlPipeline(rules: UrlRules, url: string, htmlEncoded: string, log: CallLog)
    returns (r: Result<AnalysisResults, AnalysisError>, ghost trace: seq<Call>)
    modifies log
    ensures log.calls == old(log.calls) + trace
    ensures StopsAtFailure(trace) && HtmlBeforeUrl(trace)
    ensures r == Failure(InvalidURL) <==> !rules.validate(url)
    ensures r == Failure(InvalidHTML) <==>
      rules.validate(url) && (htmlEncoded == "" || Base64.DecodeString(htmlEncoded).None?)
    ensures r == Failure(InvalidURL) || r == Failure(InvalidHTML) ==> trace == []
    ensures r.Failure? ==> r.error != ConnectionFailed
    ensures r == Failure(AnalysisFailed) ==> |trace| >= 2 && Failed(trace[|trace| - 1])
    ensures r.Success? ==>
      Base64.DecodeString(htmlEncoded).Some? &&
      var html := BytesToString(Base64.DecodeString(htmlEncoded).value);
      |trace| == 4 && trace[0] == AnalysisCreated(url, html) &&
      trace[1].HtmlAnalyzed? && trace[1].ok && trace[2].UrlAnalyzed? && trace[2].ok &&
      trace[3].BrandPicked? &&
      r.value.url == url && r.value.urlFinal == url &&
      CarriesVerdict(r.value, trace[2].after) && r.value.brand == trace[3].brand &&
      NoBrowserFields(r.value) && r.value.html == html
  {
    var urlFinal := url;
    if !rules.validate(url) {
      return Failure(InvalidURL), [];
    }
    if htmlEncoded == "" {
      return Failure(InvalidHTML), [];
    }
    var htmlData := Base64.DecodeString(htmlEncoded);
    if htmlData.None? {
      return Failure(InvalidHTML), [];
    }
    var html := BytesToString(htmlData.value);
    var analysis := new Context(urlFinal, html, log);
    trace := [AnalysisCreated(urlFinal, html)];
    var ok, brand;
    ghost var steps;
    ok, brand, steps := AnalyzePage(analysis);
    StopsAtFailureAppend(trace, steps);
    HtmlBeforeUrlAppend(trace, steps);
    trace := trace + steps;
    if !ok {
      return Failure(AnalysisFailed), trace;
    }
    r := Success(AnalysisResults(
      url, urlFinal, analysis.safelisted, analysis.dangerous, analysis.score, brand,
      "", analysis.warnings, [], [], html));
  }
}
