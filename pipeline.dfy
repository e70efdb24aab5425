/**
 * The content pipeline of `aprocess_html`: the scraper-failure contract, the
 * gate that decides whether extraction runs, the choice of the text it is fed,
 * the optional relevance filter and the assembly of the final `CrawlResult`.
 */
module Pipeline {
  import opened Wrappers
  import opened Records
  import opened Relevance

  const ProcessHtmlFailure := "Process HTML, Failed to extract content from the website: "

  // ---------------------------------------------------------------------------
  // Scraping
  // ---------------------------------------------------------------------------

  /**
   * The scraping step, with the ValueError it raises on failure. A `None` result
   * raises inside the `try` and is caught again by the generic handler, so its
   * message names the url twice.
   */
  function ScrapeStage(url: string, outcome: ScrapeOutcome): (r: Fallible<ScrapedContent>)
    ensures r.Ok? <==> outcome.Scraped?
    ensures r.Ok? ==> r.value == outcome.content
    ensures outcome.InvalidCssSelector? ==> r == Raised(outcome.msg)
    ensures outcome.ScrapedNone? || outcome.ScrapeError? ==>
              r.Raised? && |r.msg| > |ProcessHtmlFailure + url|
              && r.msg[..|ProcessHtmlFailure + url|] == ProcessHtmlFailure + url
  {
    match outcome
    case Scraped(content) => Ok(content)
    case InvalidCssSelector(msg) => Raised(msg)
    case ScrapedNone => Raised(ProcessHtmlFailure + url + ", error: " + ProcessHtmlFailure + url)
    case ScrapeError(msg) => Raised(ProcessHtmlFailure + url + ", error: " + msg)
  }

  /** A scraper returning nothing yields a message whose cause repeats the whole prefix. */
  lemma ScrapedNoneRepeatsPrefix(url: string)
    ensures var m := ScrapeStage(url, ScrapedNone).msg;
            var p := ProcessHtmlFailure + url;
            |m| == 2 * |p| + 9 && m[|p| + 9..] == p
  {
    var p := ProcessHtmlFailure + url;
    var m := ScrapeStage(url, ScrapedNone).msg;
    assert m == p + ", error: " + p;
    assert |", error: "| == 9;
  }

  // ---------------------------------------------------------------------------
  // Extraction gate and input selection
  // ---------------------------------------------------------------------------

  /**
   * Extraction runs only when nothing was recovered from the cache and the
   * configuration names a real extraction strategy and a chunking strategy.
   */
  predicate ExtractionRuns(extracted: Option<string>, settings: RunSettings) {
    && extracted.None?
    && settings.extractionStrategy.Some?
    && settings.chunkingStrategy.Some?
    && !settings.extractionStrategy.value.NoExtractionStrategy?
  }

  /** The text handed to the chunker and the chunker that splits it. */
  datatype ExtractionInput = ExtractionInput(content: string, chunker: ChunkerRef)

  /**
   * The `input_format` lookup: `"fit_markdown"` degrades to `"markdown"` when the
   * generator produced no fit markdown, the dictionary maps `"fit_markdown"` to
   * the RAW markdown, any unknown format reads the (sanitised) markdown, and
   * `"html"` reads the page html and forces identity chunking.
   */
  function SelectInput(inputFormat: string, markdown: string, html: string, md: MarkdownResult, configured: ChunkerRef): (input: ExtractionInput)
    ensures inputFormat == "html" ==> input == ExtractionInput(html, IdentityChunking)
    ensures inputFormat == "fit_markdown" && Truthy(md.fitMarkdown) ==> input == ExtractionInput(md.rawMarkdown, configured)
    ensures inputFormat == "fit_markdown" && !Truthy(md.fitMarkdown) ==> input == ExtractionInput(markdown, configured)
    ensures inputFormat !in {"html", "fit_markdown"} ==> input == ExtractionInput(markdown, configured)
  {
    var format := if inputFormat == "fit_markdown" && !Truthy(md.fitMarkdown) then "markdown" else inputFormat;
    var table := map["markdown" := markdown, "html" := html, "fit_markdown" := md.rawMarkdown];
    var content := if format in table then table[format] else markdown;
    var chunker := if format == "html" then IdentityChunking else configured;
    ExtractionInput(content, chunker)
  }

  /** Even with a non-empty fit markdown, the `"fit_markdown"` format never reads it. */
  lemma FitMarkdownFormatReadsRawMarkdown(markdown: string, html: string, raw: string, fit: string, configured: ChunkerRef)
    requires fit != "" && fit != raw
    ensures SelectInput("fit_markdown", markdown, html, MarkdownResult(raw, Some(fit)), configured).content != fit
  {
  }

  /**
   * What a cache hit contributes as previously extracted content: the sanitised
   * stored value, with an empty string and the empty JSON list treated as absent.
   */
  function CachedExtractedContent(sanitize: string -> string, stored: Option<string>): (r: Option<string>)
    ensures r.None? <==> sanitize(stored.GetOr("")) in {"", "[]"}
    ensures r.Some? ==> r.value == sanitize(stored.GetOr(""))
  {
    var e := sanitize(if stored.Some? && stored.value != "" then stored.value else "");
    if e == "" || e == "[]" then None else Some(e)
  }

  /** Content recovered from the cache always switches the extraction gate off. */
  lemma CachedContentSkipsExtraction(sanitize: string -> string, stored: Option<string>, settings: RunSettings)
    requires CachedExtractedContent(sanitize, stored).Some?
    ensures !ExtractionRuns(CachedExtractedContent(sanitize, stored), settings)
  {
  }

  // ---------------------------------------------------------------------------
  // Chunking and the relevance filter
  // ---------------------------------------------------------------------------

  /**
   * The sections extraction runs on: the chunker's output, narrowed by the
   * relevance filter when a query is given. Both reranker calls score the
   * 200-character prefixes.
   */
  function ExtractionSections(env: Env, chunker: ChunkerRef, content: string, query: Option<string>): (r: Fallible<seq<string>>)
    requires RankAligned(env) && (HasQuery(query) ==> ChunksNonEmpty(env))
    ensures env.chunk(chunker, content).Raised? ==> r == Raised(env.chunk(chunker, content).msg)
    ensures r.Ok? ==> env.chunk(chunker, content).Ok?
    ensures r.Ok? && !HasQuery(query) ==> r.value == env.chunk(chunker, content).value
    ensures r.Ok? ==> |r.value| <= |env.chunk(chunker, content).value|
    ensures r.Ok? ==> forall j :: 0 <= j < |r.value| ==> r.value[j] in env.chunk(chunker, content).value
  {
    match env.chunk(chunker, content)
    case Raised(m) => Raised(m)
    case Ok(sections) =>
      if !HasQuery(query) then Ok(sections)
      else
        var truncated := Truncated(sections);
        match env.rank(RerankerModel, query.value, truncated)
        case Raised(m) => Raised(m)
        case Ok(scores) =>
          match env.rank(RerankerModel, DateQuery, truncated)
          case Raised(m) => Raised(m)
          case Ok(dateScores) => Ok(RelevanceFilter(sections, scores, dateScores))
  }

  /** With a query and a working reranker, the sections are exactly the filter's output. */
  lemma QuerySectionsAreFiltered(env: Env, chunker: ChunkerRef, content: string, query: Option<string>)
    requires RankAligned(env) && ChunksNonEmpty(env) && HasQuery(query)
    requires env.chunk(chunker, content).Ok?
    requires var t := Truncated(env.chunk(chunker, content).value);
             env.rank(RerankerModel, query.value, t).Ok? && env.rank(RerankerModel, DateQuery, t).Ok?
    ensures var sections := env.chunk(chunker, content).value;
            var t := Truncated(sections);
            ExtractionSections(env, chunker, content, query)
              == Ok(RelevanceFilter(sections, env.rank(RerankerModel, query.value, t).value,
                                    env.rank(RerankerModel, DateQuery, t).value))
  {
  }

  /**
   * Whether this call reaches the reranker, which `aprocess_html` loads lazily:
   * the scrape and the markdown generation succeed, extraction runs, chunking
   * succeeds and a query is given.
   */
  predicate ReachesReranker(env: Env, url: string, html: string, extracted: Option<string>, settings: RunSettings,
                            query: Option<string>, isRawHtml: bool)
  {
    var scraped := ScrapeStage(url, env.scrap(url, html, settings, isRawHtml));
    && scraped.Ok?
    && var md := env.generateMarkdown(settings.markdownGenerator.GetOr(DefaultMarkdownGenerator),
                                      env.sanitize(scraped.value.cleanedHtml.GetOr("")), url);
    && md.Ok?
    && ExtractionRuns(extracted, settings)
    && var input := SelectInput(settings.extractionStrategy.value.inputFormat, env.sanitize(md.value.rawMarkdown),
                                html, md.value, settings.chunkingStrategy.value);
    && env.chunk(input.chunker, input.content).Ok?
    && HasQuery(query)
  }

  /**
   * The extracted content of the result: what was recovered when extraction does
   * not run, `""` when no section remains, otherwise the strategy's JSON output.
   */
  function ExtractionOutcome(env: Env, url: string, html: string, markdown: string, md: MarkdownResult,
                             extracted: Option<string>, settings: RunSettings, query: Option<string>): (r: Fallible<Option<string>>)
    requires RankAligned(env) && (HasQuery(query) ==> ChunksNonEmpty(env))
    ensures !ExtractionRuns(extracted, settings) ==> r == Ok(extracted)
    ensures ExtractionRuns(extracted, settings) && r.Ok? ==> r.value.Some?
  {
    if !ExtractionRuns(extracted, settings) then Ok(extracted)
    else
      var strategy := settings.extractionStrategy.value;
      var input := SelectInput(strategy.inputFormat, markdown, html, md, settings.chunkingStrategy.value);
      match ExtractionSections(env, input.chunker, input.content, query)
      case Raised(m) => Raised(m)
      case Ok(sections) =>
        if sections == [] then Ok(Some(""))
        else
          match env.runExtraction(strategy, url, sections)
          case Raised(m) => Raised(m)
          case Ok(json) => Ok(Some(json))
  }

  /** When every section is filtered out or none was produced, the strategy is not invoked. */
  lemma NoSectionsGiveEmptyContent(env: Env, url: string, html: string, markdown: string, md: MarkdownResult,
                                   settings: RunSettings, query: Option<string>)
    requires RankAligned(env) && (HasQuery(query) ==> ChunksNonEmpty(env))
    requires ExtractionRuns(None, settings)
    requires var input := SelectInput(settings.extractionStrategy.value.inputFormat, markdown, html, md, settings.chunkingStrategy.value);
             ExtractionSections(env, input.chunker, input.content, query) == Ok([])
    ensures ExtractionOutcome(env, url, html, markdown, md, None, settings, query) == Ok(Some(""))
  {
  }

  /** With sections left, extraction yields the strategy's output over exactly those sections. */
  lemma SectionsFeedTheStrategy(env: Env, url: string, html: string, markdown: string, md: MarkdownResult,
                                settings: RunSettings, query: Option<string>)
    requires RankAligned(env) && (HasQuery(query) ==> ChunksNonEmpty(env))
    requires ExtractionRuns(None, settings)
    requires var input := SelectInput(settings.extractionStrategy.value.inputFormat, markdown, html, md, settings.chunkingStrategy.value);
             var s := ExtractionSections(env, input.chunker, input.content, query);
             s.Ok? && s.value != [] && env.runExtraction(settings.extractionStrategy.value, url, s.value).Ok?
    ensures var input := SelectInput(settings.extractionStrategy.value.inputFormat, markdown, html, md, settings.chunkingStrategy.value);
            var s := ExtractionSections(env, input.chunker, input.content, query);
            ExtractionOutcome(env, url, html, markdown, md, None, settings, query)
              == Ok(Some(env.runExtraction(settings.extractionStrategy.value, url, s.value).value))
  {
  }

  // ---------------------------------------------------------------------------
  // The whole of aprocess_html
  // ---------------------------------------------------------------------------

  /** `None if not x else x` on an optional string. */
  function NoneIfFalsy(x: Option<string>): (r: Option<string>)
    ensures r.Some? <==> Truthy(x)
    ensures r.Some? ==> r == x
  {
    if Truthy(x) then x else None
  }

  /**
   * The result `aprocess_html` returns, or the exception it lets escape. Fields
   * the fetch provides later (status, headers, downloads, certificate, session)
   * are left unset here.
   */
  function ProcessHtmlResult(env: Env, url: string, html: string, extracted: Option<string>, settings: RunSettings,
                             screenshot: Option<string>, pdfData: Option<string>, query: Option<string>,
                             isRawHtml: bool): Fallible<CrawlResult>
    requires RankAligned(env) && (HasQuery(query) ==> ChunksNonEmpty(env))
  {
    match ScrapeStage(url, env.scrap(url, html, settings, isRawHtml))
    case Raised(m) => Raised(m)
    case Ok(content) =>
      var cleaned := env.sanitize(content.cleanedHtml.GetOr(""));
      var fitMarkdown := env.sanitize(content.fitMarkdown.GetOr(""));
      var fitHtml := env.sanitize(content.fitHtml.GetOr(""));
      var generator := settings.markdownGenerator.GetOr(DefaultMarkdownGenerator);
      match env.generateMarkdown(generator, cleaned, url)
      case Raised(m) => Raised(m)
      case Ok(md) =>
        var markdown := env.sanitize(md.rawMarkdown);
        match ExtractionOutcome(env, url, html, markdown, md, extracted, settings, query)
        case Raised(m) => Raised(m)
        case Ok(extractedContent) =>
          var shownHtml := if settings.prettiify then env.formatHtml(cleaned) else cleaned;
          Ok(CrawlResult(
            url := url, html := html, success := true, errorMessage := "",
            cleanedHtml := Some(shownHtml), markdownV2 := Some(md), markdown := Some(markdown),
            fitMarkdown := Some(fitMarkdown), fitHtml := Some(fitHtml),
            media := content.media.GetOr([]), links := content.links.GetOr([]),
            metadata := Some(content.metadata.GetOr(map[])),
            screenshot := NoneIfFalsy(screenshot), pdf := NoneIfFalsy(pdfData),
            extractedContent := extractedContent,
            statusCode := None, responseHeaders := None, downloadedFiles := None,
            sslCertificate := None, sessionId := None))
  }

  /**
   * A processed page is a success for the given url and html, with no error
   * message, its markdown taken from the generator, empty screenshot and pdf
   * payloads dropped, and the fetch-only fields still unset.
   */
  lemma {:induction false} ProcessedResultShape(env: Env, url: string, html: string, extracted: Option<string>, settings: RunSettings,
                                                screenshot: Option<string>, pdfData: Option<string>, query: Option<string>,
                                                isRawHtml: bool)
    requires RankAligned(env) && (HasQuery(query) ==> ChunksNonEmpty(env))
    requires ProcessHtmlResult(env, url, html, extracted, settings, screenshot, pdfData, query, isRawHtml).Ok?
    ensures var r := ProcessHtmlResult(env, url, html, extracted, settings, screenshot, pdfData, query, isRawHtml).value;
            && r.url == url && r.html == html && r.success && r.errorMessage == ""
            && r.markdownV2.Some? && r.markdown == Some(env.sanitize(r.markdownV2.value.rawMarkdown))
            && (r.screenshot.Some? <==> Truthy(screenshot)) && (r.pdf.Some? <==> Truthy(pdfData))
            && r.statusCode.None? && r.responseHeaders.None? && r.sessionId.None?
            && (!ExtractionRuns(extracted, settings) ==> r.extractedContent == extracted)
            && (ExtractionRuns(extracted, settings) ==> r.extractedContent.Some?)
  {
    var scraped := ScrapeStage(url, env.scrap(url, html, settings, isRawHtml));
    assert scraped.Ok?;
    var cleaned := env.sanitize(scraped.value.cleanedHtml.GetOr(""));
    var md := env.generateMarkdown(settings.markdownGenerator.GetOr(DefaultMarkdownGenerator), cleaned, url);
    assert md.Ok?;
    var markdown := env.sanitize(md.value.rawMarkdown);
    var e := ExtractionOutcome(env, url, html, markdown, md.value, extracted, settings, query);
    assert e.Ok?;
  }

  /** A failing scraper makes `aprocess_html` raise the scrape-stage message, whatever else is configured. */
  lemma ScrapeFailurePropagates(env: Env, url: string, html: string, extracted: Option<string>, settings: RunSettings,
                                screenshot: Option<string>, pdfData: Option<string>, query: Option<string>,
                                isRawHtml: bool)
    requires RankAligned(env) && (HasQuery(query) ==> ChunksNonEmpty(env))
    requires !env.scrap(url, html, settings, isRawHtml).Scraped?
    ensures ProcessHtmlResult(env, url, html, extracted, settings, screenshot, pdfData, query, isRawHtml)
              == Raised(ScrapeStage(url, env.scrap(url, html, settings, isRawHtml)).msg)
  {
  }
}
