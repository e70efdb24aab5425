/**
 * The values that flow through the crawler: run configuration, cache modes,
 * fetch responses, scraper output and the crawl result, together with the
 * collaborators whose code is not part of this model (`Env`).
 */
module Records {
  import opened Wrappers

  /** The cache policy of one request. */
  datatype CacheMode = Enabled | Disabled | ReadOnly | WriteOnly | Bypass

  /** What a `CacheContext` decides for one request. */
  datatype CacheDecision = CacheDecision(shouldRead: bool, shouldWrite: bool)

  /** An extraction strategy object, reduced to its class and its declared `input_format`. */
  datatype ExtractorRef = NoExtractionStrategy | ExtractionStrategy(name: string, inputFormat: string)

  /** A chunking strategy object. */
  datatype ChunkerRef = IdentityChunking | ChunkingStrategy(name: string)

  /** A markdown generation strategy object. */
  datatype MarkdownGeneratorRef = DefaultMarkdownGenerator | MarkdownGenerator(name: string)

  /** The fields of a `CrawlerRunConfig` that the crawler reads, apart from `cache_mode`. */
  datatype RunSettings = RunSettings(
    wordCountThreshold: int,
    cssSelector: Option<string>,
    screenshot: bool,
    pdf: bool,
    extractionStrategy: Option<ExtractorRef>,
    chunkingStrategy: Option<ChunkerRef>,
    markdownGenerator: Option<MarkdownGeneratorRef>,
    prettiify: bool,
    sessionId: Option<string>,
    semaphoreCount: Option<int>,
    meanDelay: real,
    maxRange: real,
    verbose: bool)

  /** A snapshot of a `CrawlerRunConfig` object. */
  datatype RunConfigView = RunConfigView(cacheMode: Option<CacheMode>, settings: RunSettings)

  /** The deprecated boolean cache flags of `arun`. */
  datatype LegacyFlags = LegacyFlags(disableCache: bool, bypassCache: bool, noCacheRead: bool, noCacheWrite: bool) {
    predicate Any() {
      bypassCache || disableCache || noCacheRead || noCacheWrite
    }
  }

  const NoLegacyFlags := LegacyFlags(false, false, false, false)

  /**
   * The keyword arguments of `arun` other than `url` and `config`.
   * `wordCountThreshold` None stands for the library default MIN_WORD_THRESHOLD;
   * `crawlerConfigKwarg` is a `crawler_config=` keyword, which `arun` does not
   * declare and which therefore lands in its `**kwargs`.
   */
  datatype ArunArgs = ArunArgs(
    wordCountThreshold: Option<int>,
    extractionStrategy: Option<ExtractorRef>,
    chunkingStrategy: Option<ChunkerRef>,
    contentFilter: Option<string>,
    cacheMode: Option<CacheMode>,
    flags: LegacyFlags,
    cssSelector: Option<string>,
    screenshot: bool,
    pdf: bool,
    userAgent: Option<string>,
    verbose: bool,
    query: Option<string>,
    crawlerConfigKwarg: Option<RunConfigView>)

  /** The defaults `arun` declares for its keyword arguments. */
  const DefaultArunArgs := ArunArgs(None, None, Some(ChunkingStrategy("RegexChunking")), None, None,
                                    NoLegacyFlags, None, false, false, None, true, None, None)

  /** The `url` argument: Python does not enforce its `str` annotation. */
  datatype UrlArg = StrUrl(s: string) | NonStringUrl

  predicate ValidUrl(url: UrlArg) {
    url.StrUrl? && url.s != ""
  }

  /** What `crawler_strategy.crawl` returns. */
  datatype CrawlResponse = CrawlResponse(
    html: string,
    statusCode: int,
    responseHeaders: map<string, string>,
    screenshot: Option<string>,
    pdfData: Option<string>,
    downloadedFiles: Option<seq<string>>,
    sslCertificate: Option<string>)

  /** The dictionary the scraper returns; a key it leaves out is None. */
  datatype ScrapedContent = ScrapedContent(
    cleanedHtml: Option<string>,
    fitMarkdown: Option<string>,
    fitHtml: Option<string>,
    media: Option<seq<string>>,
    links: Option<seq<string>>,
    metadata: Option<map<string, string>>)

  /** How a call of the scraper ends. */
  datatype ScrapeOutcome =
    | Scraped(content: ScrapedContent)
    | ScrapedNone
    | InvalidCssSelector(msg: string)
    | ScrapeError(msg: string)

  /** What a markdown generator returns. */
  datatype MarkdownResult = MarkdownResult(rawMarkdown: string, fitMarkdown: Option<string>)

  /** The fields of the diagnostic context of a caught exception. */
  datatype ErrorContext = ErrorContext(lineNo: string, functionName: string, filename: string, codeContext: string)

  /** The unit of output of a crawl. */
  datatype CrawlResult = CrawlResult(
    url: string,
    html: string,
    success: bool,
    errorMessage: string,
    cleanedHtml: Option<string>,
    markdownV2: Option<MarkdownResult>,
    markdown: Option<string>,
    fitMarkdown: Option<string>,
    fitHtml: Option<string>,
    media: seq<string>,
    links: seq<string>,
    metadata: Option<map<string, string>>,
    screenshot: Option<string>,
    pdf: Option<string>,
    extractedContent: Option<string>,
    statusCode: Option<int>,
    responseHeaders: Option<map<string, string>>,
    downloadedFiles: Option<seq<string>>,
    sslCertificate: Option<string>,
    sessionId: Option<string>)

  /**
   * The collaborators the crawler calls but whose code is not modelled:
   * `sanitize_input_encode`, `CrawlerRunConfig.from_kwargs`, `_legacy_to_cache_mode`,
   * `CacheContext`, the browser fetch, the scraper, the markdown generator, the
   * chunkers, the reranker (model name, query, documents: one score per document in
   * document order), an extraction run followed by `json.dumps`, `fast_format_html`,
   * `get_error_context` and `urlparse(...).netloc`. Only the fetch, the markdown
   * generator, the chunkers, the reranker and the extraction run can raise
   * (`Fallible`); the scraper reports its failures as a `ScrapeOutcome`; the
   * rest are taken never to raise.
   */
  datatype Env = Env(
    sanitize: string -> string,
    fromKwargs: ArunArgs -> RunConfigView,
    legacyToCacheMode: LegacyFlags -> CacheMode,
    cacheContext: (string, CacheMode, bool) -> CacheDecision,
    crawl: (string, RunConfigView) -> Fallible<CrawlResponse>,
    scrap: (string, string, RunSettings, bool) -> ScrapeOutcome,
    generateMarkdown: (MarkdownGeneratorRef, string, string) -> Fallible<MarkdownResult>,
    chunk: (ChunkerRef, string) -> Fallible<seq<string>>,
    rank: (string, string, seq<string>) -> Fallible<seq<real>>,
    runExtraction: (ExtractorRef, string, seq<string>) -> Fallible<string>,
    formatHtml: string -> string,
    errorContext: string -> ErrorContext,
    netloc: string -> string)

  /** The reranker returns exactly one score per document (it is asked for `top_k=len(documents)`). */
  ghost predicate RankAligned(env: Env) {
    forall model, query, docs :: env.rank(model, query, docs).Ok? ==> |env.rank(model, query, docs).value| == |docs|
  }

  /** Every chunker yields at least one section. */
  ghost predicate ChunksNonEmpty(env: Env) {
    forall chunker, text :: env.chunk(chunker, text).Ok? ==> |env.chunk(chunker, text).value| > 0
  }

  /** Python truthiness of an optional string. */
  predicate Truthy(s: Option<string>) {
    s.Some? && s.value != ""
  }

  /** The relevance filter runs only for a truthy `query`. */
  predicate HasQuery(query: Option<string>) {
    Truthy(query)
  }

  const InvalidUrlMessage := "Invalid URL, make sure the URL is a non-empty string"

  /** The message `arun` builds for any exception caught by its catch-all. */
  function UnexpectedErrorMessage(ctx: ErrorContext, cause: string): (m: string)
    ensures |m| > |cause|
  {
    "Unexpected error in _crawl_web at line " + ctx.lineNo + " in " + ctx.functionName
    + " (" + ctx.filename + "):\nError: " + cause + "\n\nCode context:\n" + ctx.codeContext
  }

  /** `CrawlResult(url=url, html="", success=False, error_message=message)`. */
  function FailedResult(url: string, message: string): CrawlResult {
    CrawlResult(url, "", false, message, None, None, None, None, None, [], [], None,
                None, None, None, None, None, None, None, None)
  }
}
