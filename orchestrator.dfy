/**
 * The cache-or-fetch state machine of `arun`, as a function of the cache
 * records before the call: url validation, cache-mode resolution, serving or
 * discarding a cached entry, stamping a fetched result, write-back, and the
 * catch-all that turns any error into a failed result.
 */
module Orchestrator {
  import opened Wrappers
  import opened Records
  import opened Pipeline

  // ---------------------------------------------------------------------------
  // Cache mode
  // ---------------------------------------------------------------------------

  /**
   * A configured cache mode is kept; otherwise any deprecated flag decides it
   * through `_legacy_to_cache_mode`; otherwise the mode is ENABLED.
   */
  function ResolveCacheMode(env: Env, configured: Option<CacheMode>, flags: LegacyFlags): (mode: CacheMode)
    ensures configured.Some? ==> mode == configured.value
    ensures configured.None? && flags.Any() ==> mode == env.legacyToCacheMode(flags)
    ensures configured.None? && !flags.Any() ==> mode == Enabled
  {
    var afterLegacy := if flags.Any() && configured.None? then Some(env.legacyToCacheMode(flags)) else configured;
    if afterLegacy.None? then Enabled else afterLegacy.value
  }

  /** Resolving twice changes nothing: once written back into the config, the mode is final. */
  lemma ResolveCacheModeIsStable(env: Env, configured: Option<CacheMode>, flags: LegacyFlags, otherFlags: LegacyFlags)
    ensures ResolveCacheMode(env, Some(ResolveCacheMode(env, configured, flags)), otherFlags)
              == ResolveCacheMode(env, configured, flags)
  {
  }

  // ---------------------------------------------------------------------------
  // Cache lookup
  // ---------------------------------------------------------------------------

  /** The config `arun` works with: the one passed as `config`, else one built from its keyword arguments. */
  function EffectiveConfig(env: Env, given: Option<RunConfigView>, args: ArunArgs): RunConfigView {
    if given.Some? then given.value else env.fromKwargs(args)
  }

  /** `aget_cached_url`: the stored record for the url, read only when the cache context allows it. */
  function Lookup(records: map<string, CrawlResult>, url: string, decision: CacheDecision): (hit: Option<CrawlResult>)
    ensures hit.Some? <==> decision.shouldRead && url in records
    ensures hit.Some? ==> hit.value == records[url]
  {
    if decision.shouldRead && url in records then Some(records[url]) else None
  }

  /**
   * A cached hit is discarded when the config asks for a screenshot (or a pdf)
   * while the `screenshot` (or `pdf`) ARGUMENT of `arun` is false; the cached
   * payloads themselves are not consulted.
   */
  predicate KeepsHit(settings: RunSettings, args: ArunArgs) {
    !((settings.screenshot && !args.screenshot) || (settings.pdf && !args.pdf))
  }

  /** A hit is served when it is kept and its sanitised html is non-empty. */
  predicate Serves(env: Env, hit: Option<CrawlResult>, settings: RunSettings, args: ArunArgs) {
    hit.Some? && KeepsHit(settings, args) && env.sanitize(hit.value.html) != ""
  }

  /** `url.startswith("raw:")`. */
  predicate IsRawHtml(url: string) {
    |url| >= 4 && url[..4] == "raw:"
  }

  // ---------------------------------------------------------------------------
  // The whole of arun
  // ---------------------------------------------------------------------------

  /**
   * One call of `arun`: what it returns (or raises), the cache records after
   * it, the cache mode it writes into the config (None when it raised before
   * touching the config), and whether it reached the reranker.
   */
  datatype ArunStep = ArunStep(outcome: Fallible<CrawlResult>, records: map<string, CrawlResult>,
                               mode: Option<CacheMode>, reachesReranker: bool)

  /** The result of the catch-all handler for an exception with the given text. */
  function CaughtResult(env: Env, url: string, cause: string): (r: CrawlResult)
    ensures r.url == url && r.html == "" && !r.success && r.errorMessage != ""
  {
    FailedResult(url, UnexpectedErrorMessage(env.errorContext(cause), cause))
  }

  /** The fetched result after `arun` copies the response's fields onto it. */
  function Stamp(processed: CrawlResult, response: CrawlResponse, html: string, sessionId: Option<string>): CrawlResult {
    processed.(statusCode := Some(response.statusCode), responseHeaders := Some(response.responseHeaders),
               downloadedFiles := response.downloadedFiles, sslCertificate := response.sslCertificate,
               success := html != "", sessionId := sessionId)
  }

  /**
   * The fetch path of `arun`: fetch with the resolved config, process the page,
   * stamp it, and write it back when writing is allowed and no kept hit exists.
   */
  function FetchPath(env: Env, records: map<string, CrawlResult>, url: string, sent: RunConfigView, decision: CacheDecision,
                     retained: bool, extracted: Option<string>, query: Option<string>): ArunStep
    requires sent.cacheMode.Some?
    requires RankAligned(env) && (HasQuery(query) ==> ChunksNonEmpty(env))
  {
    match env.crawl(url, sent)
    case Raised(m) => ArunStep(Ok(CaughtResult(env, url, m)), records, sent.cacheMode, false)
    case Ok(response) =>
      var html := env.sanitize(response.html);
      var reaches := ReachesReranker(env, url, html, extracted, sent.settings, query, IsRawHtml(url));
      match ProcessHtmlResult(env, url, html, extracted, sent.settings, response.screenshot, response.pdfData,
                              query, IsRawHtml(url))
      case Raised(m) => ArunStep(Ok(CaughtResult(env, url, m)), records, sent.cacheMode, reaches)
      case Ok(processed) =>
        var result := Stamp(processed, response, html, sent.settings.sessionId);
        var written := if decision.shouldWrite && !retained then records[url := result] else records;
        ArunStep(Ok(result), written, sent.cacheMode, reaches)
  }

  function ArunSpec(env: Env, alwaysBypass: bool, records: map<string, CrawlResult>, url: UrlArg,
                    given: Option<RunConfigView>, args: ArunArgs): ArunStep
    requires RankAligned(env) && (HasQuery(args.query) ==> ChunksNonEmpty(env))
  {
    if !ValidUrl(url) then ArunStep(Raised(InvalidUrlMessage), records, None, false)
    else
      var u := url.s;
      var config := EffectiveConfig(env, given, args);
      var mode := ResolveCacheMode(env, config.cacheMode, args.flags);
      var decision := env.cacheContext(u, mode, alwaysBypass);
      var hit := Lookup(records, u, decision);
      var extracted := if hit.Some? then CachedExtractedContent(env.sanitize, hit.value.extractedContent) else None;
      if Serves(env, hit, config.settings, args) then
        ArunStep(Ok(hit.value.(success := true, sessionId := config.settings.sessionId)), records, Some(mode), false)
      else
        FetchPath(env, records, u, config.(cacheMode := Some(mode)), decision,
                  hit.Some? && KeepsHit(config.settings, args), extracted, args.query)
  }

  // ---------------------------------------------------------------------------
  // Properties of arun
  // ---------------------------------------------------------------------------

  /**
   * `arun` raises exactly for a non-string or empty url, and then does nothing
   * else; over a well-formed cache every result it returns is about its url.
   */
  lemma {:induction false} ArunRaisesOnlyForInvalidUrl(env: Env, alwaysBypass: bool, records: map<string, CrawlResult>, url: UrlArg,
                                                       given: Option<RunConfigView>, args: ArunArgs)
    requires RankAligned(env) && (HasQuery(args.query) ==> ChunksNonEmpty(env))
    ensures var step := ArunSpec(env, alwaysBypass, records, url, given, args);
            && (step.outcome.Raised? <==> !ValidUrl(url))
            && (!ValidUrl(url) ==> step == ArunStep(Raised(InvalidUrlMessage), records, None, false))
            && (ValidUrl(url) && CacheInvariant(env, records) ==> step.outcome.value.url == url.s)
  {
    if ValidUrl(url) {
      var u := url.s;
      var config := EffectiveConfig(env, given, args);
      var mode := ResolveCacheMode(env, config.cacheMode, args.flags);
      var hit := Lookup(records, u, env.cacheContext(u, mode, alwaysBypass));
      if !Serves(env, hit, config.settings, args) {
        var sent := config.(cacheMode := Some(mode));
        var response := env.crawl(u, sent);
        if response.Ok? {
          var html := env.sanitize(response.value.html);
          var extracted := if hit.Some? then CachedExtractedContent(env.sanitize, hit.value.extractedContent) else None;
          var p := ProcessHtmlResult(env, u, html, extracted, sent.settings, response.value.screenshot,
                                     response.value.pdfData, args.query, IsRawHtml(u));
          if p.Ok? {
            ProcessedResultShape(env, u, html, extracted, sent.settings, response.value.screenshot,
                                 response.value.pdfData, args.query, IsRawHtml(u));
          }
        }
      }
    }
  }

  /**
   * Over a well-formed cache, every result of a valid call that carries an error
   * message comes from the catch-all: empty html and `success` false.
   */
  lemma {:induction false} ArunFailuresAreCaught(env: Env, alwaysBypass: bool, records: map<string, CrawlResult>, url: UrlArg,
                                                 given: Option<RunConfigView>, args: ArunArgs)
    requires RankAligned(env) && (HasQuery(args.query) ==> ChunksNonEmpty(env))
    requires ValidUrl(url) && CacheInvariant(env, records)
    ensures var step := ArunSpec(env, alwaysBypass, records, url, given, args);
            step.outcome.Ok? && (step.outcome.value.errorMessage != "" ==> step.outcome.value.html == "" && !step.outcome.value.success)
  {
    var u := url.s;
    var config := EffectiveConfig(env, given, args);
    var mode := ResolveCacheMode(env, config.cacheMode, args.flags);
    var hit := Lookup(records, u, env.cacheContext(u, mode, alwaysBypass));
    var step := ArunSpec(env, alwaysBypass, records, url, given, args);
    if !Serves(env, hit, config.settings, args) {
      var sent := config.(cacheMode := Some(mode));
      var response := env.crawl(u, sent);
      if response.Ok? {
        var html := env.sanitize(response.value.html);
        var extracted := if hit.Some? then CachedExtractedContent(env.sanitize, hit.value.extractedContent) else None;
        var p := ProcessHtmlResult(env, u, html, extracted, sent.settings, response.value.screenshot,
                                   response.value.pdfData, args.query, IsRawHtml(u));
        if p.Ok? {
          ProcessedResultShape(env, u, html, extracted, sent.settings, response.value.screenshot,
                               response.value.pdfData, args.query, IsRawHtml(u));
          assert step.outcome == Ok(Stamp(p.value, response.value, html, config.settings.sessionId));
        } else {
          assert step.outcome == Ok(CaughtResult(env, u, p.msg));
        }
      } else {
        assert step.outcome == Ok(CaughtResult(env, u, response.msg));
      }
    } else {
      assert step.outcome == Ok(records[u].(success := true, sessionId := config.settings.sessionId));
      assert records[u].errorMessage == "";
    }
  }

  /**
   * The catch-all, from the error side: on the fetch path, when the browser
   * fetch raises, or `aprocess_html` raises after a successful fetch, `arun`
   * returns the failed result built from that exception (empty html, `success`
   * false, a non-empty message) and leaves the cache as it was.
   */
  lemma FetchFailuresAreCaught(env: Env, alwaysBypass: bool, records: map<string, CrawlResult>, url: string,
                               given: Option<RunConfigView>, args: ArunArgs)
    requires RankAligned(env) && (HasQuery(args.query) ==> ChunksNonEmpty(env))
    requires url != ""
    ensures var config := EffectiveConfig(env, given, args);
            var mode := ResolveCacheMode(env, config.cacheMode, args.flags);
            var hit := Lookup(records, url, env.cacheContext(url, mode, alwaysBypass));
            var extracted := if hit.Some? then CachedExtractedContent(env.sanitize, hit.value.extractedContent) else None;
            var sent := config.(cacheMode := Some(mode));
            var response := env.crawl(url, sent);
            var step := ArunSpec(env, alwaysBypass, records, StrUrl(url), given, args);
            && (!Serves(env, hit, config.settings, args) && response.Raised? ==>
                  step.outcome == Ok(CaughtResult(env, url, response.msg)) && step.records == records)
            && (!Serves(env, hit, config.settings, args) && response.Ok? ==>
                  var processed := ProcessHtmlResult(env, url, env.sanitize(response.value.html), extracted, sent.settings,
                                                     response.value.screenshot, response.value.pdfData, args.query,
                                                     IsRawHtml(url));
                  processed.Raised? ==> step.outcome == Ok(CaughtResult(env, url, processed.msg)) && step.records == records)
  {
  }

  /**
   * A cached entry is returned exactly when the cache may be read, the url is
   * stored, the hit is kept and its html is non-empty; it comes back with
   * `success` set and the config's session id, and the cache is unchanged.
   * Otherwise the page is fetched, and the result is the caught fetch error,
   * the caught processing error, or the stamped processed page.
   */
  lemma ServedIffCachedAndKept(env: Env, alwaysBypass: bool, records: map<string, CrawlResult>, url: string,
                               given: Option<RunConfigView>, args: ArunArgs)
    requires RankAligned(env) && (HasQuery(args.query) ==> ChunksNonEmpty(env))
    requires url != ""
    ensures var config := EffectiveConfig(env, given, args);
            var mode := ResolveCacheMode(env, config.cacheMode, args.flags);
            var served := env.cacheContext(url, mode, alwaysBypass).shouldRead && url in records
                          && KeepsHit(config.settings, args) && env.sanitize(records[url].html) != "";
            var step := ArunSpec(env, alwaysBypass, records, StrUrl(url), given, args);
            && (served ==> step == ArunStep(Ok(records[url].(success := true, sessionId := config.settings.sessionId)),
                                            records, Some(mode), false))
            && (!served ==>
                  var hit := Lookup(records, url, env.cacheContext(url, mode, alwaysBypass));
                  var extracted := if hit.Some? then CachedExtractedContent(env.sanitize, hit.value.extractedContent) else None;
                  var sent := config.(cacheMode := Some(mode));
                  var response := env.crawl(url, sent);
                  if response.Raised? then step.outcome == Ok(CaughtResult(env, url, response.msg))
                  else
                    var html := env.sanitize(response.value.html);
                    var processed := ProcessHtmlResult(env, url, html, extracted, sent.settings, response.value.screenshot,
                                                       response.value.pdfData, args.query, IsRawHtml(url));
                    if processed.Raised? then step.outcome == Ok(CaughtResult(env, url, processed.msg))
                    else step.outcome == Ok(Stamp(processed.value, response.value, html, config.settings.sessionId)))
  {
    var config := EffectiveConfig(env, given, args);
    var mode := ResolveCacheMode(env, config.cacheMode, args.flags);
    var sent := config.(cacheMode := Some(mode));
    var hit := Lookup(records, url, env.cacheContext(url, mode, alwaysBypass));
    var extracted := if hit.Some? then CachedExtractedContent(env.sanitize, hit.value.extractedContent) else None;
    var response := env.crawl(url, sent);
    if !Serves(env, hit, config.settings, args) && response.Ok? {
      var html := env.sanitize(response.value.html);
      var p := ProcessHtmlResult(env, url, html, extracted, sent.settings, response.value.screenshot,
                                 response.value.pdfData, args.query, IsRawHtml(url));
      if p.Ok? {
        ProcessedResultShape(env, url, html, extracted, sent.settings, response.value.screenshot,
                             response.value.pdfData, args.query, IsRawHtml(url));
      }
    }
  }

  /**
   * On the fetch path, a processed page carries the response's status, headers,
   * downloads and certificate, the config's session id, and `success` exactly
   * when the fetched html is non-empty.
   */
  lemma {:induction false} FetchedResultIsStamped(env: Env, alwaysBypass: bool, records: map<string, CrawlResult>, url: string,
                                                  given: Option<RunConfigView>, args: ArunArgs)
    requires RankAligned(env) && (HasQuery(args.query) ==> ChunksNonEmpty(env))
    requires url != ""
    requires var config := EffectiveConfig(env, given, args);
             var mode := ResolveCacheMode(env, config.cacheMode, args.flags);
             var hit := Lookup(records, url, env.cacheContext(url, mode, alwaysBypass));
             var extracted := if hit.Some? then CachedExtractedContent(env.sanitize, hit.value.extractedContent) else None;
             var sent := config.(cacheMode := Some(mode));
             var response := env.crawl(url, sent);
             && !Serves(env, hit, config.settings, args)
             && response.Ok?
             && ProcessHtmlResult(env, url, env.sanitize(response.value.html), extracted, sent.settings,
                                  response.value.screenshot, response.value.pdfData, args.query, IsRawHtml(url)).Ok?
    ensures var config := EffectiveConfig(env, given, args);
            var mode := ResolveCacheMode(env, config.cacheMode, args.flags);
            var response := env.crawl(url, config.(cacheMode := Some(mode))).value;
            var r := ArunSpec(env, alwaysBypass, records, StrUrl(url), given, args).outcome.value;
            && r.url == url && r.errorMessage == ""
            && r.html == env.sanitize(response.html)
            && r.statusCode == Some(response.statusCode)
            && r.responseHeaders == Some(response.responseHeaders)
            && r.downloadedFiles == response.downloadedFiles
            && r.sslCertificate == response.sslCertificate
            && r.sessionId == config.settings.sessionId
            && (r.success <==> env.sanitize(response.html) != "")
  {
    var config := EffectiveConfig(env, given, args);
    var mode := ResolveCacheMode(env, config.cacheMode, args.flags);
    var hit := Lookup(records, url, env.cacheContext(url, mode, alwaysBypass));
    var extracted := if hit.Some? then CachedExtractedContent(env.sanitize, hit.value.extractedContent) else None;
    var sent := config.(cacheMode := Some(mode));
    var response := env.crawl(url, sent);
    ProcessedResultShape(env, url, env.sanitize(response.value.html), extracted, sent.settings,
                         response.value.screenshot, response.value.pdfData, args.query, IsRawHtml(url));
  }

  /**
   * The cache changes only on the fetch path, only when writing is allowed and
   * no kept hit exists (so a kept hit with empty html is never re-persisted),
   * and then only at the requested url.
   */
  lemma {:induction false} WriteBackRule(env: Env, alwaysBypass: bool, records: map<string, CrawlResult>, url: string,
                                         given: Option<RunConfigView>, args: ArunArgs)
    requires RankAligned(env) && (HasQuery(args.query) ==> ChunksNonEmpty(env))
    requires url != ""
    ensures var config := EffectiveConfig(env, given, args);
            var mode := ResolveCacheMode(env, config.cacheMode, args.flags);
            var decision := env.cacheContext(url, mode, alwaysBypass);
            var hit := Lookup(records, url, decision);
            var step := ArunSpec(env, alwaysBypass, records, StrUrl(url), given, args);
            && (step.records != records ==> decision.shouldWrite && !(hit.Some? && KeepsHit(config.settings, args)))
            && (step.records != records ==> step.records == records[url := step.outcome.value])
            && (hit.Some? && KeepsHit(config.settings, args) ==> step.records == records)
            && (!decision.shouldWrite ==> step.records == records)
  {
  }

  /** A successful fresh fetch under a writing cache policy with no kept hit is persisted under its url. */
  lemma {:induction false} FreshFetchIsPersisted(env: Env, alwaysBypass: bool, records: map<string, CrawlResult>, url: string,
                                                 given: Option<RunConfigView>, args: ArunArgs)
    requires RankAligned(env) && (HasQuery(args.query) ==> ChunksNonEmpty(env))
    requires url != ""
    requires var config := EffectiveConfig(env, given, args);
             var mode := ResolveCacheMode(env, config.cacheMode, args.flags);
             var decision := env.cacheContext(url, mode, alwaysBypass);
             var hit := Lookup(records, url, decision);
             var extracted := if hit.Some? then CachedExtractedContent(env.sanitize, hit.value.extractedContent) else None;
             var sent := config.(cacheMode := Some(mode));
             var response := env.crawl(url, sent);
             && decision.shouldWrite && !(hit.Some? && KeepsHit(config.settings, args))
             && response.Ok?
             && ProcessHtmlResult(env, url, env.sanitize(response.value.html), extracted, sent.settings,
                                  response.value.screenshot, response.value.pdfData, args.query, IsRawHtml(url)).Ok?
    ensures var step := ArunSpec(env, alwaysBypass, records, StrUrl(url), given, args);
            url in step.records && step.records[url] == step.outcome.value
  {
    var config := EffectiveConfig(env, given, args);
    var mode := ResolveCacheMode(env, config.cacheMode, args.flags);
    var hit := Lookup(records, url, env.cacheContext(url, mode, alwaysBypass));
    assert !Serves(env, hit, config.settings, args);
  }

  /**
   * What the cache holds: records stored under their own url, without an error
   * message, successful exactly when their html is non-empty.
   */
  predicate CacheInvariant(env: Env, records: map<string, CrawlResult>) {
    forall key :: key in records ==>
      records[key].url == key && records[key].errorMessage == ""
      && (records[key].success <==> records[key].html != "")
  }

  /** `arun` preserves the cache invariant. */
  lemma {:induction false} ArunPreservesCacheInvariant(env: Env, alwaysBypass: bool, records: map<string, CrawlResult>, url: UrlArg,
                                                       given: Option<RunConfigView>, args: ArunArgs)
    requires RankAligned(env) && (HasQuery(args.query) ==> ChunksNonEmpty(env))
    requires CacheInvariant(env, records)
    ensures CacheInvariant(env, ArunSpec(env, alwaysBypass, records, url, given, args).records)
  {
    if ValidUrl(url) {
      var u := url.s;
      var step := ArunSpec(env, alwaysBypass, records, url, given, args);
      if step.records != records {
        WriteBackRule(env, alwaysBypass, records, u, given, args);
        FetchedResultIsStamped(env, alwaysBypass, records, u, given, args);
      }
    }
  }

  /**
   * A discarded hit still hands over its extracted content: when the config asks
   * for a screenshot the `screenshot` argument does not, a stored record with
   * extracted content is re-fetched but not re-extracted.
   */
  lemma {:induction false} DiscardedHitKeepsExtractedContent(env: Env, alwaysBypass: bool, records: map<string, CrawlResult>,
                                                             url: string, given: Option<RunConfigView>, args: ArunArgs)
    requires RankAligned(env) && (HasQuery(args.query) ==> ChunksNonEmpty(env))
    requires url != ""
    requires var config := EffectiveConfig(env, given, args);
             var mode := ResolveCacheMode(env, config.cacheMode, args.flags);
             var sent := config.(cacheMode := Some(mode));
             var response := env.crawl(url, sent);
             && env.cacheContext(url, mode, alwaysBypass).shouldRead && url in records
             && !KeepsHit(config.settings, args)
             && CachedExtractedContent(env.sanitize, records[url].extractedContent).Some?
             && response.Ok?
             && ProcessHtmlResult(env, url, env.sanitize(response.value.html),
                                  CachedExtractedContent(env.sanitize, records[url].extractedContent), sent.settings,
                                  response.value.screenshot, response.value.pdfData, args.query, IsRawHtml(url)).Ok?
    ensures var step := ArunSpec(env, alwaysBypass, records, StrUrl(url), given, args);
            step.outcome.value.extractedContent == CachedExtractedContent(env.sanitize, records[url].extractedContent)
            && !step.reachesReranker
  {
    var config := EffectiveConfig(env, given, args);
    var mode := ResolveCacheMode(env, config.cacheMode, args.flags);
    var sent := config.(cacheMode := Some(mode));
    var response := env.crawl(url, sent);
    var extracted := CachedExtractedContent(env.sanitize, records[url].extractedContent);
    ProcessedResultShape(env, url, env.sanitize(response.value.html), extracted, sent.settings,
                         response.value.screenshot, response.value.pdfData, args.query, IsRawHtml(url));
  }

  /**
   * The invalidation test reads the `screenshot` argument, not the cache: a
   * readable stored record that holds a screenshot is still discarded when the
   * config asks for one and the argument keeps its default `False`; the page is
   * fetched again and, the hit not being kept, may be written back.
   */
  lemma StoredScreenshotDoesNotSaveHit(env: Env, alwaysBypass: bool, records: map<string, CrawlResult>, url: string,
                                       given: Option<RunConfigView>, args: ArunArgs)
    requires RankAligned(env) && (HasQuery(args.query) ==> ChunksNonEmpty(env))
    requires url != ""
    requires var config := EffectiveConfig(env, given, args);
             var mode := ResolveCacheMode(env, config.cacheMode, args.flags);
             && config.settings.screenshot && !args.screenshot
             && env.cacheContext(url, mode, alwaysBypass).shouldRead && url in records && Truthy(records[url].screenshot)
    ensures var config := EffectiveConfig(env, given, args);
            var mode := ResolveCacheMode(env, config.cacheMode, args.flags);
            var decision := env.cacheContext(url, mode, alwaysBypass);
            var extracted := CachedExtractedContent(env.sanitize, records[url].extractedContent);
            ArunSpec(env, alwaysBypass, records, StrUrl(url), given, args)
              == FetchPath(env, records, url, config.(cacheMode := Some(mode)), decision, false, extracted, args.query)
  {
  }

}
