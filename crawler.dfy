/**
 * `AsyncWebCrawler` and the objects it updates in place: the run config whose
 * `cache_mode` it fills in, the class-level rate-limit ledger shared by every
 * crawler, the cache database, and the lazily loaded reranker.
 */
module Crawler {
  import opened Wrappers
  import opened Records
  import opened Relevance
  import opened Pipeline
  import opened Orchestrator
  import opened Scheduler
  import opened Batch

  /** A `CrawlerRunConfig` object: `arun` and `arun_many` assign its `cache_mode`. */
  class CrawlerRunConfig {
    var cacheMode: Option<CacheMode>
    const settings: RunSettings

    constructor(view: RunConfigView)
      ensures View() == view
    {
      cacheMode := view.cacheMode;
      settings := view.settings;
    }

    function View(): RunConfigView
      reads this
    {
      RunConfigView(cacheMode, settings)
    }
  }

  /** `AsyncWebCrawler._domain_last_hit`: a class attribute, so one dict for every crawler. */
  class DomainLedger {
    var lastHit: map<string, real>

    constructor()
      ensures lastHit == map[]
    {
      lastHit := map[];
    }
  }

  /** The cache database, as the records it holds by url. */
  class CacheDatabase {
    var records: map<string, CrawlResult>

    constructor(records: map<string, CrawlResult>)
      ensures this.records == records
    {
      this.records := records;
    }
  }

  class AsyncWebCrawler {
    const env: Env
    const alwaysBypassCache: bool
    const ledger: DomainLedger
    const db: CacheDatabase
    /** The cross-encoder model, loaded on first use. */
    var reranker: Option<string>

    /** The deprecated `always_by_pass_cache`, when given, wins over `always_bypass_cache`. */
    constructor(env: Env, ledger: DomainLedger, db: CacheDatabase, alwaysBypassCache: bool, alwaysByPassCache: Option<bool>)
      ensures this.env == env && this.ledger == ledger && this.db == db
      ensures this.alwaysBypassCache == (if alwaysByPassCache.Some? then alwaysByPassCache.value else alwaysBypassCache)
      ensures reranker.None?
    {
      this.env := env;
      this.ledger := ledger;
      this.db := db;
      if alwaysByPassCache.Some? {
        this.alwaysBypassCache := alwaysByPassCache.value;
      } else {
        this.alwaysBypassCache := alwaysBypassCache;
      }
      reranker := None;
    }

    /** `aprocess_html`: scrape, generate markdown, optionally extract, and assemble the result. */
    method ProcessHtml(url: string, html: string, extracted: Option<string>, settings: RunSettings,
                       screenshot: Option<string>, pdfData: Option<string>, query: Option<string>, isRawHtml: bool)
      returns (r: Fallible<CrawlResult>)
      requires RankAligned(env) && (HasQuery(query) ==> ChunksNonEmpty(env))
      modifies this
      ensures r == ProcessHtmlResult(env, url, html, extracted, settings, screenshot, pdfData, query, isRawHtml)
      ensures reranker == if ReachesReranker(env, url, html, extracted, settings, query, isRawHtml) && old(reranker).None?
                          then Some(RerankerModel) else old(reranker)
    {
      var scraped := ScrapeStage(url, env.scrap(url, html, settings, isRawHtml));
      if scraped.Raised? {
        return Raised(scraped.msg);
      }
      var content := scraped.value;
      var cleaned := env.sanitize(content.cleanedHtml.GetOr(""));
      var fitMarkdown := env.sanitize(content.fitMarkdown.GetOr(""));
      var fitHtml := env.sanitize(content.fitHtml.GetOr(""));

      var generator := settings.markdownGenerator.GetOr(DefaultMarkdownGenerator);
      var md := env.generateMarkdown(generator, cleaned, url);
      if md.Raised? {
        return Raised(md.msg);
      }
      var markdown := env.sanitize(md.value.rawMarkdown);

      var extractedContent := extracted;
      if ExtractionRuns(extracted, settings) {
        var strategy := settings.extractionStrategy.value;
        var input := SelectInput(strategy.inputFormat, markdown, html, md.value, settings.chunkingStrategy.value);
        var chunked := env.chunk(input.chunker, input.content);
        if chunked.Raised? {
          return Raised(chunked.msg);
        }
        var sections := chunked.value;
        if HasQuery(query) {
          var truncated := Truncated(sections);
          if reranker.None? {
            reranker := Some(RerankerModel);
          }
          var scores := env.rank(RerankerModel, query.value, truncated);
          if scores.Raised? {
            return Raised(scores.msg);
          }
          var dateScores := env.rank(RerankerModel, DateQuery, truncated);
          if dateScores.Raised? {
            return Raised(dateScores.msg);
          }
          sections := RelevanceFilter(sections, scores.value, dateScores.value);
        }
        if sections == [] {
          extractedContent := Some("");
        } else {
          var json := env.runExtraction(strategy, url, sections);
          if json.Raised? {
            return Raised(json.msg);
          }
          extractedContent := Some(json.value);
        }
      }

      if settings.prettiify {
        cleaned := env.formatHtml(cleaned);
      }
      r := Ok(CrawlResult(
        url := url, html := html, success := true, errorMessage := "",
        cleanedHtml := Some(cleaned), markdownV2 := Some(md.value), markdown := Some(markdown),
        fitMarkdown := Some(fitMarkdown), fitHtml := Some(fitHtml),
        media := content.media.GetOr([]), links := content.links.GetOr([]),
        metadata := Some(content.metadata.GetOr(map[])),
        screenshot := NoneIfFalsy(screenshot), pdf := NoneIfFalsy(pdfData),
        extractedContent := extractedContent,
        statusCode := None, responseHeaders := None, downloadedFiles := None,
        sslCertificate := None, sessionId := None));
    }

    /** The cache-mode block of `arun`: fill in an unset mode from the legacy flags, else ENABLED. */
    method SettleCacheMode(cfg: CrawlerRunConfig, flags: LegacyFlags)
      modifies cfg
      ensures cfg.cacheMode == Some(ResolveCacheMode(env, old(cfg.cacheMode), flags))
    {
      if flags.Any() && cfg.cacheMode.None? {
        cfg.cacheMode := Some(env.legacyToCacheMode(flags));
      }
      if cfg.cacheMode.None? {
        cfg.cacheMode := Some(Enabled);
      }
    }

    /**
     * The fetch path of `arun`: fetch, process, stamp the response's fields onto
     * the result and write it back unless a kept cache hit exists.
     */
    method FetchFresh(url: string, cfg: CrawlerRunConfig, decision: CacheDecision, retained: bool,
                      extracted: Option<string>, query: Option<string>) returns (r: Fallible<CrawlResult>)
      requires cfg.cacheMode.Some?
      requires RankAligned(env) && (HasQuery(query) ==> ChunksNonEmpty(env))
      modifies this, db
      ensures var step := FetchPath(env, old(db.records), url, cfg.View(), decision, retained, extracted, query);
              && r == step.outcome && db.records == step.records
              && reranker == if step.reachesReranker && old(reranker).None? then Some(RerankerModel) else old(reranker)
    {
      ghost var view := cfg.View();
      ghost var records0 := db.records;
      ghost var reranker0 := reranker;
      ghost var spec := FetchPath(env, records0, url, view, decision, retained, extracted, query);
      var response := env.crawl(url, cfg.View());
      if response.Raised? {
        assert spec == ArunStep(Ok(CaughtResult(env, url, response.msg)), records0, view.cacheMode, false);
        return Ok(CaughtResult(env, url, response.msg));
      }
      var html := env.sanitize(response.value.html);
      ghost var reaches := ReachesReranker(env, url, html, extracted, view.settings, query, IsRawHtml(url));
      var processed := ProcessHtml(url, html, extracted, cfg.settings, response.value.screenshot,
                                   response.value.pdfData, query, IsRawHtml(url));
      assert reranker == if reaches && reranker0.None? then Some(RerankerModel) else reranker0;
      if processed.Raised? {
        assert spec == ArunStep(Ok(CaughtResult(env, url, processed.msg)), records0, view.cacheMode, reaches);
        return Ok(CaughtResult(env, url, processed.msg));
      }
      var crawlResult := processed.value;
      crawlResult := crawlResult.(statusCode := Some(response.value.statusCode),
                                  responseHeaders := Some(response.value.responseHeaders),
                                  downloadedFiles := response.value.downloadedFiles,
                                  sslCertificate := response.value.sslCertificate);
      crawlResult := crawlResult.(success := html != "", sessionId := cfg.settings.sessionId);
      assert crawlResult == Stamp(processed.value, response.value, html, view.settings.sessionId);
      if decision.shouldWrite && !retained {
        db.records := db.records[url := crawlResult];
      }
      assert spec == ArunStep(Ok(crawlResult), db.records, view.cacheMode, reaches);
      return Ok(crawlResult);
    }

    /**
     * `arun`: validate the url, resolve the cache mode into the config, serve a
     * kept cache hit with html, otherwise fetch, process, stamp and write back;
     * any error after validation becomes a failed result.
     */
    method Arun(url: UrlArg, config: CrawlerRunConfig?, args: ArunArgs) returns (r: Fallible<CrawlResult>)
      requires RankAligned(env) && (HasQuery(args.query) ==> ChunksNonEmpty(env))
      modifies this, db, config
      ensures var step := ArunSpec(env, alwaysBypassCache, old(db.records), url,
                                   if config == null then None else Some(old(config.View())), args);
              && r == step.outcome
              && db.records == step.records
              && (config != null ==> config.cacheMode == if step.mode.Some? then step.mode else old(config.cacheMode))
              && reranker == if step.reachesReranker && old(reranker).None? then Some(RerankerModel) else old(reranker)
    {
      if !ValidUrl(url) {
        return Raised(InvalidUrlMessage);
      }
      var u := url.s;
      var cfg: CrawlerRunConfig;
      if config != null {
        cfg := config;
      } else {
        cfg := new CrawlerRunConfig(env.fromKwargs(args));
      }
      ghost var given := cfg.View();
      ghost var records0 := db.records;
      ghost var spec := ArunSpec(env, alwaysBypassCache, records0, url,
                                 if config == null then None else Some(given), args);
      assert given == EffectiveConfig(env, if config == null then None else Some(given), args);
      SettleCacheMode(cfg, args.flags);
      ghost var mode := cfg.cacheMode.value;
      assert mode == ResolveCacheMode(env, given.cacheMode, args.flags);
      assert cfg.View() == given.(cacheMode := Some(mode));

      var decision := env.cacheContext(u, cfg.cacheMode.value, alwaysBypassCache);
      var cachedResult: Option<CrawlResult> := None;
      var extracted: Option<string> := None;
      var html := "";
      if decision.shouldRead && u in db.records {
        cachedResult := Some(db.records[u]);
      }
      ghost var hit := cachedResult;
      assert hit == Lookup(records0, u, decision);
      if cachedResult.Some? {
        html := env.sanitize(cachedResult.value.html);
        extracted := CachedExtractedContent(env.sanitize, cachedResult.value.extractedContent);
        if (cfg.settings.screenshot && !args.screenshot) || (cfg.settings.pdf && !args.pdf) {
          cachedResult := None;
        }
      }
      assert cachedResult.Some? == (hit.Some? && KeepsHit(given.settings, args));

      if cachedResult.None? || html == "" {
        assert !Serves(env, hit, given.settings, args);
        assert spec == FetchPath(env, records0, u, cfg.View(), decision, cachedResult.Some?, extracted, args.query);
        r := FetchFresh(u, cfg, decision, cachedResult.Some?, extracted, args.query);
      } else {
        assert Serves(env, hit, given.settings, args);
        assert spec.outcome == Ok(hit.value.(success := true, sessionId := given.settings.sessionId));
        r := Ok(cachedResult.value.(success := html != "", sessionId := cfg.settings.sessionId));
      }
    }

    /**
     * The rate-limit step of one `arun_many` task: sleep when the url's domain
     * was hit less than `mean` ago, then record the time taken before sleeping.
     */
    method ThrottleDispatch(url: string, now: real, mean: real, range: real, draw: real) returns (delay: Option<real>)
      requires 0.0 <= draw < 1.0
      modifies ledger
      ensures var t := ThrottleStep(old(ledger.lastHit), env.netloc(url), now, mean, range, draw);
              delay == t.delay && ledger.lastHit == t.ledger
    {
      var domain := env.netloc(url);
      delay := None;
      if domain in ledger.lastHit {
        var sinceLast := now - ledger.lastHit[domain];
        if sinceLast < mean {
          delay := Some(mean + range * draw);
        }
      }
      ledger.lastHit := ledger.lastHit[domain := now];
    }

    /**
     * `arun_many`: settle the batch config, refuse a negative semaphore count,
     * then run one task per url in list order, each a rate-limit step followed by
     * `arun`; the results keep the order of `urls`, exceptions as their text.
     * `clock` and `draws` are the task's `time.time()` and `random()` values.
     */
    method ArunMany(urls: seq<string>, config: CrawlerRunConfig?, b: BatchArgs, clock: seq<real>, draws: seq<real>)
      returns (r: Fallible<seq<BatchItem>>, delays: seq<Option<real>>)
      requires RankAligned(env) && (HasQuery(b.query) ==> ChunksNonEmpty(env))
      requires |clock| == |urls| && |draws| == |urls| && Draws(draws)
      modifies this, db, ledger, config
      ensures var batch := BatchConfig(env, if config == null then None else Some(old(config.View())), b);
              var d := DispatchAll(env, alwaysBypassCache, old(db.records), urls, ForwardedArgs(batch, b.userAgent, b.query));
              var s := ScheduleAll(old(ledger.lastHit), Domains(env, urls), clock, batch.settings.meanDelay,
                                   batch.settings.maxRange, draws);
              && (config != null ==> config.cacheMode == batch.cacheMode)
              && (SemaphoreCount(batch.settings.semaphoreCount) < 0 ==>
                    && r == Raised(NegativeSemaphoreMessage) && delays == []
                    && ledger.lastHit == old(ledger.lastHit) && db.records == old(db.records) && reranker == old(reranker))
              && (SemaphoreCount(batch.settings.semaphoreCount) >= 0 ==>
                    && r == Ok(ToBatchItems(d.outcomes)) && delays == s.delays
                    && ledger.lastHit == s.ledger && db.records == d.records
                    && reranker == if d.reachesReranker && old(reranker).None? then Some(RerankerModel) else old(reranker))
    {
      var batchConfig: CrawlerRunConfig;
      if config != null {
        batchConfig := config;
      } else {
        batchConfig := new CrawlerRunConfig(env.fromKwargs(BatchConfigArgs(b)));
      }
      if b.bypassCache && batchConfig.cacheMode.None? {
        batchConfig.cacheMode := Some(Bypass);
      }
      var batch := batchConfig.View();
      if SemaphoreCount(batch.settings.semaphoreCount) < 0 {
        return Raised(NegativeSemaphoreMessage), [];
      }

      var forwarded := ForwardedArgs(batch, b.userAgent, b.query);
      var outcomes;
      outcomes, delays := RunTasks(urls, forwarded, batch.settings.meanDelay, batch.settings.maxRange, clock, draws);
      r := Ok(ToBatchItems(outcomes));
    }

    /**
     * The tasks of `arun_many`, one per url in list order: the rate-limit step,
     * then `arun` with the forwarded keyword arguments.
     */
    method RunTasks(urls: seq<string>, forwarded: ArunArgs, mean: real, range: real, clock: seq<real>, draws: seq<real>)
      returns (outcomes: seq<Fallible<CrawlResult>>, delays: seq<Option<real>>)
      requires RankAligned(env) && (HasQuery(forwarded.query) ==> ChunksNonEmpty(env))
      requires |clock| == |urls| && |draws| == |urls| && Draws(draws)
      modifies this, db, ledger
      ensures var d := DispatchAll(env, alwaysBypassCache, old(db.records), urls, forwarded);
              && outcomes == d.outcomes && db.records == d.records
              && reranker == if d.reachesReranker && old(reranker).None? then Some(RerankerModel) else old(reranker)
      ensures var s := ScheduleAll(old(ledger.lastHit), Domains(env, urls), clock, mean, range, draws);
              delays == s.delays && ledger.lastHit == s.ledger
    {
      ghost var records0 := db.records;
      ghost var ledger0 := ledger.lastHit;
      ghost var reranker0 := reranker;
      outcomes := [];
      delays := [];
      for i := 0 to |urls|
        invariant var d := DispatchAll(env, alwaysBypassCache, records0, urls[..i], forwarded);
                  && outcomes == d.outcomes && db.records == d.records
                  && reranker == if d.reachesReranker && reranker0.None? then Some(RerankerModel) else reranker0
        invariant var s := ScheduleAll(ledger0, Domains(env, urls[..i]), clock[..i], mean, range, draws[..i]);
                  delays == s.delays && ledger.lastHit == s.ledger
      {
        assert urls[..i + 1][..i] == urls[..i];
        assert clock[..i + 1][..i] == clock[..i];
        assert draws[..i + 1][..i] == draws[..i];
        assert Domains(env, urls[..i + 1])[..i] == Domains(env, urls[..i]);
        var delay := ThrottleDispatch(urls[i], clock[i], mean, range, draws[i]);
        delays := delays + [delay];
        var outcome := Arun(StrUrl(urls[i]), null, forwarded);
        outcomes := outcomes + [outcome];
      }
      assert urls[..|urls|] == urls && clock[..|urls|] == clock && draws[..|urls|] == draws;
    }
  }
}
