# crawl4ai `AsyncWebCrawler`: a Dafny model of its decision rules

This project models the core of crawl4ai's `AsyncWebCrawler`
(`crawl4ai/async_webcrawler.py`) and proves properties of that model:

- **`arun`, the single-source cache-or-fetch state machine.** It validates the url and resolves the cache mode into the run config. It then either serves a kept cache hit that has html, or fetches, processes, stamps and writes back. Every error after validation becomes a failed `CrawlResult`.
- **`aprocess_html`, the content pipeline.** It covers:
  - the scraper-failure messages;
  - the gate that decides whether extraction runs;
  - the `input_format` selection and its quirks;
  - forced identity chunking for html;
  - the relevance filter;
  - the assembled result.
- **The relevance filter.** Sections are cut to 200-character prefixes and scored twice by the reranker. A section survives when its query score lies strictly above the 90th percentile (numpy's linear interpolation) or its "date" score exceeds 0.1. Survivors are mapped back through a prefix dictionary in which the last section wins.
- **`arun_many`, the batch bookkeeping.** It covers:
  - the batch config and the `bypass_cache` rule;
  - the semaphore-count default and the negative-count error;
  - the class-level per-domain rate-limit ledger;
  - forwarding the batch config as a `crawler_config=` keyword, which `arun` does not declare and passes to `from_kwargs`;
  - the order-preserving list of results, in which exceptions become their text.

Collaborators whose code lies outside this file are fields of `Records.Env`, all total functions. The browser fetch, the markdown generator, the chunkers, the reranker and the extraction run return a value or raise (`Fallible`). The scraper returns content or one of its failure cases. The others never raise (see "## Left out"). They cover:

- the browser fetch and the scraper;
- the markdown generator, the chunkers and the extraction strategies (with `json.dumps`);
- the cross-encoder;
- `sanitize_input_encode`, `CrawlerRunConfig.from_kwargs`, `_legacy_to_cache_mode` and `CacheContext`;
- `fast_format_html`, `get_error_context` and `urlparse(...).netloc`.

Clock readings (`time.time()`) and the `random()` draw behind `random.uniform` are parameters of `ArunMany`.

Modules:

| module | file |
|---|---|
| `Wrappers` | `Option`, `Fallible` |
| `Records` | configs, responses, `CrawlResult`, `Env` |
| `Relevance` | percentile, survivors, prefix table, filter |
| `Pipeline` | `aprocess_html` as functions |
| `Orchestrator` | `arun` as a function of the cache records |
| `Scheduler` | batch config, semaphore default, ledger, result list |
| `Batch` | the tasks of a batch in list order |
| `Crawler` | the `AsyncWebCrawler`, `CrawlerRunConfig`, ledger and cache-database objects and their methods |

The methods in `Crawler` update the objects in place. Each one is proved equal to the specification function of its module. The properties are proved about those functions.

Quirks of the code that the model reproduces as written:

- **Cache-hit invalidation.** The comment above line 413 says a hit is dropped when a screenshot "is requested but its not in cache". The test on line 413 reads the `screenshot`/`pdf` *arguments* of `arun` instead of the cached record's payloads. `StoredScreenshotDoesNotSaveHit` shows the consequence: the page is fetched again.
- **Empty fetched html.** `crawl_result.success = bool(html)` (line 488) sets `success` to false for empty html, and nothing sets `error_message` on that path (lines 461-509); see `FetchedResultIsStamped`.
- **The `"fit_markdown"` input format.** The lookup table at lines 669-673 maps the key `"fit_markdown"` to `markdown_result.raw_markdown`.
- **The run config is mutated.** The assignments `config.cache_mode = ...` at lines 372, 381 and 870 write into the config object the caller passed.
- **The rate-limit ledger.** `_domain_last_hit` is a class attribute (line 130), shared by every crawler. Line 897 stores `current_time`, which line 878 read *before* the sleep. A task that slept is thus recorded at its arrival time, not its start time. The next task for that domain is compared with the earlier time, so it can skip the sleep and start less than `mean_delay` after the previous start, even when each task finishes before the next arrives (`StampBeforeSleepAllowsCloseStarts`: tasks arriving at 0, 0.5 and 1.5 with a 1s mean both start at 1.5).
- **Cache-database errors.** The database reads and writes sit inside the `try` that starts at line 328, so an exception from the database reaches the catch-all at line 527 like any other.

## Model

| member | source | states |
|---|---|---|
| Records.UnexpectedErrorMessage | crawl4ai/async_webcrawler.py:527-536 | the catch-all message is strictly longer than the exception text it embeds |
| Relevance.Truncate | crawl4ai/async_webcrawler.py:683 | `section[:200]` is a prefix of the section: the whole of a section of at most 200 characters, exactly 200 characters of a longer one |
| Relevance.SortReals | crawl4ai/async_webcrawler.py:709-712 | the scores numpy sorts before interpolating: sorted, same length, same multiset |
| Relevance.Insert | crawl4ai/async_webcrawler.py:709-712 | inserting into a sorted list keeps it sorted and adds exactly the new value |
| Relevance.Percentile90 | crawl4ai/async_webcrawler.py:709-712 | definition of `np.percentile(scores, 90)` with linear interpolation; its properties are `PercentileWithinRange`, `FewScoresAbovePercentile` and `OutlierPercentile` |
| Relevance.LowerRank | crawl4ai/async_webcrawler.py:709-712 | the lower interpolation rank of the 90th percentile lies inside the list, and so does the next rank when the weight is non-zero |
| Relevance.Lerp | crawl4ai/async_webcrawler.py:709-712 | linear interpolation between two ranks stays between the two values |
| Relevance.PercentileWithinRange | crawl4ai/async_webcrawler.py:709-712 | the 90th percentile lies between the minimum and the maximum score and is at least the value at its lower rank |
| Relevance.FewScoresAbovePercentile | crawl4ai/async_webcrawler.py:709-720 | at most `n - 1 - lowerRank` scores lie strictly above the 90th percentile |
| Relevance.CountAbovePermutation | crawl4ai/async_webcrawler.py:709-712 | the number of scores above a threshold does not depend on their order |
| Relevance.Survivors | crawl4ai/async_webcrawler.py:713-720 | the indices kept are exactly those whose query score exceeds the threshold or whose date score exceeds 0.1, strictly increasing (input order), never more than the sections |
| Relevance.SurvivorsCount | crawl4ai/async_webcrawler.py:713-720 | the survivors number at most the query scores above the threshold plus the date scores above 0.1 |
| Relevance.PrefixTable | crawl4ai/async_webcrawler.py:727 | the prefix dictionary has every section's prefix as a key, maps each key to a section with that prefix, and only to sections of the input |
| Relevance.LastWithPrefix | crawl4ai/async_webcrawler.py:727 | the index found has the prefix, and no later section has it |
| Relevance.PrefixTableLastWins | crawl4ai/async_webcrawler.py:727 | a prefix is a key iff some section has it, and it maps to the LAST such section |
| Relevance.RelevanceFilter | crawl4ai/async_webcrawler.py:682-731 | the filtered sections are no more than the input and all drawn from it |
| Relevance.RelevanceFilterMapsThroughPrefix | crawl4ai/async_webcrawler.py:713-731 | output j is the last section sharing the prefix of survivor j, at or after it, and the output has one entry per survivor |
| Relevance.DistinctPrefixesAreLossless | crawl4ai/async_webcrawler.py:727-731 | with distinct prefixes the filter returns exactly the surviving sections in input order |
| Relevance.SortedIsFixed | crawl4ai/async_webcrawler.py:709-712 | sorting an already sorted list leaves it unchanged |
| Relevance.InsertAboveAll | crawl4ai/async_webcrawler.py:709-712 | a value above every element is inserted at the end |
| Relevance.NoSurvivors | crawl4ai/async_webcrawler.py:713-720 | when no section passes either test, nothing survives |
| Relevance.SoleSurvivor | crawl4ai/async_webcrawler.py:713-720 | when exactly one section passes, it is the only survivor |
| Relevance.OutlierPercentile | crawl4ai/async_webcrawler.py:709-712 | scores 0.9 then nine times 0.1 give a 90th percentile of 0.18 |
| Relevance.OneOutlierSurvives | crawl4ai/async_webcrawler.py:709-720 | with one high outlier and no date relevance, exactly the outlier survives |
| Relevance.SharedPrefixReturnsLaterSection | crawl4ai/async_webcrawler.py:727-731 | two sections sharing a prefix: when only the first survives, the second is returned in its place |
| Pipeline.ScrapeStage | crawl4ai/async_webcrawler.py:578-611 | the scrape succeeds iff the scraper returned content; an invalid selector's message passes through; any other failure raises a message that starts with the failure prefix and the url |
| Pipeline.ScrapedNoneRepeatsPrefix | crawl4ai/async_webcrawler.py:601-611 | a `None` scrape result is re-wrapped by the generic handler, so the prefix and url appear twice |
| Pipeline.ExtractionRuns | crawl4ai/async_webcrawler.py:650-655 | definition of the extraction gate; its properties are `CachedContentSkipsExtraction` and `ExtractionOutcome` |
| Pipeline.SelectInput | crawl4ai/async_webcrawler.py:658-680 | "html" reads the html with identity chunking; "fit_markdown" reads the raw markdown, or the markdown when no fit markdown exists; any other format reads the markdown with the configured chunker |
| Pipeline.FitMarkdownFormatReadsRawMarkdown | crawl4ai/async_webcrawler.py:669-673 | the "fit_markdown" format never feeds a distinct non-empty fit markdown to the strategy |
| Pipeline.CachedExtractedContent | crawl4ai/async_webcrawler.py:402-409 | cached extracted content is absent iff its sanitised text is empty or "[]", and otherwise is that text |
| Pipeline.CachedContentSkipsExtraction | crawl4ai/async_webcrawler.py:402-409 | content recovered from the cache switches extraction off |
| Pipeline.ExtractionSections | crawl4ai/async_webcrawler.py:676-731 | a chunker error propagates; without a query the sections are the chunker's output; with one they are fewer and drawn from it |
| Pipeline.QuerySectionsAreFiltered | crawl4ai/async_webcrawler.py:682-731 | with a query and a working reranker, the sections are the relevance filter over both score lists of the prefixes |
| Pipeline.ExtractionOutcome | crawl4ai/async_webcrawler.py:649-739 | when extraction does not run, the given extracted content is kept; when it runs and succeeds, some content is produced |
| Pipeline.NoSectionsGiveEmptyContent | crawl4ai/async_webcrawler.py:733-734 | with no sections left, the extracted content is "" |
| Pipeline.SectionsFeedTheStrategy | crawl4ai/async_webcrawler.py:735-739 | with sections left, the extracted content is the strategy's output over exactly those sections |
| Pipeline.NoneIfFalsy | crawl4ai/async_webcrawler.py:749-750 | a screenshot or pdf payload is kept iff it is non-empty |
| Pipeline.ProcessHtmlResult | crawl4ai/async_webcrawler.py:549-773 | definition of `aprocess_html`; its properties are `ProcessedResultShape` and `ScrapeFailurePropagates` |
| Pipeline.ProcessedResultShape | crawl4ai/async_webcrawler.py:614-773 | a processed page succeeds with an empty error message, the given url and html, and the sanitised raw markdown; screenshot and pdf are present iff non-empty; the fetch-only fields are unset; the extracted content is kept when extraction does not run and present when it does |
| Pipeline.ScrapeFailurePropagates | crawl4ai/async_webcrawler.py:599-611 | a failed scrape makes `aprocess_html` raise the scrape-stage message |
| Orchestrator.ResolveCacheMode | crawl4ai/async_webcrawler.py:361-381 | a given cache mode is kept; otherwise any legacy flag decides through `_legacy_to_cache_mode`; otherwise ENABLED |
| Orchestrator.ResolveCacheModeIsStable | crawl4ai/async_webcrawler.py:371-381 | once written into the config, the resolved mode survives any later resolution |
| Orchestrator.EffectiveConfig | crawl4ai/async_webcrawler.py:329-358 | definition: the given config, else one built by `from_kwargs`; its properties are `ForwardedConfigIsRebuilt` and `ServedIffCachedAndKept` |
| Orchestrator.KeepsHit | crawl4ai/async_webcrawler.py:411-414 | definition of the invalidation test on the `screenshot`/`pdf` arguments; its property is `StoredScreenshotDoesNotSaveHit` |
| Orchestrator.Serves | crawl4ai/async_webcrawler.py:411-424 | definition: a kept hit with non-empty html is served; its property is `ServedIffCachedAndKept` |
| Orchestrator.Stamp | crawl4ai/async_webcrawler.py:461-489 | definition of the fields copied onto a fetched result; its property is `FetchedResultIsStamped` |
| Orchestrator.FetchPath | crawl4ai/async_webcrawler.py:424-509 | definition of the fetch path; its properties are `FetchFailuresAreCaught`, `FetchedResultIsStamped`, `WriteBackRule` and `FreshFetchIsPersisted` |
| Orchestrator.ArunSpec | crawl4ai/async_webcrawler.py:271-547 | definition of `arun` over the cache records; its properties are the `Orchestrator` lemmas below |
| Orchestrator.Lookup | crawl4ai/async_webcrawler.py:397-398 | the cache is consulted iff reading is allowed, and returns the stored record |
| Orchestrator.CaughtResult | crawl4ai/async_webcrawler.py:527-547 | the catch-all result has the url, empty html, `success` false and a non-empty message |
| Orchestrator.ArunRaisesOnlyForInvalidUrl | crawl4ai/async_webcrawler.py:323-325 | `arun` raises iff the url is not a non-empty string, then with the invalid-url message and nothing changed; over a well-formed cache every result names the url |
| Orchestrator.ArunFailuresAreCaught | crawl4ai/async_webcrawler.py:527-547 | a valid call never raises, and over a well-formed cache any result with an error message has empty html and `success` false |
| Orchestrator.FetchFailuresAreCaught | crawl4ai/async_webcrawler.py:527-547 | when the fetch raises, or `aprocess_html` raises after a fetch, the result is the failed result built from that exception (empty html, `success` false, non-empty message) and the cache is unchanged |
| Orchestrator.ServedIffCachedAndKept | crawl4ai/async_webcrawler.py:397-424 | a cached record is served exactly when reading is allowed, it is stored, it is kept and its html is non-empty, with `success` true, the config's session id and the cache unchanged; otherwise the result is the caught fetch error, the caught processing error, or the stamped processed page |
| Orchestrator.FetchedResultIsStamped | crawl4ai/async_webcrawler.py:424-489 | on the fetch path the result carries the response's status, headers, downloads and certificate, the config's session id, and `success` iff the fetched html is non-empty |
| Orchestrator.WriteBackRule | crawl4ai/async_webcrawler.py:505-507 | the cache changes only at the url, only when writing is allowed and no kept hit exists; a kept hit with empty html is never re-persisted |
| Orchestrator.FreshFetchIsPersisted | crawl4ai/async_webcrawler.py:505-507 | a processed fetch under a writing policy with no kept hit is stored under its url |
| Orchestrator.ArunPreservesCacheInvariant | crawl4ai/async_webcrawler.py:461-509 | records stay keyed by their own url, without an error message, and successful iff their html is non-empty |
| Orchestrator.DiscardedHitKeepsExtractedContent | crawl4ai/async_webcrawler.py:401-451 | a discarded hit's extracted content is still passed on: the page is re-fetched but not re-extracted, and the reranker is not reached |
| Orchestrator.StoredScreenshotDoesNotSaveHit | crawl4ai/async_webcrawler.py:413-414 | a readable stored record holding a screenshot is still discarded when the config asks for one and the `screenshot` argument is false: `arun` takes the fetch path with the hit not retained |
| Scheduler.BatchConfigArgs | crawl4ai/async_webcrawler.py:845-858 | without a config, `from_kwargs` sees `bypass_cache` as the only cache flag, and no user agent or query |
| Scheduler.WithBypass | crawl4ai/async_webcrawler.py:860-870 | `bypass_cache` turns an unset cache mode into BYPASS; a set mode and all settings are kept |
| Scheduler.ForwardedArgs | crawl4ai/async_webcrawler.py:899-905 | each task calls `arun` with the batch config as a `crawler_config` keyword, no legacy flags or cache mode, and otherwise `arun`'s defaults |
| Scheduler.SemaphoreCount | crawl4ai/async_webcrawler.py:872 | the count is 5 when unset or 0, otherwise the configured value |
| Scheduler.SemaphoreCountNegativeOnlyWhenConfigured | crawl4ai/async_webcrawler.py:872-873 | the semaphore count is negative iff a negative count was configured |
| Scheduler.JitterWithinRange | crawl4ai/async_webcrawler.py:894 | the jitter `range * random()` lies in `[0, range]` |
| Scheduler.ThrottleStep | crawl4ai/async_webcrawler.py:877-897 | a task sleeps iff its domain is in the ledger and was hit less than `mean` ago, for between `mean` and `mean + range`; the ledger gains the domain at the pre-sleep time and nothing else changes |
| Scheduler.StartIsSpacedFromRecordedHit | crawl4ai/async_webcrawler.py:891-897 | a task at or after the recorded hit starts at least `mean` after it |
| Scheduler.ScheduleAll | crawl4ai/async_webcrawler.py:875-897 | definition: `ThrottleStep` applied task by task in list order; its properties are the `Ledger` lemmas and `StampBeforeSleepAllowsCloseStarts` |
| Scheduler.LastTaskFor | crawl4ai/async_webcrawler.py:897 | the index found is a task for the domain and no later task has it |
| Scheduler.DomainSet | crawl4ai/async_webcrawler.py:877 | every task's domain is in the set, and every member has a task |
| Scheduler.LedgerKeysAfterBatch | crawl4ai/async_webcrawler.py:897 | after a batch the ledger holds exactly the old domains and the batch's; nothing is removed |
| Scheduler.LedgerLastTaskWins | crawl4ai/async_webcrawler.py:897 | a batch domain maps to the clock of its last task |
| Scheduler.LedgerOtherDomainsUntouched | crawl4ai/async_webcrawler.py:897 | a domain outside the batch keeps its entry |
| Scheduler.StampBeforeSleepAllowsCloseStarts | crawl4ai/async_webcrawler.py:891-897 | with a 1s mean and no jitter, tasks for one domain arriving at 0, 0.5 and 1.5 sleep `[none, 1s, none]`: the second starts at 1.5 but is recorded at 0.5, so the third is not delayed and starts at the same moment; a stamp of the start time would have made it sleep |
| Scheduler.ToBatchItem | crawl4ai/async_webcrawler.py:928-931 | a result is kept as is and an exception becomes its text |
| Scheduler.ToBatchItems | crawl4ai/async_webcrawler.py:928-931 | the returned list has the outcomes' length and order |
| Batch.BatchConfig | crawl4ai/async_webcrawler.py:833-870 | definition of the batch config; its properties are `BypassFlagSelectsBypass` and `ForwardedConfigIsRebuilt` |
| Batch.BypassFlagSelectsBypass | crawl4ai/async_webcrawler.py:845-870 | without a config, `bypass_cache` and no built-in mode give BYPASS |
| Batch.ForwardedConfigIsRebuilt | crawl4ai/async_webcrawler.py:899-905 | each task's config is rebuilt by `from_kwargs`, not taken from the batch, and its mode is that config's, else ENABLED |
| Batch.DispatchAll | crawl4ai/async_webcrawler.py:875-918 | one outcome per url, each `ArunSpec` over the cache left by the tasks before it; its properties are the `Dispatch` lemmas |
| Batch.DispatchRaisesOnlyForEmptyUrls | crawl4ai/async_webcrawler.py:323-325 | the `arun` call of a task raises iff its url is empty, and then with the invalid-url error (`netloc` is taken never to raise) |
| Batch.DispatchPreservesCacheInvariant | crawl4ai/async_webcrawler.py:899-905 | a batch keeps the cache well formed |
| Batch.DispatchWritesOnlyBatchUrls | crawl4ai/async_webcrawler.py:505-507 | a batch writes the cache only under its own urls |
| Crawler.AsyncWebCrawler.constructor | crawl4ai/async_webcrawler.py:197-208 | the deprecated `always_by_pass_cache`, when given, wins over `always_bypass_cache`; no reranker is loaded |
| Crawler.AsyncWebCrawler.ProcessHtml | crawl4ai/async_webcrawler.py:549-773 | returns exactly `ProcessHtmlResult`, and loads the reranker iff the call reaches it and none was loaded |
| Crawler.AsyncWebCrawler.SettleCacheMode | crawl4ai/async_webcrawler.py:361-381 | the config's cache mode becomes the resolved mode |
| Crawler.AsyncWebCrawler.FetchFresh | crawl4ai/async_webcrawler.py:424-509 | the fetch path returns and writes exactly what `FetchPath` says |
| Crawler.AsyncWebCrawler.Arun | crawl4ai/async_webcrawler.py:271-547 | returns, writes to the cache, sets the config's cache mode and loads the reranker exactly as `ArunSpec` says |
| Crawler.AsyncWebCrawler.ThrottleDispatch | crawl4ai/async_webcrawler.py:875-897 | the sleep and the new ledger are those of `ThrottleStep` |
| Crawler.AsyncWebCrawler.ArunMany | crawl4ai/async_webcrawler.py:775-931 | settles the batch config into the given object; a negative semaphore count raises before any task runs; otherwise the results are `ToBatchItems` of `DispatchAll`, and the sleeps and ledger are those of `ScheduleAll` |
| Crawler.AsyncWebCrawler.RunTasks | crawl4ai/async_webcrawler.py:875-918 | the loop over the urls yields the outcomes and cache of `DispatchAll` and the sleeps and ledger of `ScheduleAll` |

## Left out

- **Browser fetching, the cache database and `update_user_agent`.** These are I/O. The fetch is an `Env` function, and the database is a map of records. `user_agent` is carried but has no effect.
- **Logging, `warnings.warn`, the debug `print`s and the timing measurements.** They have no bearing on results.
- **The `_lock` (lines 211, 327), the semaphore bound and the interleaving of `gather`.** Concurrency is not modelled. The tasks of `arun_many` run in list order, each finishing before the next. The unguarded read-then-write on `_domain_last_hit` while another task sleeps is not captured.
- **Real sleeping.** A sleep is reported as its duration.
- **The constructor's browser config, logger, directories and crawler strategy (lines 150-216), and `start`/`close`/`awarmup`.** These are resource plumbing.
- **`remove_markdown_links` (lines 53-62).** It is defined by regular expressions and not used in this file.
- **`urlparse(url).netloc`.** It is the opaque `netloc` function, and it never raises. In the source, line 877 runs outside `arun`'s `try`, so a url that `urlparse` rejects (such as `"http://[::1"`, "Invalid IPv6 URL") makes that task raise, and `gather` turns the item into the exception text. The model does not produce that item.
- **The collaborators defined elsewhere.** `CacheContext`, `_legacy_to_cache_mode`, `from_kwargs`, the scraper, the markdown generator, the chunkers, the extraction strategies and `json.dumps` are not part of this model. They are uninterpreted `Env` fields. Extra keyword arguments forwarded to the scraper (`crawler_config`, `warning`) are not modelled; only `is_raw_html` and the config settings reach it.
- **The arguments passed to `from_kwargs`.** `from_kwargs` receives the whole `ArunArgs`, including `user_agent` and the query, which the `config_kwargs` dictionary of lines 342-357 never contains. As an uninterpreted function it could depend on them; the model makes no claim that it does not. For `arun_many` without a config, `from_kwargs` is given the `disable_cache`/`no_cache_read`/`no_cache_write` keys as false instead of absent.
- **Cross-encoder inference, float rounding and NaN in `np.percentile`.** Scores are reals. The 90th percentile is computed exactly.
- **Cache-database errors.** The database never raises here.
- Pipeline.ExtractionSections, Pipeline.ProcessHtmlResult, Orchestrator.ArunSpec, Batch.DispatchAll and the methods that call them: two reranker preconditions. The reranker is assumed to return one score per document in document order (`RankAligned`). This is the `top_k=len(...)` call sorted by `corpus_id`. Chunkers are assumed to return at least one section whenever a query is given (`ChunksNonEmpty`). This excludes the percentile of an empty list.
- **The reranker field.** It records only the model name it loads. Loading the model is assumed not to fail.
- **`get_error_context`.** It is a function of the exception text alone.
- **Collaborators that never raise.** `sanitize` (`sanitize_input_encode`), `fromKwargs` (`CrawlerRunConfig.from_kwargs`), `legacyToCacheMode`, `cacheContext` (`CacheContext`), `formatHtml` (`fast_format_html`, line 754), `errorContext` and `netloc` are plain functions in the model. In the source, an exception from any of the first five would reach the catch-all at line 527 and become a failed result (`fast_format_html` runs outside `aprocess_html`'s own `try`, so it goes straight there). The model has no such path.
- **The catch-all's own helpers.** `get_error_context` (line 528), `create_box_message` and `logger.error_status` (lines 538-542) are assumed not to raise. In the source an exception from them escapes `arun`. `Orchestrator.ArunFailuresAreCaught`'s "a valid call never raises" depends on this assumption.
- Crawler.AsyncWebCrawler.Arun: a copy, not an alias. The cache-served result is a fresh value. The source stamps `success` and `session_id` on the object returned by the database.

