/**
 * The tasks of `arun_many`, taken one after another in list order: each calls
 * `arun` with the forwarded keyword arguments against the cache left by the
 * tasks before it.
 */
module Batch {
  import opened Wrappers
  import opened Records
  import opened Orchestrator
  import opened Scheduler

  /** The batch config: the one passed as `config`, else one built from the legacy arguments, then the bypass rule. */
  function BatchConfig(env: Env, given: Option<RunConfigView>, b: BatchArgs): RunConfigView {
    WithBypass(if given.Some? then given.value else env.fromKwargs(BatchConfigArgs(b)), b.bypassCache)
  }

  /** Without a config, `bypass_cache=True` and no cache mode built in, the batch runs under BYPASS. */
  lemma BypassFlagSelectsBypass(env: Env, b: BatchArgs)
    requires b.bypassCache && env.fromKwargs(BatchConfigArgs(b)).cacheMode.None?
    ensures BatchConfig(env, None, b).cacheMode == Some(Bypass)
  {
  }

  /**
   * The batch config does not become `arun`'s config: each task's config is
   * rebuilt by `from_kwargs` from `arun`'s defaults plus the `crawler_config`
   * keyword, and its cache mode is whatever that rebuilt config says, else ENABLED.
   */
  lemma ForwardedConfigIsRebuilt(env: Env, batch: RunConfigView, userAgent: Option<string>, query: Option<string>)
    ensures var args := ForwardedArgs(batch, userAgent, query);
            && EffectiveConfig(env, None, args) == env.fromKwargs(args)
            && ResolveCacheMode(env, EffectiveConfig(env, None, args).cacheMode, args.flags)
                 == env.fromKwargs(args).cacheMode.GetOr(Enabled)
  {
  }

  /** The domain each task rate-limits on, `urlparse(url).netloc`. */
  function Domains(env: Env, urls: seq<string>): (domains: seq<string>)
    ensures |domains| == |urls|
    ensures forall i :: 0 <= i < |urls| ==> domains[i] == env.netloc(urls[i])
  {
    seq(|urls|, i requires 0 <= i < |urls| => env.netloc(urls[i]))
  }

  /** What the tasks of a batch return, the cache after them, and whether any reached the reranker. */
  datatype Dispatched = Dispatched(outcomes: seq<Fallible<CrawlResult>>, records: map<string, CrawlResult>, reachesReranker: bool)

  function DispatchAll(env: Env, alwaysBypass: bool, records: map<string, CrawlResult>, urls: seq<string>, args: ArunArgs): (d: Dispatched)
    requires RankAligned(env) && (HasQuery(args.query) ==> ChunksNonEmpty(env))
    ensures |d.outcomes| == |urls|
  {
    if urls == [] then Dispatched([], records, false)
    else
      var n := |urls| - 1;
      var before := DispatchAll(env, alwaysBypass, records, urls[..n], args);
      var step := ArunSpec(env, alwaysBypass, before.records, StrUrl(urls[n]), None, args);
      Dispatched(before.outcomes + [step.outcome], step.records, before.reachesReranker || step.reachesReranker)
  }

  /** A task ends in an exception exactly when its url is empty, and the exception is the invalid-url error. */
  lemma {:induction false} DispatchRaisesOnlyForEmptyUrls(env: Env, alwaysBypass: bool, records: map<string, CrawlResult>,
                                                          urls: seq<string>, args: ArunArgs)
    requires RankAligned(env) && (HasQuery(args.query) ==> ChunksNonEmpty(env))
    ensures var d := DispatchAll(env, alwaysBypass, records, urls, args);
            forall i :: 0 <= i < |urls| ==>
              (d.outcomes[i].Raised? <==> urls[i] == "")
              && (d.outcomes[i].Raised? ==> d.outcomes[i].msg == InvalidUrlMessage)
    decreases |urls|
  {
    if urls != [] {
      var n := |urls| - 1;
      var before := DispatchAll(env, alwaysBypass, records, urls[..n], args);
      DispatchRaisesOnlyForEmptyUrls(env, alwaysBypass, records, urls[..n], args);
      ArunRaisesOnlyForInvalidUrl(env, alwaysBypass, before.records, StrUrl(urls[n]), None, args);
    }
  }

  /** A batch keeps the cache well formed. */
  lemma {:induction false} DispatchPreservesCacheInvariant(env: Env, alwaysBypass: bool, records: map<string, CrawlResult>,
                                                           urls: seq<string>, args: ArunArgs)
    requires RankAligned(env) && (HasQuery(args.query) ==> ChunksNonEmpty(env))
    requires CacheInvariant(env, records)
    ensures CacheInvariant(env, DispatchAll(env, alwaysBypass, records, urls, args).records)
    decreases |urls|
  {
    if urls != [] {
      var n := |urls| - 1;
      var before := DispatchAll(env, alwaysBypass, records, urls[..n], args);
      DispatchPreservesCacheInvariant(env, alwaysBypass, records, urls[..n], args);
      ArunPreservesCacheInvariant(env, alwaysBypass, before.records, StrUrl(urls[n]), None, args);
    }
  }

  /** A batch writes the cache only under its own urls; every other entry is left as it was. */
  lemma {:induction false} DispatchWritesOnlyBatchUrls(env: Env, alwaysBypass: bool, records: map<string, CrawlResult>,
                                                       urls: seq<string>, args: ArunArgs, key: string)
    requires RankAligned(env) && (HasQuery(args.query) ==> ChunksNonEmpty(env))
    requires key !in urls
    ensures var after := DispatchAll(env, alwaysBypass, records, urls, args).records;
            (key in after <==> key in records) && (key in records ==> after[key] == records[key])
    decreases |urls|
  {
    if urls != [] {
      var n := |urls| - 1;
      var before := DispatchAll(env, alwaysBypass, records, urls[..n], args);
      assert key !in urls[..n];
      DispatchWritesOnlyBatchUrls(env, alwaysBypass, records, urls[..n], args, key);
      if urls[n] != "" {
        WriteBackRule(env, alwaysBypass, before.records, urls[n], None, args);
      }
    }
  }
}
