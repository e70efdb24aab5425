/**
 * The bookkeeping of `arun_many`: the batch configuration and the keyword
 * arguments it forwards to `arun`, the semaphore-count default, the per-domain
 * rate-limit ledger, and the order-preserving conversion of task outcomes.
 */
module Scheduler {
  import opened Wrappers
  import opened Records

  // ---------------------------------------------------------------------------
  // Batch configuration
  // ---------------------------------------------------------------------------

  /** The keyword arguments of `arun_many` other than `urls` and `config`. */
  datatype BatchArgs = BatchArgs(
    wordCountThreshold: Option<int>,
    extractionStrategy: Option<ExtractorRef>,
    chunkingStrategy: Option<ChunkerRef>,
    contentFilter: Option<string>,
    cacheMode: Option<CacheMode>,
    bypassCache: bool,
    cssSelector: Option<string>,
    screenshot: bool,
    pdf: bool,
    userAgent: Option<string>,
    verbose: bool,
    query: Option<string>)

  /** The defaults `arun_many` declares. */
  const DefaultBatchArgs := BatchArgs(None, None, Some(ChunkingStrategy("RegexChunking")), None, None, false,
                                      None, false, false, None, true, None)

  /**
   * The dictionary `arun_many` hands to `from_kwargs` when no config is given:
   * its legacy parameters, of which only `bypass_cache` is a cache flag.
   */
  function BatchConfigArgs(b: BatchArgs): (a: ArunArgs)
    ensures a.flags == LegacyFlags(false, b.bypassCache, false, false)
    ensures a.userAgent.None? && a.query.None? && a.crawlerConfigKwarg.None?
  {
    ArunArgs(b.wordCountThreshold, b.extractionStrategy, b.chunkingStrategy, b.contentFilter, b.cacheMode,
             LegacyFlags(false, b.bypassCache, false, false), b.cssSelector, b.screenshot, b.pdf,
             None, b.verbose, None, None)
  }

  /**
   * The batch config after `arun_many`'s own cache rule: `bypass_cache` turns an
   * unset cache mode into BYPASS; a set mode and every other setting are kept.
   */
  function WithBypass(config: RunConfigView, bypassCache: bool): (r: RunConfigView)
    ensures r.settings == config.settings
    ensures config.cacheMode.Some? ==> r.cacheMode == config.cacheMode
    ensures config.cacheMode.None? ==> (r.cacheMode == Some(Bypass) <==> bypassCache)
    ensures config.cacheMode.None? && !bypassCache ==> r.cacheMode.None?
  {
    if bypassCache && config.cacheMode.None? then config.(cacheMode := Some(Bypass)) else config
  }

  /**
   * The keyword arguments each task passes to `arun`: the batch config travels
   * as a `crawler_config=` keyword, `arun`'s own `config` stays None, and every
   * legacy argument keeps `arun`'s default.
   */
  function ForwardedArgs(batch: RunConfigView, userAgent: Option<string>, query: Option<string>): (a: ArunArgs)
    ensures a.crawlerConfigKwarg == Some(batch)
    ensures a.flags == NoLegacyFlags && a.cacheMode.None? && !a.screenshot && !a.pdf
    ensures a.userAgent == userAgent && a.query == query
    ensures a.(userAgent := None, query := None, crawlerConfigKwarg := None) == DefaultArunArgs
  {
    DefaultArunArgs.(userAgent := userAgent, query := query, crawlerConfigKwarg := Some(batch))
  }

  const DefaultSemaphoreCount := 5
  const NegativeSemaphoreMessage := "Semaphore initial value must be >= 0"

  /** `config.semaphore_count or 5`. */
  function SemaphoreCount(configured: Option<int>): (n: int)
    ensures configured.None? || configured.value == 0 ==> n == DefaultSemaphoreCount
    ensures configured.Some? && configured.value != 0 ==> n == configured.value
  {
    if configured.Some? && configured.value != 0 then configured.value else DefaultSemaphoreCount
  }

  /** Only an explicitly negative count can make the semaphore constructor raise. */
  lemma SemaphoreCountNegativeOnlyWhenConfigured(configured: Option<int>)
    ensures SemaphoreCount(configured) < 0 <==> configured.Some? && configured.value < 0
  {
  }

  // ---------------------------------------------------------------------------
  // Rate limiting
  // ---------------------------------------------------------------------------

  /** `range * draw` lies in `[0, range]`. */
  lemma JitterWithinRange(range: real, draw: real)
    requires 0.0 <= draw < 1.0
    ensures range >= 0.0 ==> 0.0 <= range * draw <= range
  {
    if range >= 0.0 {
      assert range * draw >= 0.0 * draw;
      assert range - range * draw == range * (1.0 - draw);
      assert range * (1.0 - draw) >= 0.0 * (1.0 - draw);
    }
  }

  /** One task's rate-limit step: the sleep it takes, if any, and the ledger after it. */
  datatype Throttle = Throttle(delay: Option<real>, ledger: map<string, real>)

  /**
   * A task for `domain` at time `now` sleeps `mean + range * draw` (`draw` being
   * the `random()` behind `random.uniform(0, range)`) when the domain was hit
   * less than `mean` ago, and then records `now`, the time taken BEFORE sleeping.
   */
  function ThrottleStep(ledger: map<string, real>, domain: string, now: real, mean: real, range: real, draw: real): (t: Throttle)
    requires 0.0 <= draw < 1.0
    ensures t.delay.Some? <==> domain in ledger && now - ledger[domain] < mean
    ensures t.delay.Some? && range >= 0.0 ==> mean <= t.delay.value <= mean + range
    ensures t.ledger.Keys == ledger.Keys + {domain} && t.ledger[domain] == now
    ensures forall d :: d in ledger && d != domain ==> t.ledger[d] == ledger[d]
  {
    var delay := if domain in ledger && now - ledger[domain] < mean then Some(mean + range * draw) else None;
    JitterWithinRange(range, draw);
    Throttle(delay, ledger[domain := now])
  }

  /**
   * A task for a domain it finds in the ledger, at a time no earlier than the
   * recorded hit, starts at least `mean` after that hit.
   */
  lemma StartIsSpacedFromRecordedHit(ledger: map<string, real>, domain: string, now: real, mean: real, range: real, draw: real)
    requires 0.0 <= draw < 1.0 && range >= 0.0
    requires domain in ledger && now >= ledger[domain]
    ensures now + ThrottleStep(ledger, domain, now, mean, range, draw).delay.GetOr(0.0) >= ledger[domain] + mean
  {
  }

  /** The sleeps and the ledger after the rate-limit steps of a whole batch, in task order. */
  datatype Schedule = Schedule(delays: seq<Option<real>>, ledger: map<string, real>)

  predicate Draws(draws: seq<real>) {
    forall i :: 0 <= i < |draws| ==> 0.0 <= draws[i] < 1.0
  }

  function ScheduleAll(ledger: map<string, real>, domains: seq<string>, clock: seq<real>, mean: real, range: real,
                       draws: seq<real>): (s: Schedule)
    requires |clock| == |domains| && |draws| == |domains| && Draws(draws)
    ensures |s.delays| == |domains|
  {
    if domains == [] then Schedule([], ledger)
    else
      var n := |domains| - 1;
      var before := ScheduleAll(ledger, domains[..n], clock[..n], mean, range, draws[..n]);
      var step := ThrottleStep(before.ledger, domains[n], clock[n], mean, range, draws[n]);
      Schedule(before.delays + [step.delay], step.ledger)
  }

  /** The index of the last task for `domain`, or -1. */
  function LastTaskFor(domains: seq<string>, domain: string): (k: int)
    ensures -1 <= k < |domains|
    ensures k >= 0 ==> domains[k] == domain
    ensures forall i :: k < i < |domains| ==> domains[i] != domain
  {
    if domains == [] then -1
    else if domains[|domains| - 1] == domain then |domains| - 1
    else LastTaskFor(domains[..|domains| - 1], domain)
  }

  /** The domains of a batch, as a set. */
  function DomainSet(domains: seq<string>): (ds: set<string>)
    ensures forall i :: 0 <= i < |domains| ==> domains[i] in ds
    ensures forall d :: d in ds ==> LastTaskFor(domains, d) >= 0
  {
    if domains == [] then {} else DomainSet(domains[..|domains| - 1]) + {domains[|domains| - 1]}
  }

  /** After a batch the ledger holds exactly the domains it held before and those of the batch: nothing is removed. */
  lemma {:induction false} LedgerKeysAfterBatch(ledger: map<string, real>, domains: seq<string>, clock: seq<real>, mean: real,
                                                range: real, draws: seq<real>)
    requires |clock| == |domains| && |draws| == |domains| && Draws(draws)
    ensures ScheduleAll(ledger, domains, clock, mean, range, draws).ledger.Keys == ledger.Keys + DomainSet(domains)
    decreases |domains|
  {
    if domains != [] {
      var n := |domains| - 1;
      LedgerKeysAfterBatch(ledger, domains[..n], clock[..n], mean, range, draws[..n]);
    }
  }

  /** A domain of the batch ends up mapped to the time of its LAST task. */
  lemma {:induction false} LedgerLastTaskWins(ledger: map<string, real>, domains: seq<string>, clock: seq<real>, mean: real,
                                              range: real, draws: seq<real>, d: string)
    requires |clock| == |domains| && |draws| == |domains| && Draws(draws)
    requires LastTaskFor(domains, d) >= 0
    ensures var after := ScheduleAll(ledger, domains, clock, mean, range, draws).ledger;
            d in after && after[d] == clock[LastTaskFor(domains, d)]
    decreases |domains|
  {
    var n := |domains| - 1;
    if domains[n] != d {
      LedgerLastTaskWins(ledger, domains[..n], clock[..n], mean, range, draws[..n], d);
    }
  }

  /** A domain outside the batch keeps its entry. */
  lemma {:induction false} LedgerOtherDomainsUntouched(ledger: map<string, real>, domains: seq<string>, clock: seq<real>, mean: real,
                                                       range: real, draws: seq<real>, d: string)
    requires |clock| == |domains| && |draws| == |domains| && Draws(draws)
    requires d in ledger && LastTaskFor(domains, d) < 0
    ensures var after := ScheduleAll(ledger, domains, clock, mean, range, draws).ledger;
            d in after && after[d] == ledger[d]
    decreases |domains|
  {
    if domains != [] {
      var n := |domains| - 1;
      LedgerOtherDomainsUntouched(ledger, domains[..n], clock[..n], mean, range, draws[..n], d);
    }
  }

  /**
   * Stamping the time read before the sleep lets two starts for one domain fall
   * closer than `mean`, even with each task finishing before the next arrives
   * (mean 1s, no jitter). The task arriving at 0.5 sleeps 1s and starts at 1.5,
   * but the ledger keeps 0.5; the task arriving at 1.5 is compared with 0.5,
   * does not sleep, and starts at 1.5 too. Had the start time 1.5 been stored,
   * the third task would have been 0s after it and slept.
   */
  lemma StampBeforeSleepAllowsCloseStarts()
    ensures var s2 := ScheduleAll(map[], ["a", "a"], [0.0, 0.5], 1.0, 0.0, [0.0, 0.0]);
            var s := ScheduleAll(map[], ["a", "a", "a"], [0.0, 0.5, 1.5], 1.0, 0.0, [0.0, 0.0, 0.0]);
            && s.delays == [None, Some(1.0), None]
            && s2.ledger["a"] == 0.5 && 0.5 + s2.delays[1].value == 1.5
            && 1.5 + s.delays[2].GetOr(0.0) == 0.5 + s.delays[1].value
            && 1.5 - (0.5 + s2.delays[1].value) < 1.0
  {
    var s1 := ScheduleAll(map[], ["a"], [0.0], 1.0, 0.0, [0.0]);
    assert s1 == Schedule([None], map["a" := 0.0]) by {
      assert ScheduleAll(map[], [], [], 1.0, 0.0, []) == Schedule([], map[]);
      assert ["a"][..0] == [];
    }
    var s2 := ScheduleAll(map[], ["a", "a"], [0.0, 0.5], 1.0, 0.0, [0.0, 0.0]);
    assert s2 == Schedule([None, Some(1.0)], map["a" := 0.5]) by {
      assert ["a", "a"][..1] == ["a"] && [0.0, 0.5][..1] == [0.0] && [0.0, 0.0][..1] == [0.0];
    }
    assert ["a", "a", "a"][..2] == ["a", "a"] && [0.0, 0.5, 1.5][..2] == [0.0, 0.5] && [0.0, 0.0, 0.0][..2] == [0.0, 0.0];
  }

  // ---------------------------------------------------------------------------
  // Result conversion
  // ---------------------------------------------------------------------------

  /** An element of the list `arun_many` returns: a result, or the text of a task's exception. */
  datatype BatchItem = Crawled(result: CrawlResult) | Failed(message: string)

  function ToBatchItem(outcome: Fallible<CrawlResult>): (item: BatchItem)
    ensures item.Crawled? <==> outcome.Ok?
    ensures item.Crawled? ==> item.result == outcome.value
    ensures item.Failed? ==> item.message == outcome.msg
  {
    match outcome
    case Ok(r) => Crawled(r)
    case Raised(m) => Failed(m)
  }

  /** The list comprehension over the gathered outcomes: same length, same order. */
  function ToBatchItems(outcomes: seq<Fallible<CrawlResult>>): (items: seq<BatchItem>)
    ensures |items| == |outcomes|
    ensures forall i :: 0 <= i < |items| ==> items[i] == ToBatchItem(outcomes[i])
  {
    if outcomes == [] then []
    else ToBatchItems(outcomes[..|outcomes| - 1]) + [ToBatchItem(outcomes[|outcomes| - 1])]
  }
}
