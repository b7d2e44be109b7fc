/** Crawl: the breadth-first crawl loop over a queue and a site map. */
module Crawler {
  import opened Wrappers
  import opened Html
  import opened HostFilter
  import opened CrawlSpec
  import opened CrawlInvariants

  /** The only fatal error: the seed address does not parse. */
  datatype CrawlError = SeedParseError(baseURL: string)

  /** Crawl builds the site map reachable from `baseURL` within `level` hops,
      following only links whose host ends with the seed's host. */
  method Crawl<U>(env: Env<U>, baseURL: string, level: int)
    returns (r: Result<map<string, seq<U>>, CrawlError>)
    ensures env.parse(baseURL).None? ==> r == Failure(SeedParseError(baseURL))
    ensures env.parse(baseURL).Some?
            ==> r == Success(CrawlFrom(env, env.parse(baseURL).value, level).siteMap)
    ensures r.Success? ==> forall k :: k in r.value ==>
              env.getBody(k).Some? && r.value[k] == PageLinks(env, env.getBody(k).value)
    ensures r.Success? && r.value != map[] ==> env.render(env.parse(baseURL).value) in r.value
    ensures r.Success? && level <= 0 ==> r.value.Keys <= {env.render(env.parse(baseURL).value)}
  {
    var bu := env.parse(baseURL);
    if bu.None? {
      return Failure(SeedParseError(baseURL));
    }
    var seed := bu.value;
    var hostname := env.hostname(seed);
    var queue := [Item(seed, 0)];
    var adjList: map<string, seq<U>> := map[];
    ghost var depth: map<string, int> := map[];
    ghost var requests: seq<string> := [];
    while |queue| > 0
      invariant Run(env, hostname, level, State(queue, adjList, depth, requests))
                == CrawlFrom(env, seed, level)
      decreases QueueWork(env, hostname, level, queue)
    {
      ghost var before := State(queue, adjList, depth, requests);
      RunStep(env, hostname, level, before);
      var u := queue[0];
      queue := queue[1..];
      var currURL := env.render(u.url);
      if currURL in adjList {
        StepSkipsVisited(env, hostname, level, before);
        continue;
      }
      var body := env.getBody(currURL);
      requests := requests + [currURL];
      if body.None? {
        StepSkipsFailedFetch(env, hostname, level, before);
        continue;
      }
      var urls := ParseHtml(env.parse, env.tokenize(body.value));
      adjList := adjList[currURL := urls];
      depth := depth[currURL := u.level];
      var filtered := FilterByHostname(env.hostname, hostname, urls);
      if u.level < level {
        for k := 0 to |filtered|
          invariant queue == before.queue[1..] + Enqueue(filtered[..k], u.level + 1)
        {
          EnqueuePrefix(filtered, k, u.level + 1);
          queue := queue + [Item(filtered[k], u.level + 1)];
        }
        assert filtered[..|filtered|] == filtered;
      }
      StepRecordsPage(env, hostname, level, before, body.value);
    }
    CrawlRecordsFetchedPages(env, seed, level);
    CrawlStartsAtSeed(env, seed, level);
    if level <= 0 {
      CrawlLevelZeroOnlySeed(env, seed, level);
    }
    return Success(adjList);
  }
}
