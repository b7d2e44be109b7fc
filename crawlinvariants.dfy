/** What the crawl loop keeps true, step by step, and what therefore holds
    of the finished site map. */
module CrawlInvariants {
  import opened Wrappers
  import opened CrawlSpec

  /** A level an item or a recorded address can have: the seed's 0, or a
      positive level no deeper than the bound. */
  predicate LevelOk(maxLevel: int, l: int) {
    l == 0 || 0 < l <= maxLevel
  }

  /** Every key was fetched successfully and maps to the full, unfiltered
      list of links of its page. */
  ghost predicate Fetched<U>(env: Env<U>, s: State<U>) {
    forall k :: k in s.siteMap ==>
      env.getBody(k).Some? && s.siteMap[k] == PageLinks(env, env.getBody(k).value)
  }

  ghost predicate Levels<U>(maxLevel: int, s: State<U>) {
    && (forall i :: 0 <= i < |s.queue| ==> LevelOk(maxLevel, s.queue[i].level))
    && s.depth.Keys == s.siteMap.Keys
    && (forall k :: k in s.depth ==> LevelOk(maxLevel, s.depth[k]))
  }

  /** Address `k` at level `l` is the seed (level 0) or a followed link of
      a key recorded one level higher up. */
  ghost predicate Reached<U>(env: Env<U>, hostname: string, seedKey: string, s: State<U>, k: string, l: int) {
    if l == 0 then k == seedKey
    else exists p :: p in s.siteMap && p in s.depth && s.depth[p] == l - 1
                     && k in Targets(env, hostname, s.siteMap[p])
  }

  ghost predicate Provenance<U>(env: Env<U>, hostname: string, seedKey: string, s: State<U>) {
    && (forall i :: 0 <= i < |s.queue| ==>
          Reached(env, hostname, seedKey, s, env.render(s.queue[i].url), s.queue[i].level))
    && (forall k :: k in s.siteMap && k in s.depth ==> Reached(env, hostname, seedKey, s, k, s.depth[k]))
  }

  /** Nothing is recorded before the seed: while the site map is empty only
      level-0 items are queued, and afterwards the seed is a key at level 0. */
  ghost predicate SeedFirst<U>(seedKey: string, s: State<U>) {
    && (s.siteMap == map[] ==> forall i :: 0 <= i < |s.queue| ==> s.queue[i].level == 0)
    && (s.siteMap != map[] ==> seedKey in s.siteMap && seedKey in s.depth && s.depth[seedKey] == 0)
  }

  /** Every followed link of a key recorded below the level bound is a key,
      failed to fetch, or is still queued. */
  ghost predicate Expanded<U>(env: Env<U>, hostname: string, maxLevel: int, s: State<U>) {
    forall p, t :: p in s.siteMap && p in s.depth && s.depth[p] < maxLevel
                   && t in Targets(env, hostname, s.siteMap[p])
                   ==> t in s.siteMap || env.getBody(t).None? || t in Pending(env, s.queue)
  }

  /** Every key was requested; a successful request made its address a
      key; an address requested twice failed the later time. */
  ghost predicate RequestLog<U>(env: Env<U>, s: State<U>) {
    && (forall k :: k in s.siteMap ==> k in s.requests)
    && (forall i :: 0 <= i < |s.requests| && env.getBody(s.requests[i]).Some? ==> s.requests[i] in s.siteMap)
    && (forall i, j :: 0 <= i < j < |s.requests| && s.requests[i] == s.requests[j]
          ==> env.getBody(s.requests[j]).None?)
  }

  ghost predicate Inv<U>(env: Env<U>, hostname: string, maxLevel: int, seedKey: string, s: State<U>) {
    && Fetched(env, s)
    && Levels(maxLevel, s)
    && Provenance(env, hostname, seedKey, s)
    && SeedFirst(seedKey, s)
    && Expanded(env, hostname, maxLevel, s)
    && RequestLog(env, s)
  }

  lemma PendingTail<U>(env: Env<U>, q: seq<Item<U>>)
    requires q != []
    ensures Pending(env, q) == [env.render(q[0].url)] + Pending(env, q[1..])
  {
  }

  lemma PendingEnqueue<U>(env: Env<U>, hostname: string, rest: seq<Item<U>>, urls: seq<U>, level: int)
    ensures Pending(env, rest + Enqueue(Outlinks(env, hostname, urls), level))
            == Pending(env, rest) + Targets(env, hostname, urls)
  {
  }

  lemma TargetsAt<U>(env: Env<U>, hostname: string, urls: seq<U>, i: int)
    requires 0 <= i < |Outlinks(env, hostname, urls)|
    ensures env.render(Outlinks(env, hostname, urls)[i]) in Targets(env, hostname, urls)
  {
    assert Targets(env, hostname, urls)[i] == env.render(Outlinks(env, hostname, urls)[i]);
  }

  /** Reached is kept when entries are only added. */
  lemma ReachedGrows<U>(env: Env<U>, hostname: string, seedKey: string, s: State<U>, s': State<U>, k: string, l: int)
    requires Reached(env, hostname, seedKey, s, k, l)
    requires forall p :: p in s.siteMap ==> p in s'.siteMap && s'.siteMap[p] == s.siteMap[p]
    requires forall p :: p in s.depth ==> p in s'.depth && s'.depth[p] == s.depth[p]
    ensures Reached(env, hostname, seedKey, s', k, l)
  {
    if l != 0 {
      var p :| p in s.siteMap && p in s.depth && s.depth[p] == l - 1
               && k in Targets(env, hostname, s.siteMap[p]);
      assert p in s'.siteMap && p in s'.depth && s'.depth[p] == l - 1;
    }
  }

  /** `s'` is `s` with its head popped and nothing recorded. */
  ghost predicate Popped<U>(s: State<U>, s': State<U>) {
    s.queue != [] && s'.queue == s.queue[1..] && s'.siteMap == s.siteMap && s'.depth == s.depth
  }

  lemma PopKeepsLevels<U>(maxLevel: int, s: State<U>, s': State<U>)
    requires Levels(maxLevel, s) && Popped(s, s')
    ensures Levels(maxLevel, s')
  {
    assert forall i :: 0 <= i < |s'.queue| ==> s'.queue[i] == s.queue[i + 1];
  }

  lemma PopKeepsProvenance<U>(env: Env<U>, hostname: string, seedKey: string, s: State<U>, s': State<U>)
    requires Provenance(env, hostname, seedKey, s) && Popped(s, s')
    ensures Provenance(env, hostname, seedKey, s')
  {
    forall i | 0 <= i < |s'.queue|
      ensures Reached(env, hostname, seedKey, s', env.render(s'.queue[i].url), s'.queue[i].level)
    {
      assert s'.queue[i] == s.queue[i + 1];
      ReachedGrows(env, hostname, seedKey, s, s', env.render(s.queue[i + 1].url), s.queue[i + 1].level);
    }
    forall k | k in s'.siteMap && k in s'.depth
      ensures Reached(env, hostname, seedKey, s', k, s'.depth[k])
    {
      ReachedGrows(env, hostname, seedKey, s, s', k, s.depth[k]);
    }
  }

  lemma PopKeepsSeedFirst<U>(seedKey: string, s: State<U>, s': State<U>)
    requires SeedFirst(seedKey, s) && Popped(s, s')
    ensures SeedFirst(seedKey, s')
  {
    assert forall i :: 0 <= i < |s'.queue| ==> s'.queue[i] == s.queue[i + 1];
  }

  lemma PopKeepsExpanded<U>(env: Env<U>, hostname: string, maxLevel: int, s: State<U>, s': State<U>)
    requires Expanded(env, hostname, maxLevel, s) && Popped(s, s')
    requires env.render(s.queue[0].url) in s.siteMap || env.getBody(env.render(s.queue[0].url)).None?
    ensures Expanded(env, hostname, maxLevel, s')
  {
    PendingTail(env, s.queue);
  }

  lemma PopKeepsInv<U>(env: Env<U>, hostname: string, maxLevel: int, seedKey: string, s: State<U>, s': State<U>)
    requires Inv(env, hostname, maxLevel, seedKey, s) && Popped(s, s')
    requires var cur := env.render(s.queue[0].url);
             || (s'.requests == s.requests && cur in s.siteMap)
             || (s'.requests == s.requests + [cur] && cur !in s.siteMap && env.getBody(cur).None?)
    ensures Inv(env, hostname, maxLevel, seedKey, s')
  {
    PopKeepsLevels(maxLevel, s, s');
    PopKeepsProvenance(env, hostname, seedKey, s, s');
    PopKeepsSeedFirst(seedKey, s, s');
    PopKeepsExpanded(env, hostname, maxLevel, s, s');
    PopKeepsRequestLog(env, s, s');
    assert Fetched(env, s') by {
      assert s'.siteMap == s.siteMap;
    }
  }

  /** Popping a visited address logs no request; popping an address whose
      fetch fails logs one failed request. */
  lemma PopKeepsRequestLog<U>(env: Env<U>, s: State<U>, s': State<U>)
    requires RequestLog(env, s) && Popped(s, s')
    requires var cur := env.render(s.queue[0].url);
             || (s'.requests == s.requests && cur in s.siteMap)
             || (s'.requests == s.requests + [cur] && cur !in s.siteMap && env.getBody(cur).None?)
    ensures RequestLog(env, s')
  {
    var cur := env.render(s.queue[0].url);
    if s'.requests != s.requests {
      assert forall i :: 0 <= i < |s.requests| ==> s'.requests[i] == s.requests[i];
      assert s'.requests[|s.requests|] == cur;
    }
  }

  /** `s'` is `s` after fetching the head's page `body` and recording it. */
  ghost predicate Recorded<U>(env: Env<U>, hostname: string, maxLevel: int, s: State<U>, s': State<U>, body: string) {
    && s.queue != []
    && var item := s.queue[0];
       var cur := env.render(item.url);
       var urls := PageLinks(env, body);
       && cur !in s.siteMap
       && env.getBody(cur) == Some(body)
       && s'.queue == s.queue[1..] + (if item.level < maxLevel
                                      then Enqueue(Outlinks(env, hostname, urls), item.level + 1)
                                      else [])
       && s'.siteMap == s.siteMap[cur := urls]
       && s'.depth == s.depth[cur := item.level]
       && s'.requests == s.requests + [cur]
  }

  lemma RecordKeepsFetched<U>(env: Env<U>, hostname: string, maxLevel: int, s: State<U>, s': State<U>, body: string)
    requires Fetched(env, s) && Recorded(env, hostname, maxLevel, s, s', body)
    ensures Fetched(env, s')
  {
  }

  lemma RecordKeepsLevels<U>(env: Env<U>, hostname: string, maxLevel: int, s: State<U>, s': State<U>, body: string)
    requires Levels(maxLevel, s) && Recorded(env, hostname, maxLevel, s, s', body)
    ensures Levels(maxLevel, s')
  {
    var item := s.queue[0];
    forall i | 0 <= i < |s'.queue| ensures LevelOk(maxLevel, s'.queue[i].level) {
      if i < |s.queue| - 1 {
        assert s'.queue[i] == s.queue[i + 1];
      } else {
        assert s'.queue[i].level == item.level + 1;
      }
    }
  }

  /** Entries are only added by recording, so earlier facts about the
      site map carry over. */
  lemma RecordGrows<U>(env: Env<U>, hostname: string, maxLevel: int, seedKey: string,
                       s: State<U>, s': State<U>, body: string, k: string, l: int)
    requires Recorded(env, hostname, maxLevel, s, s', body)
    requires env.render(s.queue[0].url) !in s.depth
    requires Reached(env, hostname, seedKey, s, k, l)
    ensures Reached(env, hostname, seedKey, s', k, l)
  {
    ReachedGrows(env, hostname, seedKey, s, s', k, l);
  }

  lemma RecordKeepsQueueProvenance<U>(env: Env<U>, hostname: string, maxLevel: int, seedKey: string,
                                      s: State<U>, s': State<U>, body: string)
    requires Recorded(env, hostname, maxLevel, s, s', body)
    requires env.render(s.queue[0].url) !in s.depth && s.queue[0].level >= 0
    requires forall i :: 0 <= i < |s.queue| ==>
               Reached(env, hostname, seedKey, s, env.render(s.queue[i].url), s.queue[i].level)
    ensures forall i :: 0 <= i < |s'.queue| ==>
               Reached(env, hostname, seedKey, s', env.render(s'.queue[i].url), s'.queue[i].level)
  {
    var item := s.queue[0];
    var cur := env.render(item.url);
    var urls := PageLinks(env, body);
    var filtered := Outlinks(env, hostname, urls);
    forall i | 0 <= i < |s'.queue|
      ensures Reached(env, hostname, seedKey, s', env.render(s'.queue[i].url), s'.queue[i].level)
    {
      if i < |s.queue| - 1 {
        assert s'.queue[i] == s.queue[i + 1];
        RecordGrows(env, hostname, maxLevel, seedKey, s, s', body, env.render(s.queue[i + 1].url), s.queue[i + 1].level);
      } else {
        var m := i - (|s.queue| - 1);
        assert s'.queue[i] == Item(filtered[m], item.level + 1);
        TargetsAt(env, hostname, urls, m);
        assert cur in s'.siteMap && cur in s'.depth && s'.depth[cur] == item.level;
      }
    }
  }

  lemma RecordKeepsKeyProvenance<U>(env: Env<U>, hostname: string, seedKey: string,
                                    s: State<U>, s': State<U>, cur: string, urls: seq<U>, level: int)
    requires cur !in s.siteMap && s.depth.Keys == s.siteMap.Keys
    requires s'.siteMap == s.siteMap[cur := urls] && s'.depth == s.depth[cur := level]
    requires Reached(env, hostname, seedKey, s, cur, level)
    requires forall k :: k in s.siteMap && k in s.depth ==> Reached(env, hostname, seedKey, s, k, s.depth[k])
    ensures forall k :: k in s'.siteMap && k in s'.depth ==> Reached(env, hostname, seedKey, s', k, s'.depth[k])
  {
    forall k | k in s'.siteMap && k in s'.depth
      ensures Reached(env, hostname, seedKey, s', k, s'.depth[k])
    {
      if k == cur {
        ReachedGrows(env, hostname, seedKey, s, s', cur, level);
      } else {
        ReachedGrows(env, hostname, seedKey, s, s', k, s.depth[k]);
      }
    }
  }

  lemma RecordKeepsProvenance<U>(env: Env<U>, hostname: string, maxLevel: int, seedKey: string,
                                 s: State<U>, s': State<U>, body: string)
    requires Provenance(env, hostname, seedKey, s) && Recorded(env, hostname, maxLevel, s, s', body)
    requires Levels(maxLevel, s)
    ensures Provenance(env, hostname, seedKey, s')
  {
    assert LevelOk(maxLevel, s.queue[0].level);
    RecordKeepsQueueProvenance(env, hostname, maxLevel, seedKey, s, s', body);
    RecordKeepsKeyProvenance(env, hostname, seedKey, s, s', env.render(s.queue[0].url),
                             PageLinks(env, body), s.queue[0].level);
  }

  lemma RecordKeepsSeedFirst<U>(env: Env<U>, hostname: string, maxLevel: int, seedKey: string,
                                s: State<U>, s': State<U>, body: string)
    requires SeedFirst(seedKey, s) && Recorded(env, hostname, maxLevel, s, s', body)
    requires forall i :: 0 <= i < |s.queue| && s.queue[i].level == 0 ==> env.render(s.queue[i].url) == seedKey
    ensures SeedFirst(seedKey, s')
  {
    if s.siteMap == map[] {
      assert s.queue[0].level == 0;
    } else {
      assert seedKey in s.siteMap;
    }
  }

  lemma RecordKeepsExpanded<U>(env: Env<U>, hostname: string, maxLevel: int, s: State<U>, s': State<U>, body: string)
    requires Expanded(env, hostname, maxLevel, s) && Recorded(env, hostname, maxLevel, s, s', body)
    ensures Expanded(env, hostname, maxLevel, s')
  {
    var item := s.queue[0];
    var cur := env.render(item.url);
    var urls := PageLinks(env, body);
    PendingTail(env, s.queue);
    if item.level < maxLevel {
      PendingEnqueue(env, hostname, s.queue[1..], urls, item.level + 1);
    } else {
      assert s'.queue == s.queue[1..];
    }
    forall p, t | p in s'.siteMap && p in s'.depth && s'.depth[p] < maxLevel
                  && t in Targets(env, hostname, s'.siteMap[p])
      ensures t in s'.siteMap || env.getBody(t).None? || t in Pending(env, s'.queue)
    {
      if p != cur {
        assert t in s.siteMap || env.getBody(t).None? || t in Pending(env, s.queue);
      }
    }
  }

  lemma RecordKeepsRequestLog<U>(env: Env<U>, hostname: string, maxLevel: int, s: State<U>, s': State<U>, body: string)
    requires RequestLog(env, s) && Recorded(env, hostname, maxLevel, s, s', body)
    ensures RequestLog(env, s')
  {
    var cur := env.render(s.queue[0].url);
    forall i, j | 0 <= i < j < |s'.requests| && s'.requests[i] == s'.requests[j]
      ensures env.getBody(s'.requests[j]).None?
    {
      if j < |s.requests| {
        assert s'.requests[i] == s.requests[i] && s'.requests[j] == s.requests[j];
      }
    }
    forall i | 0 <= i < |s'.requests| && env.getBody(s'.requests[i]).Some?
      ensures s'.requests[i] in s'.siteMap
    {
      if i < |s.requests| {
        assert s'.requests[i] == s.requests[i];
      }
    }
  }

  lemma LevelZeroIsSeed<U>(env: Env<U>, hostname: string, seedKey: string, s: State<U>)
    requires Provenance(env, hostname, seedKey, s)
    ensures forall i :: 0 <= i < |s.queue| && s.queue[i].level == 0 ==> env.render(s.queue[i].url) == seedKey
  {
    forall i | 0 <= i < |s.queue| && s.queue[i].level == 0
      ensures env.render(s.queue[i].url) == seedKey
    {
      assert Reached(env, hostname, seedKey, s, env.render(s.queue[i].url), s.queue[i].level);
    }
  }

  /** Recording a fetched page keeps the invariant. */
  lemma RecordKeepsInv<U>(env: Env<U>, hostname: string, maxLevel: int, seedKey: string,
                          s: State<U>, s': State<U>, body: string)
    requires Inv(env, hostname, maxLevel, seedKey, s) && Recorded(env, hostname, maxLevel, s, s', body)
    ensures Inv(env, hostname, maxLevel, seedKey, s')
  {
    RecordKeepsFirstHalf(env, hostname, maxLevel, seedKey, s, s', body);
    RecordKeepsSecondHalf(env, hostname, maxLevel, seedKey, s, s', body);
  }

  lemma RecordKeepsFirstHalf<U>(env: Env<U>, hostname: string, maxLevel: int, seedKey: string,
                                s: State<U>, s': State<U>, body: string)
    requires Inv(env, hostname, maxLevel, seedKey, s) && Recorded(env, hostname, maxLevel, s, s', body)
    ensures Fetched(env, s') && Levels(maxLevel, s') && Provenance(env, hostname, seedKey, s')
  {
    RecordKeepsFetched(env, hostname, maxLevel, s, s', body);
    RecordKeepsLevels(env, hostname, maxLevel, s, s', body);
    RecordKeepsProvenance(env, hostname, maxLevel, seedKey, s, s', body);
  }

  lemma RecordKeepsSecondHalf<U>(env: Env<U>, hostname: string, maxLevel: int, seedKey: string,
                                 s: State<U>, s': State<U>, body: string)
    requires Inv(env, hostname, maxLevel, seedKey, s) && Recorded(env, hostname, maxLevel, s, s', body)
    ensures SeedFirst(seedKey, s') && Expanded(env, hostname, maxLevel, s') && RequestLog(env, s')
  {
    LevelZeroIsSeed(env, hostname, seedKey, s);
    RecordKeepsSeedFirst(env, hostname, maxLevel, seedKey, s, s', body);
    RecordKeepsExpanded(env, hostname, maxLevel, s, s', body);
    RecordKeepsRequestLog(env, hostname, maxLevel, s, s', body);
  }

  lemma StepKeepsInv<U>(env: Env<U>, hostname: string, maxLevel: int, seedKey: string, s: State<U>)
    requires Inv(env, hostname, maxLevel, seedKey, s) && s.queue != []
    ensures Inv(env, hostname, maxLevel, seedKey, Step(env, hostname, maxLevel, s))
  {
    var cur := env.render(s.queue[0].url);
    if cur in s.siteMap {
      VisitedStepKeepsInv(env, hostname, maxLevel, seedKey, s);
    } else if env.getBody(cur).None? {
      FailedStepKeepsInv(env, hostname, maxLevel, seedKey, s);
    } else {
      RecordingStepKeepsInv(env, hostname, maxLevel, seedKey, s);
    }
  }

  /** The three branches of a step, one lemma each. */
  lemma VisitedStepKeepsInv<U>(env: Env<U>, hostname: string, maxLevel: int, seedKey: string, s: State<U>)
    requires Inv(env, hostname, maxLevel, seedKey, s) && s.queue != []
    requires env.render(s.queue[0].url) in s.siteMap
    ensures Inv(env, hostname, maxLevel, seedKey, Step(env, hostname, maxLevel, s))
  {
    StepSkipsVisited(env, hostname, maxLevel, s);
    PopKeepsInv(env, hostname, maxLevel, seedKey, s, Step(env, hostname, maxLevel, s));
  }

  lemma FailedStepKeepsInv<U>(env: Env<U>, hostname: string, maxLevel: int, seedKey: string, s: State<U>)
    requires Inv(env, hostname, maxLevel, seedKey, s) && s.queue != []
    requires env.render(s.queue[0].url) !in s.siteMap && env.getBody(env.render(s.queue[0].url)).None?
    ensures Inv(env, hostname, maxLevel, seedKey, Step(env, hostname, maxLevel, s))
  {
    StepSkipsFailedFetch(env, hostname, maxLevel, s);
    PopKeepsInv(env, hostname, maxLevel, seedKey, s, Step(env, hostname, maxLevel, s));
  }

  lemma RecordingStepKeepsInv<U>(env: Env<U>, hostname: string, maxLevel: int, seedKey: string, s: State<U>)
    requires Inv(env, hostname, maxLevel, seedKey, s) && s.queue != []
    requires env.render(s.queue[0].url) !in s.siteMap && env.getBody(env.render(s.queue[0].url)).Some?
    ensures Inv(env, hostname, maxLevel, seedKey, Step(env, hostname, maxLevel, s))
  {
    var body := env.getBody(env.render(s.queue[0].url)).value;
    var s' := Step(env, hostname, maxLevel, s);
    StepRecordsPage(env, hostname, maxLevel, s, body);
    assert Recorded(env, hostname, maxLevel, s, s', body) by {
      if s.queue[0].level >= maxLevel {
        assert s.queue[1..] + [] == s.queue[1..];
      }
    }
    RecordKeepsInv(env, hostname, maxLevel, seedKey, s, s', body);
  }


  lemma {:induction false} RunKeepsInv<U>(env: Env<U>, hostname: string, maxLevel: int, seedKey: string, s: State<U>)
    requires Inv(env, hostname, maxLevel, seedKey, s)
    ensures Inv(env, hostname, maxLevel, seedKey, Run(env, hostname, maxLevel, s))
    decreases QueueWork(env, hostname, maxLevel, s.queue)
  {
    if s.queue != [] {
      RunStep(env, hostname, maxLevel, s);
      StepKeepsInv(env, hostname, maxLevel, seedKey, s);
      RunKeepsInv(env, hostname, maxLevel, seedKey, Step(env, hostname, maxLevel, s));
    }
  }

  lemma InitialInv<U>(env: Env<U>, seed: U, maxLevel: int)
    ensures Inv(env, env.hostname(seed), maxLevel, env.render(seed), Initial(seed))
  {
    assert Reached(env, env.hostname(seed), env.render(seed), Initial(seed), env.render(seed), 0);
  }

  /** The invariant holds of the finished crawl, whose queue is empty. */
  lemma CrawlFromInv<U>(env: Env<U>, seed: U, maxLevel: int)
    ensures var r := CrawlFrom(env, seed, maxLevel);
            r.queue == [] && Inv(env, env.hostname(seed), maxLevel, env.render(seed), r)
  {
    InitialInv(env, seed, maxLevel);
    RunKeepsInv(env, env.hostname(seed), maxLevel, env.render(seed), Initial(seed));
  }

  /** Every key of the site map was fetched successfully and holds the
      full, unfiltered link list of its page; an address whose fetch fails
      is never a key. */
  lemma CrawlRecordsFetchedPages<U>(env: Env<U>, seed: U, maxLevel: int)
    ensures var m := CrawlFrom(env, seed, maxLevel).siteMap;
            forall k :: k in m ==>
              env.getBody(k).Some? && m[k] == PageLinks(env, env.getBody(k).value)
  {
    assert Fetched(env, CrawlFrom(env, seed, maxLevel)) by {
      CrawlFromInv(env, seed, maxLevel);
    }
  }

  /** The seed is crawled first: if its fetch fails the site map is empty,
      otherwise the seed is a key, recorded at level 0. */
  lemma CrawlStartsAtSeed<U>(env: Env<U>, seed: U, maxLevel: int)
    ensures var r := CrawlFrom(env, seed, maxLevel);
            var seedKey := env.render(seed);
            && (env.getBody(seedKey).None? ==> r.siteMap == map[])
            && (env.getBody(seedKey).Some? ==> seedKey in r.siteMap && seedKey in r.depth && r.depth[seedKey] == 0)
  {
    var hostname := env.hostname(seed);
    var s0 := Initial(seed);
    var s1 := Step(env, hostname, maxLevel, s0);
    RunStep(env, hostname, maxLevel, s0);
    assert SeedFirst(env.render(seed), CrawlFrom(env, seed, maxLevel)) by {
      CrawlFromInv(env, seed, maxLevel);
    }
    if env.getBody(env.render(seed)).None? {
      StepSkipsFailedFetch(env, hostname, maxLevel, s0);
      assert s1.queue == [];
    } else {
      StepRecordsPage(env, hostname, maxLevel, s0, env.getBody(env.render(seed)).value);
      assert env.render(seed) in s1.siteMap;
    }
  }

  /** With a level bound of 0 (or less) nothing but the seed is recorded. */
  lemma CrawlLevelZeroOnlySeed<U>(env: Env<U>, seed: U, maxLevel: int)
    requires maxLevel <= 0
    ensures CrawlFrom(env, seed, maxLevel).siteMap.Keys <= {env.render(seed)}
  {
    var r := CrawlFrom(env, seed, maxLevel);
    assert Levels(maxLevel, r) && Provenance(env, env.hostname(seed), env.render(seed), r) by {
      CrawlFromInv(env, seed, maxLevel);
    }
    forall k | k in r.siteMap ensures k == env.render(seed) {
      assert k in r.depth && LevelOk(maxLevel, r.depth[k]);
      assert Reached(env, env.hostname(seed), env.render(seed), r, k, r.depth[k]);
    }
  }

  /** Every key is the seed at level 0, or a host-filtered link of a key
      recorded one level higher up, with levels never beyond the bound. */
  lemma CrawlKeysAreReached<U>(env: Env<U>, seed: U, maxLevel: int)
    ensures var r := CrawlFrom(env, seed, maxLevel);
            forall k :: k in r.siteMap ==>
              && k in r.depth
              && LevelOk(maxLevel, r.depth[k])
              && (r.depth[k] == 0 ==> k == env.render(seed))
              && (r.depth[k] > 0 ==>
                    exists p :: p in r.siteMap && p in r.depth && r.depth[p] == r.depth[k] - 1
                                && k in Targets(env, env.hostname(seed), r.siteMap[p]))
  {
    var r := CrawlFrom(env, seed, maxLevel);
    assert Levels(maxLevel, r) && Provenance(env, env.hostname(seed), env.render(seed), r) by {
      CrawlFromInv(env, seed, maxLevel);
    }
    forall k | k in r.siteMap
      ensures Reached(env, env.hostname(seed), env.render(seed), r, k, r.depth[k])
    {
    }
  }

  /** Nothing reachable is lost: every host-filtered link of a key recorded
      below the level bound is itself a key, unless its fetch fails. */
  lemma CrawlIsComplete<U>(env: Env<U>, seed: U, maxLevel: int)
    ensures var r := CrawlFrom(env, seed, maxLevel);
            forall p, t :: p in r.siteMap && p in r.depth && r.depth[p] < maxLevel
                           && t in Targets(env, env.hostname(seed), r.siteMap[p])
                           ==> t in r.siteMap || env.getBody(t).None?
  {
    var r := CrawlFrom(env, seed, maxLevel);
    assert r.queue == [] && Expanded(env, env.hostname(seed), maxLevel, r) by {
      CrawlFromInv(env, seed, maxLevel);
    }
    assert Pending(env, r.queue) == [];
  }

  /** An address is requested again only after a failed request: a page
      that was fetched successfully is fetched exactly once. */
  lemma CrawlFetchesPagesOnce<U>(env: Env<U>, seed: U, maxLevel: int)
    ensures var r := CrawlFrom(env, seed, maxLevel);
            && (forall k :: k in r.siteMap ==> k in r.requests)
            && (forall i, j :: (0 <= i < |r.requests| && 0 <= j < |r.requests|
                                 && r.requests[i] == r.requests[j] && env.getBody(r.requests[i]).Some?)
                               ==> i == j)
  {
    var r := CrawlFrom(env, seed, maxLevel);
    assert RequestLog(env, r) by {
      CrawlFromInv(env, seed, maxLevel);
    }
  }
}
