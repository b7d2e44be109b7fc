/** The breadth-first crawl as a state machine: a FIFO queue of
    (URL, level) items and a site map from each fetched address to the links
    its page contains. One `Step` handles the head of the queue exactly as
    one iteration of the crawl loop does; `Run` repeats it until the queue is
    empty. */
module CrawlSpec {
  import opened Wrappers
  import opened Html
  import opened HostFilter

  /** The foreign collaborators of the crawl, over an opaque URL type `U`:
      URL parsing, the host part and the text form of a parsed URL, the HTTP
      GET of a page body (`None` for any transport or read error), and the
      HTML tokenizer. */
  datatype Env<!U> = Env(
    parse: string -> Option<U>,
    hostname: U -> string,
    render: U -> string,
    getBody: string -> Option<string>,
    tokenize: string -> seq<Token>)

  /** A frontier item: a URL and its distance in hops from the seed. */
  datatype Item<U> = Item(url: U, level: int)

  /** The crawl's state. `queue` and `siteMap` are the loop's variables;
      `depth` holds the level each address was recorded at (the indent of
      the verbose log line) and `requests` the addresses passed to the HTTP
      GET, in order. */
  datatype State<U> = State(
    queue: seq<Item<U>>,
    siteMap: map<string, seq<U>>,
    depth: map<string, int>,
    requests: seq<string>)

  function Initial<U>(seed: U): State<U> {
    State([Item(seed, 0)], map[], map[], [])
  }

  /** What ParseHTML returns for a page body. */
  function PageLinks<U>(env: Env<U>, body: string): seq<U> {
    Anchors(env.parse, env.tokenize(body))
  }

  /** The links of a page that the crawl follows. */
  function Outlinks<U>(env: Env<U>, hostname: string, urls: seq<U>): seq<U> {
    Filter(env.hostname, hostname, urls)
  }

  /** The addresses of the links the crawl follows. */
  function Targets<U>(env: Env<U>, hostname: string, urls: seq<U>): seq<string> {
    var out := Outlinks(env, hostname, urls);
    seq(|out|, i requires 0 <= i < |out| => env.render(out[i]))
  }

  /** The addresses of the queued items, front first. */
  function Pending<U>(env: Env<U>, queue: seq<Item<U>>): seq<string> {
    seq(|queue|, i requires 0 <= i < |queue| => env.render(queue[i].url))
  }

  function Enqueue<U>(links: seq<U>, level: int): seq<Item<U>> {
    seq(|links|, i requires 0 <= i < |links| => Item(links[i], level))
  }

  lemma EnqueuePrefix<U>(links: seq<U>, k: nat, level: int)
    requires k < |links|
    ensures Enqueue(links[..k + 1], level) == Enqueue(links[..k], level) + [Item(links[k], level)]
  {
  }

  /** One iteration of the crawl loop: pop the head; skip it if its address
      is already a key; otherwise fetch it, skip it if the fetch failed, and
      else record the page's full link list and, below the level bound,
      append its host-filtered links one level deeper. */
  function Step<U>(env: Env<U>, hostname: string, maxLevel: int, s: State<U>): (r: State<U>)
    requires s.queue != []
    ensures r.siteMap.Keys == s.siteMap.Keys
            || (env.render(s.queue[0].url) !in s.siteMap
                && r.siteMap.Keys == s.siteMap.Keys + {env.render(s.queue[0].url)})
    ensures forall k :: k in s.siteMap ==> k in r.siteMap && r.siteMap[k] == s.siteMap[k]
  {
    var item := s.queue[0];
    var rest := s.queue[1..];
    var cur := env.render(item.url);
    if cur in s.siteMap then s.(queue := rest)
    else
      var fetched := env.getBody(cur);
      var requests := s.requests + [cur];
      if fetched.None? then s.(queue := rest, requests := requests)
      else
        var urls := PageLinks(env, fetched.value);
        var filtered := Outlinks(env, hostname, urls);
        State(if item.level < maxLevel then rest + Enqueue(filtered, item.level + 1) else rest,
              s.siteMap[cur := urls], s.depth[cur := item.level], requests)
  }

  /** The three outcomes of a step, one lemma each. */
  lemma StepSkipsVisited<U>(env: Env<U>, hostname: string, maxLevel: int, s: State<U>)
    requires s.queue != [] && env.render(s.queue[0].url) in s.siteMap
    ensures Step(env, hostname, maxLevel, s) == s.(queue := s.queue[1..])
  {
  }

  lemma StepSkipsFailedFetch<U>(env: Env<U>, hostname: string, maxLevel: int, s: State<U>)
    requires s.queue != [] && env.render(s.queue[0].url) !in s.siteMap
    requires env.getBody(env.render(s.queue[0].url)).None?
    ensures Step(env, hostname, maxLevel, s)
            == s.(queue := s.queue[1..], requests := s.requests + [env.render(s.queue[0].url)])
  {
  }

  lemma StepRecordsPage<U>(env: Env<U>, hostname: string, maxLevel: int, s: State<U>, body: string)
    requires s.queue != [] && env.render(s.queue[0].url) !in s.siteMap
    requires env.getBody(env.render(s.queue[0].url)) == Some(body)
    ensures var item := s.queue[0];
            var cur := env.render(item.url);
            var urls := PageLinks(env, body);
            Step(env, hostname, maxLevel, s)
            == State(if item.level < maxLevel
                     then s.queue[1..] + Enqueue(Outlinks(env, hostname, urls), item.level + 1)
                     else s.queue[1..],
                     s.siteMap[cur := urls], s.depth[cur := item.level], s.requests + [cur])
  {
  }

  /** A step leaves the outcome of the run unchanged and shrinks the work. */
  lemma RunStep<U>(env: Env<U>, hostname: string, maxLevel: int, s: State<U>)
    requires s.queue != []
    ensures Run(env, hostname, maxLevel, Step(env, hostname, maxLevel, s)) == Run(env, hostname, maxLevel, s)
    ensures QueueWork(env, hostname, maxLevel, Step(env, hostname, maxLevel, s).queue)
            < QueueWork(env, hostname, maxLevel, s.queue)
  {
    StepShrinksWork(env, hostname, maxLevel, s);
  }

  /** How many loop iterations an item can still cause: itself, plus, when
      it is fetched and below the level bound, the work of the items it
      enqueues. Defined by recursion on the distance to the level bound, so
      no finiteness of the link graph is needed. */
  ghost function Work<U>(env: Env<U>, hostname: string, maxLevel: int, u: U, level: int): nat
    decreases maxLevel - level, 0, 0
  {
    if level >= maxLevel then 1
    else match env.getBody(env.render(u))
      case None => 1
      case Some(body) =>
        1 + ChildrenWork(env, hostname, maxLevel, Outlinks(env, hostname, PageLinks(env, body)), level + 1)
  }

  ghost function ChildrenWork<U>(env: Env<U>, hostname: string, maxLevel: int, links: seq<U>, level: int): nat
    decreases maxLevel - level, 1, |links|
  {
    if links == [] then 0
    else Work(env, hostname, maxLevel, links[0], level) + ChildrenWork(env, hostname, maxLevel, links[1..], level)
  }

  ghost function QueueWork<U>(env: Env<U>, hostname: string, maxLevel: int, queue: seq<Item<U>>): nat
  {
    if queue == [] then 0
    else Work(env, hostname, maxLevel, queue[0].url, queue[0].level)
         + QueueWork(env, hostname, maxLevel, queue[1..])
  }

  lemma {:induction false} QueueWorkAppend<U>(env: Env<U>, hostname: string, maxLevel: int, a: seq<Item<U>>, b: seq<Item<U>>)
    ensures QueueWork(env, hostname, maxLevel, a + b)
            == QueueWork(env, hostname, maxLevel, a) + QueueWork(env, hostname, maxLevel, b)
  {
    if a == [] {
      assert a + b == b;
    } else {
      assert (a + b)[1..] == a[1..] + b;
      QueueWorkAppend(env, hostname, maxLevel, a[1..], b);
    }
  }

  lemma {:induction false} QueueWorkEnqueue<U>(env: Env<U>, hostname: string, maxLevel: int, links: seq<U>, level: int)
    ensures QueueWork(env, hostname, maxLevel, Enqueue(links, level))
            == ChildrenWork(env, hostname, maxLevel, links, level)
  {
    if links != [] {
      assert Enqueue(links, level)[1..] == Enqueue(links[1..], level);
      QueueWorkEnqueue(env, hostname, maxLevel, links[1..], level);
    }
  }

  /** Every step strictly decreases the termination measure of the queue. */
  lemma StepShrinksWork<U>(env: Env<U>, hostname: string, maxLevel: int, s: State<U>)
    requires s.queue != []
    ensures QueueWork(env, hostname, maxLevel, Step(env, hostname, maxLevel, s).queue)
            < QueueWork(env, hostname, maxLevel, s.queue)
  {
    var item := s.queue[0];
    var cur := env.render(item.url);
    if cur !in s.siteMap && env.getBody(cur).Some? && item.level < maxLevel {
      var filtered := Outlinks(env, hostname, PageLinks(env, env.getBody(cur).value));
      QueueWorkAppend(env, hostname, maxLevel, s.queue[1..], Enqueue(filtered, item.level + 1));
      QueueWorkEnqueue(env, hostname, maxLevel, filtered, item.level + 1);
    }
  }

  /** The crawl loop run until the queue is empty. Entries already in the
      site map are kept unchanged. */
  function Run<U>(env: Env<U>, hostname: string, maxLevel: int, s: State<U>): (r: State<U>)
    ensures r.queue == []
    ensures forall k :: k in s.siteMap ==> k in r.siteMap && r.siteMap[k] == s.siteMap[k]
    decreases QueueWork(env, hostname, maxLevel, s.queue)
  {
    if s.queue == [] then s
    else
      StepShrinksWork(env, hostname, maxLevel, s);
      Run(env, hostname, maxLevel, Step(env, hostname, maxLevel, s))
  }

  /** The crawl from a parsed seed: the host filter is the seed's host. */
  function CrawlFrom<U>(env: Env<U>, seed: U, maxLevel: int): State<U> {
    Run(env, env.hostname(seed), maxLevel, Initial(seed))
  }
}
