# A verified model of the spinarago site crawler

spinarago is a small command-line web crawler. Starting from a seed address,
it builds a site map. The site map takes each page it fetched to the list of
links that page contains. The crawl is breadth-first and bounded by a level
(the number of hops from the seed). It follows only links whose host ends
with the seed's host. This project models the crawler's three core
operations and proves what they compute:

- `ParseHTML` (module `Html`) walks the token stream of an HTML body. It
  collects the `href` values of the anchor start tags, up to the first error
  token. Values that fail URL parsing are skipped.
- `FilterByHostname` (module `HostFilter`) keeps the URLs whose host ends
  with the target hostname. It uses the source's own length check and
  backward character comparison.
- `Crawl` (module `Crawler`) is the queue-and-map loop. Module `CrawlSpec`
  gives a reference definition of it as a state machine: `Step` is one loop
  iteration and `Run` repeats it. Module `CrawlInvariants` proves what the
  finished crawl satisfies.

Module `Scenarios` restates the repository's tests over the model and proves
their expected results.

The crawler's collaborators are foreign code. These are URL parsing, a URL's
host and its text form, the HTTP GET and the HTML tokenizer. The model
receives them as the function-typed fields of `CrawlSpec.Env`, over an
abstract URL type `U`. The tokenizer's output is a sequence of tokens, and
the end of that sequence is read as the end-of-input error token.

`ParseHtml`, `FilterByHostname` and `Crawl` are methods with the source's
own loops. Each is proved equal to a reference function (`Anchors`, `Filter`
and `CrawlFrom`), and the lemmas below state what those functions promise.
`Crawl`'s loop terminates without any finiteness assumption on the link
graph. Its measure (`CrawlSpec.QueueWork`) is an upper bound on the
remaining iterations, defined by recursion on the distance to the level
bound. It charges every queued item its whole subtree, including items
that will be skipped as already visited.

Two facts about the code shape the model:

- The site map records a page's full, unfiltered link list
  (crawler.go:166). Only the enqueued links are filtered
  (crawler.go:167-172).
- The host test is a plain character-suffix test (crawler.go:86-97), not a
  comparison by labels. So a URL on `notabc.com` is kept for `abc.com`.
  `HostFilter.NaiveSuffixKeepsLookalikeHost` states this.

## Model

| member | source | states |
|---|---|---|
| Html.ParseHtml | crawler.go:47-77 | The extractor's result is exactly `Anchors`: the parsed `href` values of the `<a>` start tags, in document order, before the first error token. |
| Html.AnchorHrefs | crawler.go:62-71 | The attribute loop of one anchor returns exactly the parsed values of its `href` attributes, in order, with the ones that fail to parse skipped. |
| Html.AnchorsAreParsedHrefTexts | crawler.go:58-71 | The extracted links are the `href` texts of the anchors, each passed through URL parsing, with the failures dropped. |
| Html.ParseFailureSkipsOnlyThatText | crawler.go:64-69 | An `href` that fails to parse is skipped without affecting the links before or after it. |
| Html.ParseEachAllSucceed | crawler.go:62-71 | When every text parses, the result has one URL per text, at the same position. |
| Html.AnchorsStopAtError | crawler.go:54-57 | Nothing after an error token contributes a link. |
| Html.AnchorsAppend | crawler.go:53-74 | The links of an error-free prefix followed by more tokens are the prefix's links followed by the rest's. |
| Html.NoAnchorsNoLinks | crawler.go:58-61 | A token stream with no `<a>` start tag yields no links. |
| Html.ParseEachAppend | crawler.go:62-71 | Parsing a list of texts distributes over concatenation. |
| Html.HrefsParseEach | crawler.go:62-71 | The links of one tag are its `href` texts, in attribute order, parsed with failures dropped. |
| HostFilter.FilterByHostname | crawler.go:81-104 | The source's loop, with its length check and backward comparison, returns exactly the URLs whose host ends with the hostname, in input order. |
| HostFilter.EndsWith | crawler.go:91-97 | For a host at least as long as the hostname, the backward comparison succeeds if and only if the hostname is a suffix of the host. |
| HostFilter.FilterMembership | crawler.go:84-100 | A URL is in the output if and only if it is in the input and its host ends with the hostname. |
| HostFilter.FilterIsSubsequence | crawler.go:82-103 | The output is a subsequence of the input: order is kept and nothing is added. |
| HostFilter.FilterAppend | crawler.go:84-101 | Filtering distributes over concatenation: each URL is judged on its own. |
| HostFilter.FilterKeepsAll | crawler.go:84-101 | The output equals the input if and only if every input URL passes the host test. |
| HostFilter.FilterShorter | crawler.go:82-103 | The output is never longer than the input. |
| HostFilter.EmptyHostnameKeepsAll | crawler.go:87-97 | With an empty target hostname every URL is kept. |
| HostFilter.FilterIdempotent | crawler.go:81-104 | Filtering an already filtered list changes nothing. |
| HostFilter.NaiveSuffixKeepsLookalikeHost | crawler.go:86-100 | The filter compares characters, not labels: a URL whose host is the look-alike `notabc.com` is kept when filtering for `abc.com`. |
| CrawlSpec.Step | crawler.go:139-173 | One iteration either leaves the site map's keys unchanged or adds exactly the dequeued address, which was not a key before. It never changes an existing entry. |
| CrawlSpec.StepShrinksWork | crawler.go:139-174 | Every iteration strictly decreases an upper bound on the remaining iterations, so the loop ends. |
| CrawlSpec.EnqueuePrefix | crawler.go:170-172 | Enqueuing the links one at a time builds the list of all of them, one level deeper, in order. |
| CrawlSpec.QueueWorkAppend | crawler.go:170-172 | The termination measure of a queue is the sum over its two halves. |
| CrawlSpec.QueueWorkEnqueue | crawler.go:169-173 | The measure of the enqueued links is exactly the share of their parent item's measure reserved for its children. |
| CrawlSpec.Run | crawler.go:139-174 | The loop runs until the queue is empty, and entries already in the site map are never changed. |
| Crawler.Crawl | crawler.go:123-177 | An unparsable seed is the only error. Otherwise the result is the reference crawl's site map. Every key is a fetched address mapped to its page's links. A non-empty map contains the seed. At level 0 the seed is the only possible key. |
| CrawlInvariants.CrawlRecordsFetchedPages | crawler.go:149-166 | Every key of the site map is an address whose fetch succeeded, mapped to the links extracted from that page. |
| CrawlInvariants.CrawlStartsAtSeed | crawler.go:135-153 | If the seed's fetch fails the site map is empty. Otherwise the seed is a key, recorded at level 0. |
| CrawlInvariants.CrawlLevelZeroOnlySeed | crawler.go:135-173 | With a level bound of 0 (or below), no address but the seed is ever recorded. |
| CrawlInvariants.CrawlKeysAreReached | crawler.go:166-173 | Every key has a level within the bound. A level-0 key is the seed. Any other key is a host-filtered link of a key recorded one level higher up. |
| CrawlInvariants.CrawlIsComplete | crawler.go:139-173 | Every host-filtered link of a key recorded below the level bound is itself a key, unless fetching it fails. |
| CrawlInvariants.CrawlFetchesPagesOnce | crawler.go:145-153 | Every key was requested. An address whose fetch succeeds is requested exactly once, however often it is enqueued. |
| CrawlInvariants.StepKeepsInv | crawler.go:139-173 | One iteration preserves the crawl invariant: fetched pages, levels, provenance, seed first, expansion and the request log. |
| CrawlInvariants.RunKeepsInv | crawler.go:139-174 | The whole loop preserves the crawl invariant. |
| CrawlInvariants.InitialInv | crawler.go:135-137 | The initial queue holding only the seed at level 0, with an empty map, satisfies the invariant. |
| Scenarios.ParseHtmlIndex0 | crawler_test.go:130-135 | The one-link page yields its single link. |
| Scenarios.ParseHtmlIndex1 | crawler_test.go:136-143 | The three-link page yields its three links in order. |
| Scenarios.ParseHtmlIndex2 | crawler_test.go:144-147 | The page without anchors yields no links. |
| Scenarios.ParseHtmlIndex3 | crawler_test.go:148-156 | Text paragraphs contribute nothing, and a link to another host is still extracted. |
| Scenarios.FilterScenario | crawler_test.go:173-196 | For `abc.com`, the two `abc.com` addresses are kept in order, and the `def.com` address and the empty address are dropped. |
| Scenarios.CrawlScenario | crawler_test.go:198-237 | With level 3 the crawl of the test site gives the expected four entries. The cycle back to `abc` is not fetched again. `jkl` is not a key. The requests are exactly the four pages, in breadth-first order. |

## Left out

- The HTTP GET is the function `getBody`, so fetching is deterministic. A
  failed address is requested again each time it is dequeued, which is what
  the code does when a server keeps failing. Transient failures, timeouts and
  response status codes are not modelled. `GetBody` itself is not part of
  this model.
- The inter-request delay (`time.Sleep`) is left out, and so is the `delay`
  parameter: it affects timing only.
- Verbose logging is left out, and so is the `verbose` parameter. The level
  that sets the log line's indent is kept as the ghost `depth` map. The
  other log lines for fetch and URL-parse errors are left out too.
- `PrettyPrint` is left out. It is JSON output, and its order follows Go's
  random map iteration.
- `main.go` (flag parsing and the call to `Crawl`) is not part of this model.
- The HTML tokenizer and the URL library are foreign code. The model takes
  their results as parameters: a token sequence, `parse`, `hostname` and
  `render`. Their own behaviour is not modelled. This covers entity
  decoding, attribute-name lowercasing, and what counts as a parse error.
- A self-closing `<a .../>` is a different token kind. The
  source ignores it, and so does the model.
- Go strings are byte strings. The model compares `char` sequences, which
  agree with byte-wise comparison for the ASCII hostnames involved.
- Scenarios: the crawl and filter tests use strings as URLs, with a fixed
  table of hosts. They model the tests' expected results, not the `*url.URL`
  values. The Go tests compare `*url.URL` values with strings
  (crawler_test.go:166, crawler_test.go:186), so as written they do not
  type-check against the current code.
