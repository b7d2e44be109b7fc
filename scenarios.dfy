/** The scenarios of the repository's tests, stated over the model. URLs
    are plain strings here (`U` is `string`): parsing always succeeds, a
    URL's text form is itself, and the host of each test address is given
    by a table. Page bodies are stood in for by their names, and each name
    is tokenized into the tokens of the corresponding test page. */
module Scenarios {
  import opened Wrappers
  import opened Html
  import opened HostFilter
  import opened CrawlSpec

  function ParseAny(s: string): Option<string> {
    Some(s)
  }

  function Tag(name: string): Token {
    StartTagToken(name, [])
  }

  function Link(href: string): Token {
    StartTagToken("a", [Attribute("href", href)])
  }

  const Abc := "http://localhost:8080/abc.html"
  const Def := "http://localhost:8080/def.html"
  const Ghi := "http://localhost:8080/ghi.html"
  const Jkl := "http://localhost:8080/jkl.html"
  const Root := "http://localhost:8080"

  /** A page with a title and one paragraph per given token. */
  function Page(paragraphs: seq<Token>): seq<Token> {
    PageHead() + paragraphs + PageTail()
  }

  /** The tokens before the paragraphs: html, title and its text, body. */
  function PageHead(): seq<Token> {
    [Tag("html"), Tag("title"), OtherToken, OtherToken, Tag("body")]
  }

  /** The closing tags and the end of input. */
  function PageTail(): seq<Token> {
    [OtherToken, OtherToken, ErrorToken]
  }

  /** A paragraph holding one link. */
  function LinkParagraph(href: string): seq<Token> {
    [Tag("p"), Link(href), OtherToken, OtherToken, OtherToken]
  }

  /** A paragraph holding only text. */
  function TextParagraph(): seq<Token> {
    [Tag("p"), OtherToken, OtherToken]
  }

  /** The `index0` ... `index3` documents of the link-extraction test. */
  function Index0(): seq<Token> {
    Page(LinkParagraph(Abc))
  }

  /** Three paragraphs linking to abc, def and ghi. */
  function ThreeLinks(): seq<Token> {
    LinkParagraph(Abc) + LinkParagraph(Def) + LinkParagraph(Ghi)
  }

  function Index1(): seq<Token> {
    Page(ThreeLinks())
  }

  function Index2(): seq<Token> {
    Page([])
  }

  function Index3(): seq<Token> {
    Page(TextParagraph() + TextParagraph() + ThreeLinks() + LinkParagraph("http://abc.com/ghi.html"))
  }

  predicate ErrorFree(toks: seq<Token>) {
    forall i :: 0 <= i < |toks| ==> !toks[i].ErrorToken?
  }

  lemma LinkParagraphAnchors(href: string)
    ensures ErrorFree(LinkParagraph(href))
    ensures Anchors(ParseAny, LinkParagraph(href)) == [href]
  {
    var t := LinkParagraph(href);
    assert t[1..][1..] == [OtherToken, OtherToken, OtherToken];
    assert Anchors(ParseAny, [OtherToken, OtherToken, OtherToken]) == [];
    assert Hrefs(ParseAny, Link(href).attrs) == [href];
  }

  lemma TextParagraphAnchors()
    ensures ErrorFree(TextParagraph())
    ensures Anchors(ParseAny, TextParagraph()) == []
  {
    NoAnchorsNoLinks(ParseAny, TextParagraph());
  }

  lemma PageHeadAnchors()
    ensures ErrorFree(PageHead())
    ensures Anchors(ParseAny, PageHead()) == []
  {
    NoAnchorsNoLinks(ParseAny, PageHead());
  }

  lemma PageTailAnchors()
    ensures Anchors(ParseAny, PageTail()) == []
  {
    var t := PageTail();
    assert t[1..][1..][0].ErrorToken?;
  }

  /** The page frame around the paragraphs contributes no links. */
  lemma PageAnchors(paragraphs: seq<Token>)
    requires ErrorFree(paragraphs)
    ensures Anchors(ParseAny, Page(paragraphs)) == Anchors(ParseAny, paragraphs)
  {
    PageHeadAnchors();
    PageTailAnchors();
    AnchorsAppend(ParseAny, PageHead(), paragraphs + PageTail());
    AnchorsAppend(ParseAny, paragraphs, PageTail());
    assert Page(paragraphs) == PageHead() + (paragraphs + PageTail());
  }

  lemma TwoParagraphs(a: seq<Token>, b: seq<Token>)
    requires ErrorFree(a) && ErrorFree(b)
    ensures ErrorFree(a + b)
    ensures Anchors(ParseAny, a + b) == Anchors(ParseAny, a) + Anchors(ParseAny, b)
  {
    AnchorsAppend(ParseAny, a, b);
  }

  /** The link-extraction test, `index0`: one anchor. */
  lemma ParseHtmlIndex0()
    ensures Anchors(ParseAny, Index0()) == [Abc]
  {
    LinkParagraphAnchors(Abc);
    PageAnchors(LinkParagraph(Abc));
  }

  lemma ThreeLinksAnchors()
    ensures ErrorFree(ThreeLinks())
    ensures Anchors(ParseAny, ThreeLinks()) == [Abc, Def, Ghi]
  {
    var pa, pd, pg := LinkParagraph(Abc), LinkParagraph(Def), LinkParagraph(Ghi);
    LinkParagraphAnchors(Abc);
    LinkParagraphAnchors(Def);
    LinkParagraphAnchors(Ghi);
    TwoParagraphs(pa, pd);
    TwoParagraphs(pa + pd, pg);
  }

  /** `index1`: three anchors, in document order. */
  lemma ParseHtmlIndex1()
    ensures Anchors(ParseAny, Index1()) == [Abc, Def, Ghi]
  {
    ThreeLinksAnchors();
    PageAnchors(ThreeLinks());
  }

  /** `index2`: no anchors, no links. */
  lemma ParseHtmlIndex2()
    ensures Anchors(ParseAny, Index2()) == []
  {
    PageAnchors([]);
  }

  /** `index3`: addresses in plain text are not links; an anchor to another
      host is still extracted. */
  lemma ParseHtmlIndex3()
    ensures Anchors(ParseAny, Index3()) == [Abc, Def, Ghi, "http://abc.com/ghi.html"]
  {
    var px := LinkParagraph("http://abc.com/ghi.html");
    var tt := TextParagraph() + TextParagraph();
    ThreeLinksAnchors();
    LinkParagraphAnchors("http://abc.com/ghi.html");
    TextParagraphAnchors();
    TwoParagraphs(TextParagraph(), TextParagraph());
    TwoParagraphs(tt, ThreeLinks());
    TwoParagraphs(tt + ThreeLinks(), px);
    PageAnchors(tt + ThreeLinks() + px);
  }

  /** The host of each address used by the tests, as the URL library
      reports it; other strings have no host. */
  function TestHost(u: string): string {
    if u == Root || u == Abc || u == Def || u == Ghi || u == Jkl then "localhost"
    else if u == "//abc.com/index.html" || u == "//abc.com/blablabla.html" then "abc.com"
    else if u == "//def.com/index.html" then "def.com"
    else ""
  }

  lemma TestHostOfFilterInput()
    ensures TestHost("//abc.com/index.html") == "abc.com"
    ensures TestHost("//abc.com/blablabla.html") == "abc.com"
    ensures TestHost("//def.com/index.html") == "def.com"
    ensures TestHost("") == ""
  {
  }

  /** The host-filter test: hosts equal to the target are kept, in order;
      another host and the empty address are dropped. */
  lemma FilterScenario()
    ensures Filter(TestHost, "abc.com",
                   ["//abc.com/index.html", "//abc.com/blablabla.html", "//def.com/index.html", ""])
            == ["//abc.com/index.html", "//abc.com/blablabla.html"]
  {
    var input := ["//abc.com/index.html", "//abc.com/blablabla.html", "//def.com/index.html", ""];
    TestHostOfFilterInput();
    assert IsSuffix("abc.com", "abc.com") by {
      assert "abc.com"[0..] == "abc.com";
    }
    assert !IsSuffix("abc.com", "def.com") by {
      assert "def.com"[0] != "abc.com"[0];
    }
    assert !IsSuffix("abc.com", "");
    assert input[1..] == ["//abc.com/blablabla.html", "//def.com/index.html", ""];
    assert input[1..][1..] == ["//def.com/index.html", ""];
    assert input[1..][1..][1..] == [""];
    assert [""][1..] == [];
    assert Filter(TestHost, "abc.com", [""]) == [];
    assert Filter(TestHost, "abc.com", input[1..][1..]) == [];
  }

  /** The bodies the test server serves, named by page. */
  function TestBody(url: string): Option<string> {
    if url == Root then Some("home")
    else if url == Abc then Some("abc")
    else if url == Def then Some("def")
    else if url == Ghi then Some("ghi")
    else if url == Jkl then Some("jkl")
    else None
  }

  /** The tokens of each test page. */
  function TestTokens(body: string): seq<Token> {
    if body == "home" then Page(LinkParagraph(Abc))
    else if body == "abc" then Page(LinkParagraph(Def))
    else if body == "def" then Page(LinkParagraph(Abc) + LinkParagraph(Ghi))
    else if body == "ghi" then Page(LinkParagraph(Jkl))
    else Page([])
  }

  function TestEnv(): Env<string> {
    Env(ParseAny, TestHost, (u: string) => u, TestBody, TestTokens)
  }

  lemma TestPageHome()
    ensures PageLinks(TestEnv(), "home") == [Abc]
  {
    LinkParagraphAnchors(Abc);
    PageAnchors(LinkParagraph(Abc));
  }

  lemma TestPageAbc()
    ensures PageLinks(TestEnv(), "abc") == [Def]
  {
    LinkParagraphAnchors(Def);
    PageAnchors(LinkParagraph(Def));
  }

  lemma TestPageDef()
    ensures PageLinks(TestEnv(), "def") == [Abc, Ghi]
  {
    LinkParagraphAnchors(Abc);
    LinkParagraphAnchors(Ghi);
    TwoParagraphs(LinkParagraph(Abc), LinkParagraph(Ghi));
    PageAnchors(LinkParagraph(Abc) + LinkParagraph(Ghi));
  }

  lemma TestPageGhi()
    ensures PageLinks(TestEnv(), "ghi") == [Jkl]
  {
    LinkParagraphAnchors(Jkl);
    PageAnchors(LinkParagraph(Jkl));
  }

  /** Every address of the test site is on host "localhost" and is kept. */
  lemma TestSiteKept(u: string)
    requires u == Abc || u == Def || u == Ghi
    ensures Outlinks(TestEnv(), "localhost", [u]) == [u]
  {
    assert TestEnv().hostname(u) == TestHost(u) == "localhost";
    assert Keeps(TestHost, "localhost", u);
    assert [u][1..] == [];
    assert Filter(TestHost, "localhost", [u]) == [u] + Filter(TestHost, "localhost", []);
    assert IsSuffix("localhost", "localhost") by {
      assert "localhost"[0..] == "localhost";
    }
  }

  lemma TestOutlinksDef()
    ensures Outlinks(TestEnv(), "localhost", [Abc, Ghi]) == [Abc, Ghi]
  {
    TestSiteKept(Abc);
    TestSiteKept(Ghi);
    FilterAppend(TestHost, "localhost", [Abc], [Ghi]);
    assert [Abc] + [Ghi] == [Abc, Ghi];
  }

  /** The states the crawl of the test site passes through. */
  function S1(): State<string> {
    State([Item(Abc, 1)], map[Root := [Abc]], map[Root := 0], [Root])
  }

  function S2(): State<string> {
    State([Item(Def, 2)], S1().siteMap[Abc := [Def]], S1().depth[Abc := 1], [Root, Abc])
  }

  function S3(): State<string> {
    State([Item(Abc, 3), Item(Ghi, 3)], S2().siteMap[Def := [Abc, Ghi]], S2().depth[Def := 2], [Root, Abc, Def])
  }

  function S4(): State<string> {
    S3().(queue := [Item(Ghi, 3)])
  }

  function S5(): State<string> {
    State([], S4().siteMap[Ghi := [Jkl]], S4().depth[Ghi := 3], [Root, Abc, Def, Ghi])
  }

  lemma TestBodies()
    ensures TestBody(Root) == Some("home")
    ensures TestBody(Abc) == Some("abc")
    ensures TestBody(Def) == Some("def")
    ensures TestBody(Ghi) == Some("ghi")
  {
  }

  lemma CrawlStep1()
    ensures Step(TestEnv(), "localhost", 3, Initial(Root)) == S1()
  {
    TestBodies();
    TestPageHome();
    TestSiteKept(Abc);
    var s := Initial(Root);
    assert s.queue[0] == Item(Root, 0) && s.queue[1..] == [];
    assert TestEnv().render(Root) == Root && Root !in s.siteMap;
    assert TestEnv().getBody(Root) == Some("home");
    StepRecordsPage(TestEnv(), "localhost", 3, s, "home");
    assert Enqueue([Abc], 1) == [Item(Abc, 1)];
    assert [] + [Item(Abc, 1)] == [Item(Abc, 1)];
  }

  /** The test site's addresses are pairwise distinct. */
  lemma TestAddressesDistinct()
    ensures Root != Abc && Root != Def && Root != Ghi
    ensures Abc != Def && Abc != Ghi && Def != Ghi
  {
    assert |Root| < |Abc| && |Abc| == |Def| == |Ghi|;
    assert Abc[22] != Def[22] && Abc[22] != Ghi[22] && Def[22] != Ghi[22];
  }

  lemma CrawlStep2()
    ensures Step(TestEnv(), "localhost", 3, S1()) == S2()
  {
    TestAddressesDistinct();
    TestBodies();
    TestPageAbc();
    TestSiteKept(Def);
    var s := S1();
    assert s.queue[0] == Item(Abc, 1) && s.queue[1..] == [];
    assert TestEnv().render(Abc) == Abc && Abc !in s.siteMap;
    assert TestEnv().getBody(Abc) == Some("abc");
    StepRecordsPage(TestEnv(), "localhost", 3, s, "abc");
    assert Enqueue([Def], 2) == [Item(Def, 2)];
    assert [] + [Item(Def, 2)] == [Item(Def, 2)];
  }

  lemma CrawlStep3()
    ensures Step(TestEnv(), "localhost", 3, S2()) == S3()
  {
    TestAddressesDistinct();
    TestBodies();
    TestPageDef();
    TestOutlinksDef();
    var s := S2();
    assert s.queue[0] == Item(Def, 2) && s.queue[1..] == [];
    assert TestEnv().render(Def) == Def && Def !in s.siteMap;
    assert TestEnv().getBody(Def) == Some("def");
    StepRecordsPage(TestEnv(), "localhost", 3, s, "def");
    assert Enqueue([Abc, Ghi], 3) == [Item(Abc, 3), Item(Ghi, 3)];
    assert [] + [Item(Abc, 3), Item(Ghi, 3)] == [Item(Abc, 3), Item(Ghi, 3)];
  }

  lemma CrawlStep4()
    ensures Step(TestEnv(), "localhost", 3, S3()) == S4()
  {
    var s := S3();
    assert s.queue[0] == Item(Abc, 3) && s.queue[1..] == [Item(Ghi, 3)];
    assert TestEnv().render(Abc) == Abc && Abc in s.siteMap;
    StepSkipsVisited(TestEnv(), "localhost", 3, s);
  }

  lemma CrawlStep5()
    ensures Step(TestEnv(), "localhost", 3, S4()) == S5()
  {
    TestAddressesDistinct();
    TestBodies();
    TestPageGhi();
    var s := S4();
    assert s.queue[0] == Item(Ghi, 3) && s.queue[1..] == [];
    assert TestEnv().render(Ghi) == Ghi && Ghi !in s.siteMap;
    assert TestEnv().getBody(Ghi) == Some("ghi");
    StepRecordsPage(TestEnv(), "localhost", 3, s, "ghi");
  }

  /** The test crawl runs through the five states above and stops. */
  lemma CrawlScenarioRun()
    ensures CrawlFrom(TestEnv(), Root, 3) == S5()
  {
    var env := TestEnv();
    assert env.hostname(Root) == "localhost";
    assert Run(env, "localhost", 3, S5()) == S5();
    CrawlStep5();
    RunStep(env, "localhost", 3, S4());
    CrawlStep4();
    RunStep(env, "localhost", 3, S3());
    CrawlStep3();
    RunStep(env, "localhost", 3, S2());
    CrawlStep2();
    RunStep(env, "localhost", 3, S1());
    CrawlStep1();
    RunStep(env, "localhost", 3, Initial(Root));
  }

  /** The crawl test: from the root with level bound 3 the site map has the
      root, abc, def and ghi as keys; the cycle back to abc is not followed
      again, and jkl, four hops away, is linked but not a key. Each page is
      requested once. */
  lemma CrawlScenario()
    ensures CrawlFrom(TestEnv(), Root, 3).siteMap
            == map[Root := [Abc], Abc := [Def], Def := [Abc, Ghi], Ghi := [Jkl]]
    ensures Jkl !in CrawlFrom(TestEnv(), Root, 3).siteMap
    ensures CrawlFrom(TestEnv(), Root, 3).requests == [Root, Abc, Def, Ghi]
  {
    CrawlScenarioRun();
  }

}
