/** Link extraction: the anchor `href` values of an HTML token stream.

    The HTML tokenizer is a foreign library; the model receives its output as
    a sequence of tokens. The tokenizer reports EOF and every parse failure
    as an error token, so the end of the sequence is read as one too. URL
    parsing is another foreign call, passed in as `parse`. */
module Html {
  import opened Wrappers

  datatype Attribute = Attribute(key: string, val: string)

  /** The token kinds the extractor distinguishes. End tags, text, comments
      and doctypes are all `OtherToken`: the extractor ignores them. */
  datatype Token =
    | ErrorToken
    | StartTagToken(name: string, attrs: seq<Attribute>)
    | SelfClosingTagToken(name: string, attrs: seq<Attribute>)
    | OtherToken

  /** True of the tokens whose attributes the extractor reads: `<a ...>`
      start tags. A self-closing `<a .../>` is a different token kind. */
  predicate IsAnchor(t: Token) {
    t.StartTagToken? && t.name == "a"
  }

  /** The parsed values of the `href` attributes in `attrs`, in order;
      values that fail to parse are skipped. */
  function Hrefs<U>(parse: string -> Option<U>, attrs: seq<Attribute>): seq<U>
  {
    if attrs == [] then []
    else
      var rest := Hrefs(parse, attrs[1..]);
      if attrs[0].key == "href" && parse(attrs[0].val).Some?
      then [parse(attrs[0].val).value] + rest
      else rest
  }

  /** Reference definition of what the extractor returns for a token stream:
      the hrefs of every anchor start tag up to the first error token. */
  function Anchors<U>(parse: string -> Option<U>, toks: seq<Token>): seq<U>
  {
    if toks == [] || toks[0].ErrorToken? then []
    else (if IsAnchor(toks[0]) then Hrefs(parse, toks[0].attrs) else [])
         + Anchors(parse, toks[1..])
  }

  /** The raw text of every `href` attribute of every anchor start tag before
      the first error token, in document order, without URL parsing. */
  function HrefTexts(toks: seq<Token>): seq<string>
  {
    if toks == [] || toks[0].ErrorToken? then []
    else (if IsAnchor(toks[0]) then HrefTextsOf(toks[0].attrs) else [])
         + HrefTexts(toks[1..])
  }

  function HrefTextsOf(attrs: seq<Attribute>): seq<string>
  {
    if attrs == [] then []
    else (if attrs[0].key == "href" then [attrs[0].val] else []) + HrefTextsOf(attrs[1..])
  }

  /** Parses each text in turn, keeping the successes in order. */
  function ParseEach<U>(parse: string -> Option<U>, texts: seq<string>): seq<U>
  {
    if texts == [] then []
    else (if parse(texts[0]).Some? then [parse(texts[0]).value] else [])
         + ParseEach(parse, texts[1..])
  }

  /** ParseHTML: walks the tokens until the first error token and appends
      the parsed `href` values of `a` start tags to the result. */
  method ParseHtml<U>(parse: string -> Option<U>, toks: seq<Token>) returns (result: seq<U>)
    ensures result == Anchors(parse, toks)
  {
    result := [];
    var i := 0;
    while i < |toks|
      invariant 0 <= i <= |toks|
      invariant result + Anchors(parse, toks[i..]) == Anchors(parse, toks)
    {
      var tt := toks[i];
      AnchorsFrom(parse, toks, i);
      if tt.ErrorToken? {
        break;
      }
      ghost var rest := Anchors(parse, toks[i + 1..]);
      if tt.StartTagToken? && tt.name == "a" {
        var hrefs := AnchorHrefs(parse, tt.attrs);
        assert (result + hrefs) + rest == result + (hrefs + rest);
        result := result + hrefs;
      } else {
        assert Anchors(parse, toks[i..]) == [] + rest == rest;
      }
      assert result + rest == Anchors(parse, toks);
      i := i + 1;
    }
  }

  /** Unfolds `Anchors` once, at position `i` of the token stream. */
  lemma AnchorsFrom<U>(parse: string -> Option<U>, toks: seq<Token>, i: int)
    requires 0 <= i < |toks|
    ensures Anchors(parse, toks[i..])
            == if toks[i].ErrorToken? then []
               else (if IsAnchor(toks[i]) then Hrefs(parse, toks[i].attrs) else [])
                    + Anchors(parse, toks[i + 1..])
  {
    assert toks[i..][0] == toks[i];
    assert toks[i..][1..] == toks[i + 1..];
  }

  /** The attribute loop of ParseHTML for one anchor: the parsed values of
      its `href` attributes, in order, skipping those that fail to parse. */
  method AnchorHrefs<U>(parse: string -> Option<U>, attrs: seq<Attribute>) returns (hrefs: seq<U>)
    ensures hrefs == Hrefs(parse, attrs)
  {
    hrefs := [];
    var j := 0;
    while j < |attrs|
      invariant 0 <= j <= |attrs|
      invariant hrefs + Hrefs(parse, attrs[j..]) == Hrefs(parse, attrs)
    {
      var attr := attrs[j];
      assert attrs[j..][1..] == attrs[j + 1..];
      if attr.key == "href" {
        var u := parse(attr.val);
        if u.Some? {
          hrefs := hrefs + [u.value];
        }
      }
      j := j + 1;
    }
  }

  lemma {:induction false} ParseEachAppend<U>(parse: string -> Option<U>, a: seq<string>, b: seq<string>)
    ensures ParseEach(parse, a + b) == ParseEach(parse, a) + ParseEach(parse, b)
  {
    if a == [] {
      assert a + b == b;
    } else {
      assert (a + b)[1..] == a[1..] + b;
      ParseEachAppend(parse, a[1..], b);
      var head := if parse(a[0]).Some? then [parse(a[0]).value] else [];
      calc {
        ParseEach(parse, a + b);
        head + ParseEach(parse, a[1..] + b);
        head + (ParseEach(parse, a[1..]) + ParseEach(parse, b));
        (head + ParseEach(parse, a[1..])) + ParseEach(parse, b);
      }
    }
  }

  lemma {:induction false} HrefsParseEach<U>(parse: string -> Option<U>, attrs: seq<Attribute>)
    ensures Hrefs(parse, attrs) == ParseEach(parse, HrefTextsOf(attrs))
  {
    if attrs != [] {
      var head := if attrs[0].key == "href" then [attrs[0].val] else [];
      HrefsParseEach(parse, attrs[1..]);
      ParseEachAppend(parse, head, HrefTextsOf(attrs[1..]));
    }
  }

  /** The extractor's output is exactly the raw anchor href texts, in
      document order and with duplicates, each run through URL parsing,
      with the texts that fail to parse left out. */
  lemma {:induction false} AnchorsAreParsedHrefTexts<U>(parse: string -> Option<U>, toks: seq<Token>)
    ensures Anchors(parse, toks) == ParseEach(parse, HrefTexts(toks))
  {
    if toks != [] && !toks[0].ErrorToken? {
      var head := if IsAnchor(toks[0]) then HrefTextsOf(toks[0].attrs) else [];
      if IsAnchor(toks[0]) {
        HrefsParseEach(parse, toks[0].attrs);
      }
      AnchorsAreParsedHrefTexts(parse, toks[1..]);
      ParseEachAppend(parse, head, HrefTexts(toks[1..]));
    }
  }

  /** A text that fails to parse is dropped without affecting the texts
      before or after it. */
  lemma ParseFailureSkipsOnlyThatText<U>(parse: string -> Option<U>, a: seq<string>, bad: string, b: seq<string>)
    requires parse(bad).None?
    ensures ParseEach(parse, a + [bad] + b) == ParseEach(parse, a) + ParseEach(parse, b)
  {
    ParseEachAppend(parse, a + [bad], b);
    ParseEachAppend(parse, a, [bad]);
  }

  /** When every text parses, nothing is dropped: one result per text. */
  lemma {:induction false} ParseEachAllSucceed<U>(parse: string -> Option<U>, texts: seq<string>)
    requires forall i :: 0 <= i < |texts| ==> parse(texts[i]).Some?
    ensures |ParseEach(parse, texts)| == |texts|
    ensures forall i :: 0 <= i < |texts| ==> ParseEach(parse, texts)[i] == parse(texts[i]).value
  {
    if texts != [] {
      ParseEachAllSucceed(parse, texts[1..]);
    }
  }

  /** Tokens after an error token contribute nothing. */
  lemma {:induction false} AnchorsStopAtError<U>(parse: string -> Option<U>, before: seq<Token>, after: seq<Token>)
    ensures Anchors(parse, before + [ErrorToken] + after) == Anchors(parse, before)
  {
    if before == [] {
    } else if !before[0].ErrorToken? {
      assert (before + [ErrorToken] + after)[1..] == before[1..] + [ErrorToken] + after;
      AnchorsStopAtError(parse, before[1..], after);
    }
  }

  /** Document order: links of an error-free prefix come first. */
  lemma {:induction false} AnchorsAppend<U>(parse: string -> Option<U>, a: seq<Token>, b: seq<Token>)
    requires forall i :: 0 <= i < |a| ==> !a[i].ErrorToken?
    ensures Anchors(parse, a + b) == Anchors(parse, a) + Anchors(parse, b)
  {
    if a == [] {
      assert a + b == b;
    } else {
      assert (a + b)[1..] == a[1..] + b;
      AnchorsAppend(parse, a[1..], b);
      var head := if IsAnchor(a[0]) then Hrefs(parse, a[0].attrs) else [];
      calc {
        Anchors(parse, a + b);
        head + Anchors(parse, a[1..] + b);
        head + (Anchors(parse, a[1..]) + Anchors(parse, b));
        (head + Anchors(parse, a[1..])) + Anchors(parse, b);
      }
    }
  }

  /** A document without anchor start tags yields no links. */
  lemma {:induction false} NoAnchorsNoLinks<U>(parse: string -> Option<U>, toks: seq<Token>)
    requires forall i :: 0 <= i < |toks| ==> !IsAnchor(toks[i])
    ensures Anchors(parse, toks) == []
  {
    if toks != [] {
      NoAnchorsNoLinks(parse, toks[1..]);
    }
  }
}
