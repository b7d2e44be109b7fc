/** FilterByHostname: keeps the URLs whose host ends with the target
    hostname. The comparison is a plain character suffix test, not a
    label-aware domain match. The host of a URL comes from the URL library
    and is passed in as `hostOf`. */
module HostFilter {

  /** `suffix` is a trailing part of `s`, compared character by character. */
  predicate IsSuffix(suffix: string, s: string) {
    |suffix| <= |s| && s[|s| - |suffix|..] == suffix
  }

  /** Whether the filter keeps `u` for target `hostname`. */
  predicate Keeps<U>(hostOf: U -> string, hostname: string, u: U) {
    IsSuffix(hostname, hostOf(u))
  }

  /** Reference definition: the kept URLs, in their input order. */
  function Filter<U>(hostOf: U -> string, hostname: string, urls: seq<U>): seq<U>
  {
    if urls == [] then []
    else (if Keeps(hostOf, hostname, urls[0]) then [urls[0]] else [])
         + Filter(hostOf, hostname, urls[1..])
  }

  /** FilterByHostname: a length check, then the backward comparison of
      `EndsWith`; the URLs that pass are kept in order. */
  method FilterByHostname<U>(hostOf: U -> string, hostname: string, urls: seq<U>)
    returns (result: seq<U>)
    ensures result == Filter(hostOf, hostname, urls)
  {
    result := [];
    for k := 0 to |urls|
      invariant result + Filter(hostOf, hostname, urls[k..]) == Filter(hostOf, hostname, urls)
    {
      var u := urls[k];
      FilterFrom(hostOf, hostname, urls, k);
      ghost var rest := Filter(hostOf, hostname, urls[k + 1..]);
      var target := hostOf(u);
      if |target| < |hostname| {
        assert Filter(hostOf, hostname, urls[k..]) == [] + rest == rest;
        continue;
      }
      var matched := EndsWith(hostname, target);
      if matched {
        assert (result + [u]) + rest == result + ([u] + rest);
        result := result + [u];
      } else {
        assert Filter(hostOf, hostname, urls[k..]) == [] + rest == rest;
      }
      assert result + rest == Filter(hostOf, hostname, urls);
    }
  }

  /** Unfolds `Filter` once, at position `k` of the input. */
  lemma FilterFrom<U>(hostOf: U -> string, hostname: string, urls: seq<U>, k: int)
    requires 0 <= k < |urls|
    ensures Filter(hostOf, hostname, urls[k..])
            == (if Keeps(hostOf, hostname, urls[k]) then [urls[k]] else [])
               + Filter(hostOf, hostname, urls[k + 1..])
  {
    assert urls[k..][0] == urls[k];
    assert urls[k..][1..] == urls[k + 1..];
  }

  /** The inner loop of FilterByHostname: compares `hostname` and a host at
      least as long from their last characters towards the first, stopping
      at the first mismatch. */
  method EndsWith(hostname: string, target: string) returns (matched: bool)
    requires |hostname| <= |target|
    ensures matched <==> IsSuffix(hostname, target)
  {
    matched := true;
    var i, j := |hostname| - 1, |target| - 1;
    while i >= 0 && j >= 0
      invariant -1 <= i < |hostname| && j - i == |target| - |hostname|
      invariant matched
      invariant forall m :: i < m < |hostname| ==> hostname[m] == target[m + |target| - |hostname|]
    {
      if hostname[i] != target[j] {
        matched := false;
        assert target[|target| - |hostname|..][i] != hostname[i];
        return;
      }
      i, j := i - 1, j - 1;
    }
    assert target[|target| - |hostname|..] == hostname;
  }

  /** `a` can be obtained from `b` by deleting elements. */
  ghost predicate IsSubsequence<U>(a: seq<U>, b: seq<U>)
    decreases |b|
  {
    if a == [] then true
    else if b == [] then false
    else if a[0] == b[0] then IsSubsequence(a[1..], b[1..])
    else IsSubsequence(a, b[1..])
  }

  /** A URL is in the result exactly when it is in the input and kept. */
  lemma {:induction false} FilterMembership<U>(hostOf: U -> string, hostname: string, urls: seq<U>, x: U)
    ensures x in Filter(hostOf, hostname, urls) <==> x in urls && Keeps(hostOf, hostname, x)
  {
    if urls != [] {
      FilterMembership(hostOf, hostname, urls[1..], x);
      assert urls == [urls[0]] + urls[1..];
    }
  }

  /** The filter neither adds nor reorders URLs. */
  lemma {:induction false} FilterIsSubsequence<U>(hostOf: U -> string, hostname: string, urls: seq<U>)
    ensures IsSubsequence(Filter(hostOf, hostname, urls), urls)
  {
    if urls != [] {
      var rest := Filter(hostOf, hostname, urls[1..]);
      FilterIsSubsequence(hostOf, hostname, urls[1..]);
      if !Keeps(hostOf, hostname, urls[0]) && rest != [] {
        FilterMembership(hostOf, hostname, urls[1..], rest[0]);
        assert Filter(hostOf, hostname, urls) == rest;
        assert rest[0] != urls[0];
      }
    }
  }

  /** Filtering distributes over concatenation. */
  lemma {:induction false} FilterAppend<U>(hostOf: U -> string, hostname: string, a: seq<U>, b: seq<U>)
    ensures Filter(hostOf, hostname, a + b) == Filter(hostOf, hostname, a) + Filter(hostOf, hostname, b)
  {
    if a == [] {
      assert a + b == b;
    } else {
      assert (a + b)[1..] == a[1..] + b;
      FilterAppend(hostOf, hostname, a[1..], b);
      var head := if Keeps(hostOf, hostname, a[0]) then [a[0]] else [];
      calc {
        Filter(hostOf, hostname, a + b);
        head + Filter(hostOf, hostname, a[1..] + b);
        head + (Filter(hostOf, hostname, a[1..]) + Filter(hostOf, hostname, b));
        (head + Filter(hostOf, hostname, a[1..])) + Filter(hostOf, hostname, b);
      }
    }
  }

  /** Every URL is kept exactly when the output is the whole input. */
  lemma {:induction false} FilterKeepsAll<U>(hostOf: U -> string, hostname: string, urls: seq<U>)
    ensures Filter(hostOf, hostname, urls) == urls
            <==> forall i :: 0 <= i < |urls| ==> Keeps(hostOf, hostname, urls[i])
  {
    if urls != [] {
      FilterKeepsAll(hostOf, hostname, urls[1..]);
      FilterShorter(hostOf, hostname, urls[1..]);
      if Filter(hostOf, hostname, urls) == urls {
        assert Keeps(hostOf, hostname, urls[0]);
        assert Filter(hostOf, hostname, urls[1..]) == urls[1..];
      }
    }
  }

  lemma {:induction false} FilterShorter<U>(hostOf: U -> string, hostname: string, urls: seq<U>)
    ensures |Filter(hostOf, hostname, urls)| <= |urls|
  {
    if urls != [] {
      FilterShorter(hostOf, hostname, urls[1..]);
    }
  }

  /** An empty target hostname is a suffix of every host: nothing is dropped. */
  lemma EmptyHostnameKeepsAll<U>(hostOf: U -> string, urls: seq<U>)
    ensures Filter(hostOf, "", urls) == urls
  {
    forall i | 0 <= i < |urls| ensures Keeps(hostOf, "", urls[i]) {
      assert hostOf(urls[i])[|hostOf(urls[i])|..] == "";
    }
    FilterKeepsAll(hostOf, "", urls);
  }

  /** Filtering twice is filtering once. */
  lemma {:induction false} FilterIdempotent<U>(hostOf: U -> string, hostname: string, urls: seq<U>)
    ensures Filter(hostOf, hostname, Filter(hostOf, hostname, urls)) == Filter(hostOf, hostname, urls)
  {
    if urls != [] {
      FilterIdempotent(hostOf, hostname, urls[1..]);
      var head := if Keeps(hostOf, hostname, urls[0]) then [urls[0]] else [];
      FilterAppend(hostOf, hostname, head, Filter(hostOf, hostname, urls[1..]));
      if head != [] {
        assert Filter(hostOf, hostname, head) == head by {
          assert head[1..] == [];
        }
      }
    }
  }

  /** The suffix test is naive: a URL on a host that merely ends with the
      same characters, such as "notabc.com" for "abc.com", is kept. */
  lemma NaiveSuffixKeepsLookalikeHost<U>(hostOf: U -> string, u: U)
    requires hostOf(u) == "notabc.com"
    ensures Filter(hostOf, "abc.com", [u]) == [u]
  {
    assert "notabc.com"[3..] == "abc.com";
    assert Keeps(hostOf, "abc.com", u);
    assert [u][1..] == [];
  }

}
