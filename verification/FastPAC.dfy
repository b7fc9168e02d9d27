/** The proxy auto-configuration script: its domain lists, and the question it puts to its trie. */
module FastPAC {
  import opened Bytes
  import opened Tries

  // The lists, and the question put to the trie.

  function Reverse(s: string): (r: string)
    ensures |r| == |s| && forall i | 0 <= i < |s| :: r[i] == s[|s| - 1 - i]
  {
    seq(|s|, i requires 0 <= i < |s| => s[|s| - 1 - i])
  }

  lemma ReverseTwice(s: string)
    ensures Reverse(Reverse(s)) == s
  {
  }

  /** The adds for a list, which the script walks from its end to its start. */
  function AddsFor(domains: seq<string>, value: bool): seq<Entry> {
    if domains == [] then [] else AddsFor(domains[1..], value) + [Entry(Reverse(domains[0]), value)]
  }

  function ScriptTrie(whites: seq<string>, blacks: seq<string>): (t: Paths)
    ensures "" in t
  {
    Loaded(AddsFor(whites, false) + AddsFor(blacks, true))
  }

  predicate Proxied(whites: seq<string>, blacks: seq<string>, host: string) {
    Matched(ScriptTrie(whites, blacks), Reverse(host)) == Of(Some(true))
  }

  method LoadList(trie: Trie, domains: seq<string>, value: bool, ghost done: seq<Entry>)
    requires trie.Valid() && trie.view == Loaded(done)
    modifies trie, trie.own
    ensures trie.Valid() && trie.view == Loaded(done + AddsFor(domains, value))
    ensures fresh(trie.own - old(trie.own))
  {
    var i := |domains|;
    assert done + AddsFor(domains[i..], value) == done;
    while i > 0
      invariant 0 <= i <= |domains| && trie.Valid()
      invariant trie.view == Loaded(done + AddsFor(domains[i..], value))
      invariant fresh(trie.own - old(trie.own))
    {
      i := i - 1;
      LoadedSnoc(done, domains, value, i);
      trie.Add(Reverse(domains[i]), value);
    }
    assert domains[0..] == domains;
  }

  /** A list's adds are those of its tail and then its head's. */
  lemma AddsFromTail(done: seq<Entry>, domains: seq<string>, value: bool, i: nat)
    requires i < |domains|
    ensures done + AddsFor(domains[i..], value)
         == (done + AddsFor(domains[i + 1..], value)) + [Entry(Reverse(domains[i]), value)]
  {
    assert domains[i..][1..] == domains[i + 1..];
    ConcatAssociates(done, AddsFor(domains[i + 1..], value), [Entry(Reverse(domains[i]), value)]);
  }

  lemma LoadedSnoc(done: seq<Entry>, domains: seq<string>, value: bool, i: nat)
    requires i < |domains|
    ensures Loaded(done + AddsFor(domains[i..], value))
         == Added(Loaded(done + AddsFor(domains[i + 1..], value)), Reverse(domains[i]), value)
  {
    AddsFromTail(done, domains, value, i);
    LoadedAppend(done + AddsFor(domains[i + 1..], value), Entry(Reverse(domains[i]), value));
  }

  /** The script's set-up: both lists are loaded, the black one last. */
  method Setup(whites: seq<string>, blacks: seq<string>) returns (trie: Trie)
    ensures trie.Valid() && trie.view == ScriptTrie(whites, blacks)
  {
    trie := new Trie();
    LoadList(trie, whites, false, []);
    assert [] + AddsFor(whites, false) == AddsFor(whites, false);
    LoadList(trie, blacks, true, AddsFor(whites, false));
  }

  /** The proxy is used when the walk of the reversed host ends on a true value. */
  method FindProxyForURL(trie: Trie, host: string) returns (proxy: bool)
    requires trie.Valid()
    ensures proxy == (Matched(trie.view, Reverse(host)) == Of(Some(true)))
  {
    var answer := trie.Match(Reverse(host));
    return answer == Of(Some(true));
  }

  // The domain question.

  /** `host` lies below `domain`: it ends in a dot and `domain`. */
  predicate Below(host: string, domain: string) {
    |host| > |domain| && host[|host| - |domain|..] == domain && host[|host| - |domain| - 1] == '.'
  }

  predicate Under(host: string, domain: string) {
    host == domain || Below(host, domain)
  }

  /** How many characters two names share at their ends. */
  function Shared(a: string, b: string): nat {
    if a == "" || b == "" || a[|a| - 1] != b[|b| - 1] then 0 else 1 + Shared(a[..|a| - 1], b[..|b| - 1])
  }

  lemma ReverseSuffix(host: string, n: nat)
    requires n <= |host|
    ensures Reverse(host)[..n] == Reverse(host[|host| - n..])
  {
  }

  lemma ReverseInjective(a: string, b: string)
    requires Reverse(a) == Reverse(b)
    ensures a == b
  {
    ReverseTwice(a);
    ReverseTwice(b);
  }

  lemma BelowReversed(host: string, domain: string)
    ensures Below(host, domain) <==>
      Reverse(domain) < Reverse(host) && Reverse(host)[|domain|] == '.'
  {
    var h, d := Reverse(host), Reverse(domain);
    if |host| > |domain| {
      ReverseSuffix(host, |domain|);
      assert d <= h <==> h[..|domain|] == d;
      if h[..|domain|] == d {
        ReverseInjective(host[|host| - |domain|..], domain);
      }
    }
  }

  lemma SuffixSplits(a: string, n: nat)
    requires 0 < n <= |a|
    ensures var m := |a| - 1; a[|a| - n..] == a[..m][m - (n - 1)..] + [a[m]]
  {
  }

  lemma SnocEqual(x: string, c: char, y: string, d: char)
    requires |x| == |y|
    ensures x + [c] == y + [d] <==> x == y && c == d
  {
    assert (x + [c])[..|x|] == x && (x + [c])[|x|] == c;
    assert (y + [d])[..|y|] == y && (y + [d])[|y|] == d;
  }

  /** Names share `n` characters at their ends when their reversals agree that far. */
  lemma {:induction false} SharedReversed(a: string, b: string, n: nat)
    requires n <= |a| && n <= |b|
    ensures Shared(a, b) >= n <==> a[|a| - n..] == b[|b| - n..]
    decreases n
  {
    if n > 0 {
      var i, j := |a| - 1, |b| - 1;
      SuffixSplits(a, n);
      SuffixSplits(b, n);
      SnocEqual(a[..i][i - (n - 1)..], a[i], b[..j][j - (n - 1)..], b[j]);
      SharedReversed(a[..i], b[..j], n - 1);
    }
  }

  lemma {:induction false} SharedBound(a: string, b: string)
    ensures Shared(a, b) <= |a| && Shared(a, b) <= |b|
  {
    if a != "" && b != "" {
      SharedBound(a[..|a| - 1], b[..|b| - 1]);
    }
  }

  /** The keys the lists write are the reversed domains, true exactly for those of the black list. */
  lemma ScriptWrites(whites: seq<string>, blacks: seq<string>, domain: string)
    ensures var w := LastWrites(AddsFor(whites, false) + AddsFor(blacks, true));
      && (Reverse(domain) in w <==> domain in whites || domain in blacks)
      && (Reverse(domain) in w ==> w[Reverse(domain)] == (domain in blacks))
  {
    var empty: seq<Entry> := [];
    ListWrites(empty, whites, false, domain);
    assert empty + AddsFor(whites, false) == AddsFor(whites, false);
    ListWrites(AddsFor(whites, false), blacks, true, domain);
  }

  lemma {:induction false} ListWrites(done: seq<Entry>, domains: seq<string>, value: bool, domain: string)
    ensures var w, n := LastWrites(done), LastWrites(done + AddsFor(domains, value));
      var key := Reverse(domain);
      && (key in n <==> key in w || domain in domains)
      && (key in n ==> n[key] == if domain in domains then value else w[key])
  {
    if domains == [] {
      assert done + [] == done;
    } else {
      ListWrites(done, domains[1..], value, domain);
      AddsFromTail(done, domains, value, 0);
      assert domains[0..] == domains;
      LastWritesAppend(done + AddsFor(domains[1..], value), Entry(Reverse(domains[0]), value));
      if Reverse(domain) == Reverse(domains[0]) {
        ReverseInjective(domain, domains[0]);
      }
    }
  }

  predicate Listed(whites: seq<string>, blacks: seq<string>, domain: string) {
    domain in whites || domain in blacks
  }

  /** Reversals agree on `n` characters exactly when the names share `n` at their ends. */
  lemma AgreeReversed(a: string, b: string, n: nat)
    requires n <= |b|
    ensures Reverse(b)[..n] <= Reverse(a) <==> Shared(a, b) >= n
  {
    SharedBound(a, b);
    if n <= |a| {
      ReverseSuffix(a, n);
      ReverseSuffix(b, n);
      SharedReversed(a, b, n);
      assert Reverse(b)[..n] <= Reverse(a) <==> Reverse(b)[..n] == Reverse(a)[..n];
      if Reverse(b)[..n] == Reverse(a)[..n] {
        ReverseInjective(a[|a| - n..], b[|b| - n..]);
      }
    }
  }

  /** The trie has a path along a reversed host exactly as far as some listed domain shares the host's end. */
  lemma PathIsShared(whites: seq<string>, blacks: seq<string>, host: string, n: nat)
    requires n <= |host|
    ensures Reverse(host)[..n] in ScriptTrie(whites, blacks)
       <==> n == 0 || exists e :: Listed(whites, blacks, e) && Shared(e, host) >= n
  {
    var adds, p := AddsFor(whites, false) + AddsFor(blacks, true), Reverse(host)[..n];
    TrieRefinement(adds);
    var w := LastWrites(adds);
    if n > 0 {
      if k :| k in w && p <= k {
        ReverseTwice(k);
        ScriptWrites(whites, blacks, Reverse(k));
        AgreeReversed(Reverse(k), host, n);
      }
      if e :| Listed(whites, blacks, e) && Shared(e, host) >= n {
        ScriptWrites(whites, blacks, e);
        AgreeReversed(e, host, n);
        assert Reverse(e) in w && p <= Reverse(e);
      }
    }
  }

  lemma ScriptValue(whites: seq<string>, blacks: seq<string>, domain: string)
    requires Reverse(domain) in ScriptTrie(whites, blacks)
    ensures ScriptTrie(whites, blacks)[Reverse(domain)] == Some(true) <==> domain in blacks
  {
    TrieRefinement(AddsFor(whites, false) + AddsFor(blacks, true));
    ScriptWrites(whites, blacks, domain);
  }

  /** Why a host is proxied: it is under a domain of the black list, and shares no more with any listed one. */
  ghost predicate Deepest(whites: seq<string>, blacks: seq<string>, host: string, d: string) {
    && d in blacks && Under(host, d)
    && (forall e | Listed(whites, blacks, e) :: Shared(e, host) <= |d|)
  }

  /** The walk of a host can go `n` steps. */
  predicate Walks(whites: seq<string>, blacks: seq<string>, host: string, n: nat)
    requires n <= |host|
  {
    Reverse(host)[..n] in ScriptTrie(whites, blacks)
  }

  /** It goes as far as a listed domain shares the host's end. */
  lemma SharedWalks(whites: seq<string>, blacks: seq<string>, host: string, e: string, n: nat)
    requires n <= |host| && Listed(whites, blacks, e) && Shared(e, host) >= n
    ensures Walks(whites, blacks, host, n)
  {
    PathIsShared(whites, blacks, host, n);
  }

  lemma SharesNoMore(whites: seq<string>, blacks: seq<string>, host: string, e: string, n: nat)
    requires n <= |host| && (n < |host| ==> !Walks(whites, blacks, host, n + 1)) && Listed(whites, blacks, e)
    ensures Shared(e, host) <= n
  {
    SharedBound(e, host);
    if n < |host| && Shared(e, host) >= n + 1 {
      SharedWalks(whites, blacks, host, e, n + 1);
    }
  }

  /** No listed domain shares more of a host's end than the walk went. */
  lemma NoneShareMore(whites: seq<string>, blacks: seq<string>, host: string, n: nat)
    requires n <= |host| && (n < |host| ==> !Walks(whites, blacks, host, n + 1))
    ensures forall e | Listed(whites, blacks, e) :: Shared(e, host) <= n
  {
    forall e | Listed(whites, blacks, e)
      ensures Shared(e, host) <= n
    {
      SharesNoMore(whites, blacks, host, e, n);
    }
  }

  /** Where a walk that ends well ends, the host is, or lies below, that domain. */
  lemma EndsUnder(host: string, n: nat)
    requires n <= |host| && (n < |host| ==> Reverse(host)[n] == '.')
    ensures var d := Reverse(Reverse(host)[..n]); |d| == n && Reverse(d) == Reverse(host)[..n] && Under(host, d)
  {
    var key := Reverse(host);
    ReverseTwice(key[..n]);
    BelowReversed(host, Reverse(key[..n]));
    if n == |key| {
      ReverseTwice(host);
      assert key[..n] == key;
    }
  }

  lemma ProxiedHasDeepest(whites: seq<string>, blacks: seq<string>, host: string) returns (d: string)
    requires Proxied(whites, blacks, host)
    ensures Deepest(whites, blacks, host, d)
  {
    var t, key := ScriptTrie(whites, blacks), Reverse(host);
    assert key[..0] == "";
    var n := Longest(t.Keys, key, 0);
    d := Reverse(key[..n]);
    EndsUnder(host, n);
    ScriptValue(whites, blacks, d);
    NoneShareMore(whites, blacks, host, n);
  }

  lemma DeepestIsProxied(whites: seq<string>, blacks: seq<string>, host: string, d: string)
    requires Deepest(whites, blacks, host, d)
    ensures Proxied(whites, blacks, host)
  {
    var t, key, m := ScriptTrie(whites, blacks), Reverse(host), |d|;
    assert key[..0] == "";
    var n := Longest(t.Keys, key, 0);
    BelowReversed(host, d);
    assert key[..m] == Reverse(d) && (m < |key| ==> key[m] == '.');
    AgreeReversed(d, host, m);
    if n < m {
      PathIsShared(whites, blacks, host, n + 1);
      assert false;
    }
    if n > m {
      PathIsShared(whites, blacks, host, n);
      assert false;
    }
    ScriptValue(whites, blacks, d);
  }

  /**
   * Exactly which hosts are proxied: those under a black-listed domain that is the longest end the host shares
   * with any listed domain. The walk never backs up, so a longer shared end hides the domain.
   */
  lemma ProxiedExactly(whites: seq<string>, blacks: seq<string>, host: string)
    ensures Proxied(whites, blacks, host) <==> exists d :: Deepest(whites, blacks, host, d)
  {
    if Proxied(whites, blacks, host) {
      var d := ProxiedHasDeepest(whites, blacks, host);
    }
    if d :| Deepest(whites, blacks, host, d) {
      DeepestIsProxied(whites, blacks, host, d);
    }
  }

  /** A host is proxied only if it is, or lies below, a black-listed domain; that domain itself always is. */
  lemma Soundness(whites: seq<string>, blacks: seq<string>, host: string)
    ensures Proxied(whites, blacks, host) ==> exists d :: d in blacks && Under(host, d)
    ensures host in blacks ==> Proxied(whites, blacks, host)
  {
    ProxiedExactly(whites, blacks, host);
    if Proxied(whites, blacks, host) {
      var d :| Deepest(whites, blacks, host, d);
      assert d in blacks && Under(host, d);
    }
    if host in blacks {
      forall e ensures Shared(e, host) <= |host| {
        SharedBound(e, host);
      }
      assert Deepest(whites, blacks, host, host);
    }
  }

  /** A longest domain of a list below `d`, if there is one. */
  lemma {:induction false} LongestBelow(domains: seq<string>, d: string) returns (top: Option<string>)
    ensures top.None? ==> forall e | e in domains :: !Below(e, d)
    ensures top.Some? ==> top.value in domains && Below(top.value, d)
    ensures top.Some? ==> forall e | e in domains && Below(e, d) :: |e| <= |top.value|
  {
    if domains == [] {
      return None;
    }
    top := LongestBelow(domains[1..], d);
    assert domains == [domains[0]] + domains[1..];
    if Below(domains[0], d) && (top.None? || |domains[0]| > |top.value|) {
      top := Some(domains[0]);
    }
  }

  lemma OnlyItself(top: string, d: string)
    requires Under("a" + top, d) && |d| >= |top|
    ensures d == "a" + top
  {
    assert ("a" + top)[0] == 'a';
  }

  /** A name made up below the longest listed subdomain of `d` lies under `d` and is not proxied. */
  lemma HiddenHost(whites: seq<string>, blacks: seq<string>, d: string, top: string)
    requires Listed(whites, blacks, top) && Below(top, d)
    requires forall e | Listed(whites, blacks, e) && Below(e, d) :: |e| <= |top|
    ensures Under("a" + top, d) && !Proxied(whites, blacks, "a" + top)
  {
    var host := "a" + top;
    assert host[|host| - |d|..] == top[|top| - |d|..];
    assert host[1..] == top && Below(host, d);
    SharedReversed(top, host, |top|);
    assert top[0..] == top;
    if Proxied(whites, blacks, host) {
      var d' := ProxiedHasDeepest(whites, blacks, host);
      OnlyItself(top, d');
      assert false;
    }
  }

  /**
   * When listing a domain proxies all of it: every host that is `d` or lies below it is proxied exactly when no
   * listed domain, of either list, lies below `d`.
   */
  lemma CompletenessExactly(whites: seq<string>, blacks: seq<string>, d: string)
    requires d in blacks
    ensures (forall host | Under(host, d) :: Proxied(whites, blacks, host))
       <==> (forall e | Listed(whites, blacks, e) :: !Below(e, d))
  {
    if forall e | Listed(whites, blacks, e) :: !Below(e, d) {
      forall host | Under(host, d)
        ensures Proxied(whites, blacks, host)
      {
        forall e | Listed(whites, blacks, e)
          ensures Shared(e, host) <= |d|
        {
          SharedBelow(e, host, d);
        }
        DeepestIsProxied(whites, blacks, host, d);
      }
    } else {
      var top := LongestBelow(whites + blacks, d);
      HiddenHost(whites, blacks, d, top.value);
    }
  }

  /** What shares more than `d` with a host under `d` lies below `d`. */
  lemma SharedBelow(e: string, host: string, d: string)
    requires Under(host, d)
    ensures Shared(e, host) > |d| ==> Below(e, d)
  {
    SharedBound(e, host);
    if Below(host, d) && Shared(e, host) > |d| {
      var n := |d| + 1;
      SharedReversed(e, host, n);
      assert host[|host| - n..][1..] == d && host[|host| - n..][0] == '.';
      assert e[|e| - n..][1..] == e[|e| - |d|..];
    }
  }

  /** A host under a listed domain, hidden by a listed subdomain it merely resembles. */
  lemma SubdomainHidesDomain()
    ensures Under("ya.b", "b") && !Proxied([], ["b", "xa.b"], "ya.b")
  {
    var host, blacks := "ya.b", ["b", "xa.b"];
    SharedReversed("xa.b", host, 3);
    assert "xa.b"[1..] == host[1..] == "a.b";
    assert Listed([], blacks, "xa.b");
    forall d ensures !Deepest([], blacks, host, d) {
      assert d in blacks ==> d == "b" || d == "xa.b";
    }
    ProxiedExactly([], blacks, host);
  }
}
