/**
  `rewrite_url(cfg, url)`: a pure function of the merged configuration and
  a URL. Every `url.<base>.insteadof` entry declares one or more labels; a
  URL starting with a tag is rewritten to start with `<base>` instead.
  When several labels match, the longest one is used, as git does; when
  that tag is declared by more than one base, the rewrite is ignored and
  a warning is issued.
*/
module UrlRewrite {
  import opened Results
  import opened ConfigLayers

  const UrlPrefix: string := "url."
  const InsteadOfSuffix: string := ".insteadof"

  predicate IsInsteadOfKey(k: string) {
    UrlPrefix <= k && |InsteadOfSuffix| <= |k| && k[|k| - |InsteadOfSuffix|..] == InsteadOfSuffix
  }

  /** `key[4:-10]`: the base of an `insteadof` key; empty when the two ends cross. */
  function BaseOf(k: string): (b: string)
    ensures IsInsteadOfKey(k) && |k| >= |UrlPrefix| + |InsteadOfSuffix| ==> k == UrlPrefix + b + InsteadOfSuffix
    ensures |k| < |UrlPrefix| + |InsteadOfSuffix| ==> b == ""
  {
    if |k| >= |UrlPrefix| + |InsteadOfSuffix| then k[|UrlPrefix|..|k| - |InsteadOfSuffix|] else ""
  }

  /** Reading the base back out of a key written as `url.<base>.insteadof`. */
  lemma BaseOfKey(base: string)
    ensures IsInsteadOfKey(UrlPrefix + base + InsteadOfSuffix)
    ensures BaseOf(UrlPrefix + base + InsteadOfSuffix) == base
  {
    var k := UrlPrefix + base + InsteadOfSuffix;
    assert k[..|UrlPrefix|] == UrlPrefix;
    assert k[|k| - |InsteadOfSuffix|..] == InsteadOfSuffix;
    assert k[|UrlPrefix|..|k| - |InsteadOfSuffix|] == base;
  }

  /**
    The tag of one entry that matches the URL: a multi-valued entry is
    scanned in order and the last matching value is kept.
  */
  function LastMatch(vs: seq<Entry>, url: string): (r: Option<string>)
    ensures r.Some? ==> r.value <= url
    ensures r.Some? ==>
      exists i :: 0 <= i < |vs| && vs[i] == Some(r.value) &&
        forall j :: i < j < |vs| ==> vs[j].None? || !(vs[j].value <= url)
    ensures r.None? <==> forall i :: 0 <= i < |vs| ==> vs[i].None? || !(vs[i].value <= url)
  {
    if |vs| == 0 then None
    else
      var last := vs[|vs| - 1];
      if last.Some? && last.value <= url then Some(last.value)
      else LastMatch(vs[..|vs| - 1], url)
  }

  /** The matching tag of every `insteadof` key that has one. */
  function Matches(cfg: Layer, url: string): (m: map<string, string>)
    ensures forall k :: k in m <==> k in cfg && IsInsteadOfKey(k) && LastMatch(cfg[k], url).Some?
    ensures forall k :: k in m ==> m[k] == LastMatch(cfg[k], url).value && m[k] <= url
  {
    map k | k in cfg && IsInsteadOfKey(k) && LastMatch(cfg[k], url).Some? :: LastMatch(cfg[k], url).value
  }

  /** The longest of `labels` that is a prefix of `url` and no longer than `n`. */
  function Longest(labels: set<string>, url: string, n: nat): (r: Option<string>)
    requires n <= |url|
    ensures r.Some? ==> r.value in labels && r.value <= url && |r.value| <= n
    ensures r.Some? ==> forall l :: l in labels && l <= url && |l| <= n ==> |l| <= |r.value|
    ensures r.None? <==> forall l :: l in labels && l <= url ==> |l| > n
    decreases n
  {
    if url[..n] in labels then Some(url[..n])
    else if n == 0 then None
    else
      var r := Longest(labels, url, n - 1);
      assert forall l :: l in labels && l <= url && |l| == n ==> l == url[..n];
      r
  }

  /** The keys declaring a tag. */
  function Owners(m: map<string, string>, tag: string): (o: set<string>)
    ensures forall k :: k in o <==> k in m && m[k] == tag
  {
    set k | k in m && m[k] == tag
  }

  lemma SingleOwner(o: set<string>)
    requires |o| == 1
    ensures forall a, b :: a in o && b in o ==> a == b
  {
    var x :| x in o;
    assert |o - {x}| == 0;
    forall y | y in o ensures y == x {
      assert y == x || y in o - {x};
    }
  }

  /** A rewritten URL, and whether a conflict warning was issued. */
  datatype Rewrite = Rewrite(url: string, warned: bool)

  function RewriteUrl(cfg: Layer, url: string): (r: Rewrite)
    ensures r.warned ==> r.url == url
  {
    var m := Matches(cfg, url);
    match Longest(m.Values, url, |url|)
    case None => Rewrite(url, false)
    case Some(tag) =>
      var owners := Owners(m, tag);
      if |owners| != 1 then Rewrite(url, true)
      else
        SingleOwner(owners);
        var k :| k in owners;
        Rewrite(BaseOf(k) + url[|tag|..], false)
  }

  /** The tag an `insteadof` key contributes for `url`, if any. */
  function MatchOf(cfg: Layer, url: string, k: string): Option<string> {
    if k in cfg && IsInsteadOfKey(k) then LastMatch(cfg[k], url) else None
  }

  /** No entry has a tag the URL starts with: the URL comes back unchanged, without a warning. */
  lemma NoMatch(cfg: Layer, url: string)
    requires forall k :: k in cfg && IsInsteadOfKey(k) ==>
      forall i :: 0 <= i < |cfg[k]| ==> cfg[k][i].None? || !(cfg[k][i].value <= url)
    ensures RewriteUrl(cfg, url) == Rewrite(url, false)
  {
    var m := Matches(cfg, url);
    assert m == map[];
  }

  lemma MatchOfMatches(cfg: Layer, url: string, k: string)
    ensures MatchOf(cfg, url, k).Some? <==> k in Matches(cfg, url)
    ensures k in Matches(cfg, url) ==> MatchOf(cfg, url, k).value == Matches(cfg, url)[k]
  {
  }

  /** The longest tag among the matches is the one no other match exceeds. */
  lemma LongestMatch(m: map<string, string>, url: string, k: string)
    requires k in m
    requires forall k' :: k' in m ==> m[k'] <= url && |m[k']| <= |m[k]|
    ensures Longest(m.Values, url, |url|) == Some(m[k])
  {
    var tag := m[k];
    assert tag in m.Values;
    var r := Longest(m.Values, url, |url|);
    var l := r.value;
    assert l in m.Values;
    var k2 :| k2 in m && m[k2] == l;
    assert |l| == |tag|;
    assert tag == url[..|tag|] && l == url[..|l|];
  }

  /**
    The longest matching tag belongs to exactly one key: the tag prefix
    is replaced by that key's base.
  */
  lemma UniqueOwner(cfg: Layer, url: string, k: string, tag: string)
    requires MatchOf(cfg, url, k) == Some(tag)
    requires forall k' :: MatchOf(cfg, url, k').Some? ==> |MatchOf(cfg, url, k').value| <= |tag|
    requires forall k' :: k' != k ==> MatchOf(cfg, url, k') != Some(tag)
    ensures RewriteUrl(cfg, url) == Rewrite(BaseOf(k) + url[|tag|..], false)
  {
    var m := Matches(cfg, url);
    MatchOfMatches(cfg, url, k);
    forall k' | k' in m
      ensures m[k'] <= url && |m[k']| <= |m[k]|
      ensures k' != k ==> m[k'] != tag
    {
      MatchOfMatches(cfg, url, k');
    }
    LongestMatch(m, url, k);
    assert Owners(m, tag) == {k};
  }

  /**
    The longest matching tag is declared by two different keys, possibly
    inside multi-valued entries: no rewrite happens and a warning is issued.
  */
  lemma Conflict(cfg: Layer, url: string, k1: string, k2: string, tag: string)
    requires k1 != k2
    requires MatchOf(cfg, url, k1) == Some(tag) && MatchOf(cfg, url, k2) == Some(tag)
    requires forall k' :: MatchOf(cfg, url, k').Some? ==> |MatchOf(cfg, url, k').value| <= |tag|
    ensures RewriteUrl(cfg, url) == Rewrite(url, true)
  {
    var m := Matches(cfg, url);
    MatchOfMatches(cfg, url, k1);
    MatchOfMatches(cfg, url, k2);
    forall k' | k' in m
      ensures m[k'] <= url && |m[k']| <= |m[k1]|
    {
      MatchOfMatches(cfg, url, k');
    }
    LongestMatch(m, url, k1);
    var o := Owners(m, tag);
    assert k1 in o && k2 in o;
    if |o| == 1 {
      SingleOwner(o);
    }
  }

  /**
    Whenever the URL changes, it is some key's base followed by what follows
    that key's tag in the URL.
  */
  lemma RewriteSource(cfg: Layer, url: string)
    requires RewriteUrl(cfg, url).url != url
    ensures !RewriteUrl(cfg, url).warned
    ensures exists k ::
      && MatchOf(cfg, url, k).Some?
      && RewriteUrl(cfg, url).url == BaseOf(k) + url[|MatchOf(cfg, url, k).value|..]
  {
    var m := Matches(cfg, url);
    var tag := Longest(m.Values, url, |url|).value;
    var owners := Owners(m, tag);
    SingleOwner(owners);
    var k :| k in owners;
    assert MatchOf(cfg, url, k) == Some(tag);
  }
}
