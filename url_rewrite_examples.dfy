/** The `insteadof` configuration of the tests, and what `rewrite_url` makes of their inputs. */
module UrlRewriteExamples {
  import opened Results
  import opened ConfigLayers
  import opened UrlRewrite

  /** The configuration key `url.<base>.insteadof`. */
  function Key(base: string): string {
    UrlPrefix + base + InsteadOfSuffix
  }

  const ExampleKey: string := Key("git@example.com:")
  const ProtocolKey: string := Key("https://example")
  const RiaKey: string := Key("ria+ssh://fully.qualified.com")
  const Host1Key: string := Key("http://host1")
  const Host2Key: string := Key("http://host2")
  const Host3Key: string := Key("http://host3")
  const Host4Key: string := Key("http://host4")

  const ExampleValues: Values := [Some("example:")]
  const ProtocolValues: Values := [Some("git://example")]
  const RiaValues: Values := [Some("mylabel"), Some("myotherlabel")]
  const ConflictValues: Values := [Some("conflict")]
  const Conflict2Values: Values := [Some("conflict2")]
  const Host4Values: Values := [Some("someokish"), Some("conflict2")]

  /** The configuration the tests rewrite against. */
  const Rewrites: Layer :=
    map[ExampleKey := ExampleValues, ProtocolKey := ProtocolValues, RiaKey := RiaValues,
        Host1Key := ConflictValues, Host2Key := ConflictValues, Host3Key := Conflict2Values, Host4Key := Host4Values]

  const Keys: set<string> := {ExampleKey, ProtocolKey, RiaKey, Host1Key, Host2Key, Host3Key, Host4Key}

  /** The match of each labelled key of the example, read off its entry. */
  lemma LabelsMatch(url: string)
    ensures MatchOf(Rewrites, url, ExampleKey) == LastMatch([Some("example:")], url)
    ensures MatchOf(Rewrites, url, ProtocolKey) == LastMatch([Some("git://example")], url)
    ensures MatchOf(Rewrites, url, RiaKey) == LastMatch([Some("mylabel"), Some("myotherlabel")], url)
  {
    BaseOfKey("git@example.com:");
    BaseOfKey("https://example");
    BaseOfKey("ria+ssh://fully.qualified.com");
    BaseOfKey("http://host1");
    BaseOfKey("http://host2");
    BaseOfKey("http://host3");
    BaseOfKey("http://host4");
  }

  /** The match of each host key of the example, read off its entry. */
  lemma HostsMatch(url: string)
    ensures MatchOf(Rewrites, url, Host1Key) == LastMatch([Some("conflict")], url)
    ensures MatchOf(Rewrites, url, Host2Key) == LastMatch([Some("conflict")], url)
    ensures MatchOf(Rewrites, url, Host3Key) == LastMatch([Some("conflict2")], url)
    ensures MatchOf(Rewrites, url, Host4Key) == LastMatch([Some("someokish"), Some("conflict2")], url)
  {
    BaseOfKey("git@example.com:");
    BaseOfKey("https://example");
    BaseOfKey("ria+ssh://fully.qualified.com");
    BaseOfKey("http://host1");
    BaseOfKey("http://host2");
    BaseOfKey("http://host3");
    BaseOfKey("http://host4");
    assert Host1Key != Host2Key by { assert Host1Key[15] != Host2Key[15]; }
    assert Host3Key != Host4Key by { assert Host3Key[15] != Host4Key[15]; }
  }

  /** Only the keys of the example can match. */
  lemma MatchedKeys(url: string)
    ensures forall k :: MatchOf(Rewrites, url, k).Some? ==> k in Keys
  {
  }

  lemma LastMatchOne(t: string, url: string)
    ensures LastMatch([Some(t)], url) == if t <= url then Some(t) else None
  {
    assert [Some(t)][..0] == [];
  }

  lemma LastMatchTwo(t1: string, t2: string, url: string)
    ensures LastMatch([Some(t1), Some(t2)], url) == if t2 <= url then Some(t2) else if t1 <= url then Some(t1) else None
  {
    assert [Some(t1), Some(t2)][..1] == [Some(t1)];
    LastMatchOne(t1, url);
  }

  /** The match of every key, as prefix tests of the URL. */
  lemma RewritesTags(url: string)
    ensures MatchOf(Rewrites, url, ExampleKey) == if "example:" <= url then Some("example:") else None
    ensures MatchOf(Rewrites, url, ProtocolKey) == if "git://example" <= url then Some("git://example") else None
    ensures MatchOf(Rewrites, url, RiaKey) ==
      if "myotherlabel" <= url then Some("myotherlabel") else if "mylabel" <= url then Some("mylabel") else None
    ensures MatchOf(Rewrites, url, Host1Key) == if "conflict" <= url then Some("conflict") else None
    ensures MatchOf(Rewrites, url, Host2Key) == if "conflict" <= url then Some("conflict") else None
    ensures MatchOf(Rewrites, url, Host3Key) == if "conflict2" <= url then Some("conflict2") else None
    ensures MatchOf(Rewrites, url, Host4Key) ==
      if "conflict2" <= url then Some("conflict2") else if "someokish" <= url then Some("someokish") else None
  {
    LabelsMatch(url);
    HostsMatch(url);
    LastMatchOne("example:", url);
    LastMatchOne("git://example", url);
    LastMatchOne("conflict", url);
    LastMatchOne("conflict2", url);
    LastMatchTwo("mylabel", "myotherlabel", url);
    LastMatchTwo("someokish", "conflict2", url);
  }

  lemma NotPrefixAt(a: string, b: string, i: nat)
    requires i < |a| && i < |b| && a[i] != b[i]
    ensures !(a <= b)
  {
  }

  // ---------------------------------------------------------------------------
  // From per-key matches to the outcome, for any layer whose matching keys are among `keys`

  /** No key matches: the URL comes back unchanged. */
  lemma NoneMatch(cfg: Layer, url: string, keys: set<string>)
    requires forall k :: MatchOf(cfg, url, k).Some? ==> k in keys
    requires forall k :: k in keys ==> MatchOf(cfg, url, k).None?
    ensures RewriteUrl(cfg, url) == Rewrite(url, false)
  {
    forall k | k in cfg && IsInsteadOfKey(k)
      ensures forall i :: 0 <= i < |cfg[k]| ==> cfg[k][i].None? || !(cfg[k][i].value <= url)
    {
      assert MatchOf(cfg, url, k).None?;
    }
    NoMatch(cfg, url);
  }

  /** Only `k` matches, with `tag`. */
  lemma OnlyMatch(cfg: Layer, url: string, keys: set<string>, k: string, tag: string)
    requires forall k' :: MatchOf(cfg, url, k').Some? ==> k' in keys
    requires MatchOf(cfg, url, k) == Some(tag)
    requires forall k' :: k' in keys ==> k' == k || MatchOf(cfg, url, k').None?
    ensures RewriteUrl(cfg, url) == Rewrite(BaseOf(k) + url[|tag|..], false)
  {
    UniqueOwner(cfg, url, k, tag);
  }

  /** Two keys share `tag`, and no tag that matches is longer. */
  lemma SharedMatch(cfg: Layer, url: string, keys: set<string>, k1: string, k2: string, tag: string)
    requires forall k :: MatchOf(cfg, url, k).Some? ==> k in keys
    requires k1 != k2 && MatchOf(cfg, url, k1) == Some(tag) && MatchOf(cfg, url, k2) == Some(tag)
    requires forall k :: k in keys ==> MatchOf(cfg, url, k).None? || |MatchOf(cfg, url, k).value| <= |tag|
    ensures RewriteUrl(cfg, url) == Rewrite(url, true)
  {
    Conflict(cfg, url, k1, k2, tag);
  }

  /** No key of the example matches. */
  lemma NoneOfKeys(cfg: Layer, url: string)
    requires MatchOf(cfg, url, ExampleKey).None?
    requires MatchOf(cfg, url, ProtocolKey).None?
    requires MatchOf(cfg, url, RiaKey).None?
    requires MatchOf(cfg, url, Host1Key).None?
    requires MatchOf(cfg, url, Host2Key).None?
    requires MatchOf(cfg, url, Host3Key).None?
    requires MatchOf(cfg, url, Host4Key).None?
    ensures forall k :: k in Keys ==> MatchOf(cfg, url, k).None?
  {
  }

  /** No key of the example but `ExampleKey` matches. */
  lemma OnlyExample(cfg: Layer, url: string)
    requires MatchOf(cfg, url, ProtocolKey).None?
    requires MatchOf(cfg, url, RiaKey).None?
    requires MatchOf(cfg, url, Host1Key).None?
    requires MatchOf(cfg, url, Host2Key).None?
    requires MatchOf(cfg, url, Host3Key).None?
    requires MatchOf(cfg, url, Host4Key).None?
    ensures forall k :: k in Keys ==> k == ExampleKey || MatchOf(cfg, url, k).None?
  {
  }

  /** No key of the example but `ProtocolKey` matches. */
  lemma OnlyProtocol(cfg: Layer, url: string)
    requires MatchOf(cfg, url, ExampleKey).None?
    requires MatchOf(cfg, url, RiaKey).None?
    requires MatchOf(cfg, url, Host1Key).None?
    requires MatchOf(cfg, url, Host2Key).None?
    requires MatchOf(cfg, url, Host3Key).None?
    requires MatchOf(cfg, url, Host4Key).None?
    ensures forall k :: k in Keys ==> k == ProtocolKey || MatchOf(cfg, url, k).None?
  {
  }

  /** No key of the example but `RiaKey` matches. */
  lemma OnlyRia(cfg: Layer, url: string)
    requires MatchOf(cfg, url, ExampleKey).None?
    requires MatchOf(cfg, url, ProtocolKey).None?
    requires MatchOf(cfg, url, Host1Key).None?
    requires MatchOf(cfg, url, Host2Key).None?
    requires MatchOf(cfg, url, Host3Key).None?
    requires MatchOf(cfg, url, Host4Key).None?
    ensures forall k :: k in Keys ==> k == RiaKey || MatchOf(cfg, url, k).None?
  {
  }

  /** Only the host keys match, none with a tag longer than `n`. */
  lemma HostsOnly(cfg: Layer, url: string, n: nat)
    requires MatchOf(cfg, url, ExampleKey).None?
    requires MatchOf(cfg, url, ProtocolKey).None?
    requires MatchOf(cfg, url, RiaKey).None?
    requires forall k :: k in {Host1Key, Host2Key, Host3Key, Host4Key} ==>
      MatchOf(cfg, url, k).None? || |MatchOf(cfg, url, k).value| <= n
    ensures forall k :: k in Keys ==> MatchOf(cfg, url, k).None? || |MatchOf(cfg, url, k).value| <= n
  {
  }

  // ---------------------------------------------------------------------------
  // The inputs of the tests

  lemma UnmatchedTags(url: string, rest: string)
    requires url == "unicorn" + rest
    ensures !("example:" <= url)
    ensures !("git://example" <= url)
    ensures !("mylabel" <= url)
    ensures !("myotherlabel" <= url)
    ensures !("conflict" <= url)
    ensures !("conflict2" <= url)
    ensures !("someokish" <= url)
  {
    NotPrefixAt("example:", url, 0);
    NotPrefixAt("git://example", url, 0);
    NotPrefixAt("mylabel", url, 0);
    NotPrefixAt("myotherlabel", url, 0);
    NotPrefixAt("conflict", url, 0);
    NotPrefixAt("conflict2", url, 0);
    NotPrefixAt("someokish", url, 0);
  }

  lemma UnmatchedPick(url: string)
    requires !("example:" <= url)
    requires !("git://example" <= url)
    requires !("mylabel" <= url)
    requires !("myotherlabel" <= url)
    requires !("conflict" <= url)
    requires !("conflict2" <= url)
    requires !("someokish" <= url)
    ensures MatchOf(Rewrites, url, ExampleKey) == None
    ensures MatchOf(Rewrites, url, ProtocolKey) == None
    ensures MatchOf(Rewrites, url, RiaKey) == None
    ensures MatchOf(Rewrites, url, Host1Key) == None
    ensures MatchOf(Rewrites, url, Host2Key) == None
    ensures MatchOf(Rewrites, url, Host3Key) == None
    ensures MatchOf(Rewrites, url, Host4Key) == None
  {
    RewritesTags(url);
  }

  /** No tag matches: the input comes back unchanged, without a warning. */
  lemma UnmatchedUnchanged(url: string, rest: string)
    requires url == "unicorn" + rest
    ensures RewriteUrl(Rewrites, url) == Rewrite(url, false)
  {
    UnmatchedTags(url, rest);
    UnmatchedPick(url);
    NoneOfKeys(Rewrites, url);
    MatchedKeys(url);
    NoneMatch(Rewrites, url, Keys);
  }

  lemma LabelTags(url: string, rest: string)
    requires url == "example:" + rest
    ensures "example:" <= url
    ensures !("git://example" <= url)
    ensures !("mylabel" <= url)
    ensures !("myotherlabel" <= url)
    ensures !("conflict" <= url)
    ensures !("conflict2" <= url)
    ensures !("someokish" <= url)
  {
    NotPrefixAt("git://example", url, 0);
    NotPrefixAt("mylabel", url, 0);
    NotPrefixAt("myotherlabel", url, 0);
    NotPrefixAt("conflict", url, 0);
    NotPrefixAt("conflict2", url, 0);
    NotPrefixAt("someokish", url, 0);
  }

  lemma LabelPick(url: string)
    requires "example:" <= url
    requires !("git://example" <= url)
    requires !("mylabel" <= url)
    requires !("myotherlabel" <= url)
    requires !("conflict" <= url)
    requires !("conflict2" <= url)
    requires !("someokish" <= url)
    ensures MatchOf(Rewrites, url, ExampleKey) == Some("example:")
    ensures MatchOf(Rewrites, url, ProtocolKey) == None
    ensures MatchOf(Rewrites, url, RiaKey) == None
    ensures MatchOf(Rewrites, url, Host1Key) == None
    ensures MatchOf(Rewrites, url, Host2Key) == None
    ensures MatchOf(Rewrites, url, Host3Key) == None
    ensures MatchOf(Rewrites, url, Host4Key) == None
  {
    RewritesTags(url);
  }

  /** A custom label is replaced by the URL it stands for. */
  lemma LabelRewrite(url: string, rest: string)
    requires url == "example:" + rest
    ensures RewriteUrl(Rewrites, url) == Rewrite("git@example.com:" + rest, false)
  {
    LabelTags(url, rest);
    LabelPick(url);
    OnlyExample(Rewrites, url);
    MatchedKeys(url);
    OnlyMatch(Rewrites, url, Keys, ExampleKey, "example:");
    BaseOfKey("git@example.com:");
    assert url[|"example:"|..] == rest;
  }

  lemma ProtocolTags(url: string, rest: string)
    requires url == "git://example" + rest
    ensures !("example:" <= url)
    ensures "git://example" <= url
    ensures !("mylabel" <= url)
    ensures !("myotherlabel" <= url)
    ensures !("conflict" <= url)
    ensures !("conflict2" <= url)
    ensures !("someokish" <= url)
  {
    NotPrefixAt("example:", url, 0);
    NotPrefixAt("mylabel", url, 0);
    NotPrefixAt("myotherlabel", url, 0);
    NotPrefixAt("conflict", url, 0);
    NotPrefixAt("conflict2", url, 0);
    NotPrefixAt("someokish", url, 0);
  }

  lemma ProtocolPick(url: string)
    requires !("example:" <= url)
    requires "git://example" <= url
    requires !("mylabel" <= url)
    requires !("myotherlabel" <= url)
    requires !("conflict" <= url)
    requires !("conflict2" <= url)
    requires !("someokish" <= url)
    ensures MatchOf(Rewrites, url, ExampleKey) == None
    ensures MatchOf(Rewrites, url, ProtocolKey) == Some("git://example")
    ensures MatchOf(Rewrites, url, RiaKey) == None
    ensures MatchOf(Rewrites, url, Host1Key) == None
    ensures MatchOf(Rewrites, url, Host2Key) == None
    ensures MatchOf(Rewrites, url, Host3Key) == None
    ensures MatchOf(Rewrites, url, Host4Key) == None
  {
    RewritesTags(url);
  }

  /** A protocol is replaced by another, the rest of the URL kept verbatim. */
  lemma ProtocolRewrite(url: string, rest: string)
    requires url == "git://example" + rest
    ensures RewriteUrl(Rewrites, url) == Rewrite("https://example" + rest, false)
  {
    ProtocolTags(url, rest);
    ProtocolPick(url);
    OnlyProtocol(Rewrites, url);
    MatchedKeys(url);
    OnlyMatch(Rewrites, url, Keys, ProtocolKey, "git://example");
    BaseOfKey("https://example");
    assert url[|"git://example"|..] == rest;
  }

  lemma FirstLabelTags(url: string, rest: string)
    requires url == "mylabel" + rest
    ensures !("example:" <= url)
    ensures !("git://example" <= url)
    ensures "mylabel" <= url
    ensures !("myotherlabel" <= url)
    ensures !("conflict" <= url)
    ensures !("conflict2" <= url)
    ensures !("someokish" <= url)
  {
    NotPrefixAt("example:", url, 0);
    NotPrefixAt("git://example", url, 0);
    NotPrefixAt("myotherlabel", url, 2);
    NotPrefixAt("conflict", url, 0);
    NotPrefixAt("conflict2", url, 0);
    NotPrefixAt("someokish", url, 0);
  }

  lemma FirstLabelPick(url: string)
    requires !("example:" <= url)
    requires !("git://example" <= url)
    requires "mylabel" <= url
    requires !("myotherlabel" <= url)
    requires !("conflict" <= url)
    requires !("conflict2" <= url)
    requires !("someokish" <= url)
    ensures MatchOf(Rewrites, url, ExampleKey) == None
    ensures MatchOf(Rewrites, url, ProtocolKey) == None
    ensures MatchOf(Rewrites, url, RiaKey) == Some("mylabel")
    ensures MatchOf(Rewrites, url, Host1Key) == None
    ensures MatchOf(Rewrites, url, Host2Key) == None
    ensures MatchOf(Rewrites, url, Host3Key) == None
    ensures MatchOf(Rewrites, url, Host4Key) == None
  {
    RewritesTags(url);
  }

  /** The first tag of a multi-valued entry rewrites to its URL. */
  lemma FirstLabelRewrite(url: string, rest: string)
    requires url == "mylabel" + rest
    ensures RewriteUrl(Rewrites, url) == Rewrite("ria+ssh://fully.qualified.com" + rest, false)
  {
    FirstLabelTags(url, rest);
    FirstLabelPick(url);
    OnlyRia(Rewrites, url);
    MatchedKeys(url);
    OnlyMatch(Rewrites, url, Keys, RiaKey, "mylabel");
    BaseOfKey("ria+ssh://fully.qualified.com");
    assert url[|"mylabel"|..] == rest;
  }

  lemma SecondLabelTags(url: string, rest: string)
    requires url == "myotherlabel" + rest
    ensures !("example:" <= url)
    ensures !("git://example" <= url)
    ensures !("mylabel" <= url)
    ensures "myotherlabel" <= url
    ensures !("conflict" <= url)
    ensures !("conflict2" <= url)
    ensures !("someokish" <= url)
  {
    NotPrefixAt("example:", url, 0);
    NotPrefixAt("git://example", url, 0);
    NotPrefixAt("mylabel", url, 2);
    NotPrefixAt("conflict", url, 0);
    NotPrefixAt("conflict2", url, 0);
    NotPrefixAt("someokish", url, 0);
  }

  lemma SecondLabelPick(url: string)
    requires !("example:" <= url)
    requires !("git://example" <= url)
    requires !("mylabel" <= url)
    requires "myotherlabel" <= url
    requires !("conflict" <= url)
    requires !("conflict2" <= url)
    requires !("someokish" <= url)
    ensures MatchOf(Rewrites, url, ExampleKey) == None
    ensures MatchOf(Rewrites, url, ProtocolKey) == None
    ensures MatchOf(Rewrites, url, RiaKey) == Some("myotherlabel")
    ensures MatchOf(Rewrites, url, Host1Key) == None
    ensures MatchOf(Rewrites, url, Host2Key) == None
    ensures MatchOf(Rewrites, url, Host3Key) == None
    ensures MatchOf(Rewrites, url, Host4Key) == None
  {
    RewritesTags(url);
  }

  /** So does its second tag. */
  lemma SecondLabelRewrite(url: string, rest: string)
    requires url == "myotherlabel" + rest
    ensures RewriteUrl(Rewrites, url) == Rewrite("ria+ssh://fully.qualified.com" + rest, false)
  {
    SecondLabelTags(url, rest);
    SecondLabelPick(url);
    OnlyRia(Rewrites, url);
    MatchedKeys(url);
    OnlyMatch(Rewrites, url, Keys, RiaKey, "myotherlabel");
    BaseOfKey("ria+ssh://fully.qualified.com");
    assert url[|"myotherlabel"|..] == rest;
  }

  lemma ConflictTags(url: string)
    requires url == "conflict"
    ensures !("example:" <= url)
    ensures !("git://example" <= url)
    ensures !("mylabel" <= url)
    ensures !("myotherlabel" <= url)
    ensures "conflict" <= url
    ensures !("conflict2" <= url)
    ensures !("someokish" <= url)
  {
    NotPrefixAt("example:", url, 0);
    NotPrefixAt("git://example", url, 0);
    NotPrefixAt("mylabel", url, 0);
    NotPrefixAt("myotherlabel", url, 0);
    assert |"conflict2"| > |url|;
    NotPrefixAt("someokish", url, 0);
  }

  lemma ConflictPick(url: string)
    requires !("example:" <= url)
    requires !("git://example" <= url)
    requires !("mylabel" <= url)
    requires !("myotherlabel" <= url)
    requires "conflict" <= url
    requires !("conflict2" <= url)
    requires !("someokish" <= url)
    ensures MatchOf(Rewrites, url, ExampleKey) == None
    ensures MatchOf(Rewrites, url, ProtocolKey) == None
    ensures MatchOf(Rewrites, url, RiaKey) == None
    ensures MatchOf(Rewrites, url, Host1Key) == Some("conflict")
    ensures MatchOf(Rewrites, url, Host2Key) == Some("conflict")
    ensures MatchOf(Rewrites, url, Host3Key) == None
    ensures MatchOf(Rewrites, url, Host4Key) == None
  {
    RewritesTags(url);
  }

  /** The same label for two URLs: no rewrite, and a warning. */
  lemma ConflictIgnored(url: string)
    requires url == "conflict"
    ensures RewriteUrl(Rewrites, url) == Rewrite("conflict", true)
  {
    ConflictTags(url);
    ConflictPick(url);
    HostsOnly(Rewrites, url, |"conflict"|);
    MatchedKeys(url);
    assert Host1Key != Host2Key by { assert Host1Key[15] != Host2Key[15]; }
    SharedMatch(Rewrites, url, Keys, Host1Key, Host2Key, "conflict");
  }

  lemma HiddenConflictTags(url: string)
    requires url == "conflict2"
    ensures !("example:" <= url)
    ensures !("git://example" <= url)
    ensures !("mylabel" <= url)
    ensures !("myotherlabel" <= url)
    ensures "conflict" <= url
    ensures "conflict2" <= url
    ensures !("someokish" <= url)
  {
    NotPrefixAt("example:", url, 0);
    NotPrefixAt("git://example", url, 0);
    NotPrefixAt("mylabel", url, 0);
    NotPrefixAt("myotherlabel", url, 0);
    NotPrefixAt("someokish", url, 0);
  }

  lemma HiddenConflictPick(url: string)
    requires !("example:" <= url)
    requires !("git://example" <= url)
    requires !("mylabel" <= url)
    requires !("myotherlabel" <= url)
    requires "conflict" <= url
    requires "conflict2" <= url
    requires !("someokish" <= url)
    ensures MatchOf(Rewrites, url, ExampleKey) == None
    ensures MatchOf(Rewrites, url, ProtocolKey) == None
    ensures MatchOf(Rewrites, url, RiaKey) == None
    ensures MatchOf(Rewrites, url, Host1Key) == Some("conflict")
    ensures MatchOf(Rewrites, url, Host2Key) == Some("conflict")
    ensures MatchOf(Rewrites, url, Host3Key) == Some("conflict2")
    ensures MatchOf(Rewrites, url, Host4Key) == Some("conflict2")
  {
    RewritesTags(url);
  }

  /**
    A conflict hidden in a multi-valued entry: the longer `conflict2`
    wins over `conflict`, and two URLs claim it.
  */
  lemma HiddenConflictIgnored(url: string)
    requires url == "conflict2"
    ensures RewriteUrl(Rewrites, url) == Rewrite("conflict2", true)
  {
    HiddenConflictTags(url);
    HiddenConflictPick(url);
    HostsOnly(Rewrites, url, |"conflict2"|);
    MatchedKeys(url);
    assert Host3Key != Host4Key by { assert Host3Key[15] != Host4Key[15]; }
    SharedMatch(Rewrites, url, Keys, Host3Key, Host4Key, "conflict2");
  }
}
