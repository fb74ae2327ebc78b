/**
  The values of a configuration layer: what one configuration file (as the
  backend lists it) or the in-memory override layer holds, and how layers are
  merged into one view. A key may carry several values (it was defined several
  times in one file) and a value may be missing (a bare flag such as `novalue`).
*/
module ConfigLayers {
  import opened Results

  /** One value of a key: `None` stands for a key written without `=`. */
  type Entry = Option<string>

  /** All values of one key in one layer, in file order; never empty. */
  type Values = vs: seq<Entry> | |vs| > 0 witness [None]

  /** A layer: each key it defines, with its values. */
  type Layer = map<string, Values>

  /** The errors the configuration manager raises; `CommandError` is a failure of the file backend. */
  datatype ConfigError =
    | ValueError(msg: string)
    | KeyError(key: string)
    | TypeError(msg: string)
    | RuntimeError(msg: string)
    | CommandError(msg: string)

  /** One line of the backend's listing of a file: a key and its value. */
  datatype Line = Line(key: string, value: Entry)

  /** A configuration file, as the ordered list of its definitions. */
  type Listing = seq<Line>

  // ---------------------------------------------------------------------------
  // From a listing to a layer

  predicate Mentions(f: Listing, k: string) {
    exists i :: 0 <= i < |f| && f[i].key == k
  }

  /** The values `f` gives the key `k`, in the order the lines appear. */
  function ValuesOf(f: Listing, k: string): seq<Entry>
    decreases |f|
  {
    if |f| == 0 then []
    else ValuesOf(f[..|f| - 1], k) + (if f[|f| - 1].key == k then [f[|f| - 1].value] else [])
  }

  /** The number of lines of `f` that define `k`. */
  function Count(f: Listing, k: string): nat {
    |ValuesOf(f, k)|
  }

  lemma {:induction false} ValuesOfMentions(f: Listing, k: string)
    ensures |ValuesOf(f, k)| > 0 <==> Mentions(f, k)
    decreases |f|
  {
    if |f| > 0 {
      var init := f[..|f| - 1];
      ValuesOfMentions(init, k);
      if Mentions(init, k) {
        var i :| 0 <= i < |init| && init[i].key == k;
        assert f[i].key == k;
      }
      if Mentions(f, k) && f[|f| - 1].key != k {
        var i :| 0 <= i < |f| && f[i].key == k;
        assert init[i].key == k;
      }
    }
  }

  /** File order is kept: the values of a concatenation are those of its parts, in turn. */
  lemma {:induction false} ValuesOfAppend(f: Listing, g: Listing, k: string)
    ensures ValuesOf(f + g, k) == ValuesOf(f, k) + ValuesOf(g, k)
    decreases |g|
  {
    if |g| == 0 {
      assert f + g == f;
    } else {
      var g' := g[..|g| - 1];
      assert (f + g)[..|f + g| - 1] == f + g';
      ValuesOfAppend(f, g', k);
    }
  }

  lemma ValuesOfSingle(l: Line, k: string)
    ensures ValuesOf([l], k) == if l.key == k then [l.value] else []
  {
    assert [l][..0] == [];
  }

  function KeysOf(f: Listing): set<string> {
    set i | 0 <= i < |f| :: f[i].key
  }

  /** The layer a listing stands for: each key it mentions, with all its values in file order. */
  function LayerOf(f: Listing): (m: Layer)
    ensures forall k :: k in m <==> Mentions(f, k)
    ensures forall k :: k in m ==> m[k] == ValuesOf(f, k)
  {
    LayerOfWellDefined(f);
    map k | k in KeysOf(f) :: ValuesOf(f, k)
  }

  lemma LayerOfWellDefined(f: Listing)
    ensures forall k :: k in KeysOf(f) <==> Mentions(f, k)
    ensures forall k :: k in KeysOf(f) ==> |ValuesOf(f, k)| > 0
  {
    forall k ensures k in KeysOf(f) <==> Mentions(f, k) {
      if Mentions(f, k) {
        var i :| 0 <= i < |f| && f[i].key == k;
        assert f[i].key in KeysOf(f);
      }
    }
    forall k | k in KeysOf(f) ensures |ValuesOf(f, k)| > 0 {
      ValuesOfMentions(f, k);
    }
  }

  /** The values a layer gives a key, none when it does not define it. */
  function Lookup(m: Layer, k: string): seq<Entry> {
    if k in m then m[k] else []
  }

  lemma LookupLayerOf(f: Listing, k: string)
    ensures Lookup(LayerOf(f), k) == ValuesOf(f, k)
  {
    if k !in LayerOf(f) { NotMentionedNoValues(f, k); }
  }

  /** A listing stands for a layer when it gives every key that layer's values. */
  lemma SameLayer(f: Listing, m: Layer)
    requires forall k :: ValuesOf(f, k) == Lookup(m, k)
    ensures LayerOf(f) == m
  {
    var a := LayerOf(f);
    forall k ensures (k in a <==> k in m) && (k in a ==> a[k] == m[k]) {
      ValuesOfMentions(f, k);
      assert ValuesOf(f, k) == Lookup(m, k);
    }
  }

  /** A key absent from a listing has no values there. */
  lemma NotMentionedNoValues(f: Listing, k: string)
    requires !Mentions(f, k)
    ensures ValuesOf(f, k) == []
  {
    ValuesOfMentions(f, k);
  }

  /** Reading one more line appends its value to its key and leaves every other key alone. */
  lemma LayerOfSnoc(f: Listing, l: Line)
    ensures LayerOf(f + [l]) == LayerOf(f)[l.key := (if l.key in LayerOf(f) then LayerOf(f)[l.key] else []) + [l.value]]
  {
    var a, b := LayerOf(f + [l]), LayerOf(f);
    var c := b[l.key := (if l.key in b then b[l.key] else []) + [l.value]];
    forall k ensures (k in a <==> k in c) && (k in a ==> a[k] == c[k]) {
      ValuesOfAppend(f, [l], k);
      ValuesOfSingle(l, k);
      ValuesOfMentions(f + [l], k);
      ValuesOfMentions(f, k);
      if k !in b { NotMentionedNoValues(f, k); }
    }
  }

  /**
    Reading a listing line by line, as the manager does on reload: a key met
    again gets the new value appended after the ones already read.
  */
  method ParseListing(f: Listing) returns (m: Layer)
    ensures m == LayerOf(f)
  {
    m := map[];
    var i := 0;
    assert f[..0] == [];
    while i < |f|
      invariant 0 <= i <= |f|
      invariant m == LayerOf(f[..i])
    {
      var l := f[i];
      LayerOfSnoc(f[..i], l);
      assert f[..i + 1] == f[..i] + [l];
      m := m[l.key := (if l.key in m then m[l.key] else []) + [l.value]];
      i := i + 1;
    }
    assert f[..i] == f;
  }

  // ---------------------------------------------------------------------------
  // Merging layers

  /** Layers merged in precedence order, lowest first: a later layer replaces a key's whole value set. */
  function Merge(layers: seq<Layer>): Layer
    decreases |layers|
  {
    if |layers| == 0 then map[]
    else Merge(layers[..|layers| - 1]) + layers[|layers| - 1]
  }

  lemma {:induction false} MergeKeys(layers: seq<Layer>, k: string)
    ensures k in Merge(layers) <==> exists i :: 0 <= i < |layers| && k in layers[i]
    decreases |layers|
  {
    if |layers| > 0 {
      var init := layers[..|layers| - 1];
      MergeKeys(init, k);
      if k in Merge(init) {
        var i :| 0 <= i < |init| && k in init[i];
        assert k in layers[i];
      }
      if (exists i :: 0 <= i < |layers| && k in layers[i]) && k !in layers[|layers| - 1] {
        var i :| 0 <= i < |layers| && k in layers[i];
        assert k in init[i];
      }
    }
  }

  /** The merged value of a key is the one of the highest layer that defines it. */
  lemma {:induction false} MergeTopmost(layers: seq<Layer>, j: nat, k: string)
    requires j < |layers| && k in layers[j]
    requires forall i :: j < i < |layers| ==> k !in layers[i]
    ensures k in Merge(layers) && Merge(layers)[k] == layers[j][k]
    decreases |layers|
  {
    if j < |layers| - 1 {
      var init := layers[..|layers| - 1];
      MergeTopmost(init, j, k);
    }
  }

  /** A key that no layer defines is absent from the merged view. */
  lemma MergeAbsent(layers: seq<Layer>, k: string)
    requires forall i :: 0 <= i < |layers| ==> k !in layers[i]
    ensures k !in Merge(layers)
  {
    MergeKeys(layers, k);
  }
}
