/**
  The five write operations (add, set, unset, rename_section, remove_section)
  on one layer. A file-backed layer is changed line by line, as the file
  backend changes the file; the override layer is a map changed in place.
  The lemmas at the end show that both give the same layer, so the override
  layer follows the same rules as a file.
*/
module ConfigMutations {
  import opened Results
  import opened ConfigLayers
  import opened ConfigKeys

  // ---------------------------------------------------------------------------
  // The override layer: operations on a map

  /** `add`: a new value is appended after the values the key already has. */
  function LayerAdd(m: Layer, k: string, v: string): (r: Layer)
    ensures r.Keys == m.Keys + {k}
    ensures r[k] == (if k in m then m[k] else []) + [Some(v)]
    ensures forall k' :: k' in m && k' != k ==> r[k'] == m[k']
  {
    m[k := (if k in m then m[k] else []) + [Some(v)]]
  }

  /**
    `set`: a key with no value or one value gets exactly the new value; a key
    with several values is refused unless `force` replaces them all.
  */
  function LayerSet(m: Layer, k: string, v: string, force: bool): (r: Result<Layer, ConfigError>)
    ensures r.Err? <==> k in m && |m[k]| > 1 && !force
    ensures r.Ok? ==> r.value == m[k := [Some(v)]]
  {
    if k in m && |m[k]| > 1 && !force then Err(CommandError("more than one value for " + k))
    else Ok(m[k := [Some(v)]])
  }

  /** `unset`: every value of the key goes; an absent key is an error. */
  function LayerUnset(m: Layer, k: string): (r: Result<Layer, ConfigError>)
    ensures r.Err? <==> k !in m
    ensures r.Ok? ==> r.value.Keys == m.Keys - {k}
    ensures r.Ok? ==> forall k' :: k' in r.value ==> r.value[k'] == m[k']
  {
    if k !in m then Err(CommandError("no such key: " + k)) else Ok(m - {k})
  }

  predicate LayerHasSection(m: Layer, s: string) {
    exists k :: k in m && SectionOf(k) == Some(s)
  }

  /** The keys of `m` outside section `s`. */
  function Kept(m: Layer, s: string): (r: Layer)
    ensures forall k :: k in r <==> k in m && SectionOf(k) != Some(s)
    ensures forall k :: k in r ==> r[k] == m[k]
  {
    map k | k in m && SectionOf(k) != Some(s) :: m[k]
  }

  /** The keys of section `src` of `m`, renamed into section `dst`. */
  function Moved(m: Layer, src: string, dst: string): (r: Layer)
    ensures forall k :: k in m && SectionOf(k) == Some(src) ==> RenameKey(k, src, dst) in r && r[RenameKey(k, src, dst)] == m[k]
    ensures forall k' :: k' in r ==> exists k :: k in m && SectionOf(k) == Some(src) && RenameKey(k, src, dst) == k'
  {
    assert forall k1, k2 :: (k1 in m && SectionOf(k1) == Some(src) && k2 in m && SectionOf(k2) == Some(src)
      && RenameKey(k1, src, dst) == RenameKey(k2, src, dst)) ==> k1 == k2 by {
      forall k1, k2 | k1 in m && SectionOf(k1) == Some(src) && k2 in m && SectionOf(k2) == Some(src)
        && RenameKey(k1, src, dst) == RenameKey(k2, src, dst)
        ensures k1 == k2
      {
        RenameKeyInjective(k1, k2, src, dst);
      }
    }
    map k | k in m && SectionOf(k) == Some(src) :: RenameKey(k, src, dst) := m[k]
  }

  /** The layer with the keys of section `src` moved, name by name, to section `dst`. */
  function MoveSection(m: Layer, src: string, dst: string): Layer {
    Kept(m, src) + Moved(m, src, dst)
  }

  /** `rename_section`: refused when the layer has no key in section `src`. */
  function LayerRename(m: Layer, src: string, dst: string): (r: Result<Layer, ConfigError>)
    ensures r.Err? <==> !LayerHasSection(m, src)
  {
    if !LayerHasSection(m, src) then Err(CommandError("no such section: " + src))
    else Ok(MoveSection(m, src, dst))
  }

  /** A section with a key in it is always renamed. */
  lemma LayerRenameOk(m: Layer, src: string, dst: string, k: string)
    requires k in m && SectionOf(k) == Some(src)
    ensures LayerRename(m, src, dst) == Ok(MoveSection(m, src, dst))
  {
    assert LayerHasSection(m, src);
  }

  /** `remove_section`: every key of the section goes, the others stay. */
  function LayerRemoveSection(m: Layer, s: string): (r: Layer)
    ensures forall k :: k in r <==> k in m && SectionOf(k) != Some(s)
    ensures forall k :: k in r ==> r[k] == m[k]
  {
    Kept(m, s)
  }

  // ---------------------------------------------------------------------------
  // A file-backed layer: operations on the listing

  function FileAdd(f: Listing, k: string, v: string): Listing {
    f + [Line(k, Some(v))]
  }

  /** The listing without the lines of key `k`. */
  function Without(f: Listing, k: string): Listing
    decreases |f|
  {
    if |f| == 0 then []
    else Without(f[..|f| - 1], k) + (if f[|f| - 1].key == k then [] else [f[|f| - 1]])
  }

  /** The listing with the value of each line of key `k` replaced by `v`, in place. */
  function Replace(f: Listing, k: string, v: string): Listing
    decreases |f|
  {
    if |f| == 0 then []
    else Replace(f[..|f| - 1], k, v) + [if f[|f| - 1].key == k then Line(k, Some(v)) else f[|f| - 1]]
  }

  function FileSet(f: Listing, k: string, v: string, force: bool): Result<Listing, ConfigError> {
    var n := Count(f, k);
    if n == 0 then Ok(FileAdd(f, k, v))
    else if n == 1 then Ok(Replace(f, k, v))
    else if force then Ok(FileAdd(Without(f, k), k, v))
    else Err(CommandError("more than one value for " + k))
  }

  function FileUnset(f: Listing, k: string): Result<Listing, ConfigError> {
    if !Mentions(f, k) then Err(CommandError("no such key: " + k)) else Ok(Without(f, k))
  }

  predicate FileHasSection(f: Listing, s: string) {
    exists i :: 0 <= i < |f| && SectionOf(f[i].key) == Some(s)
  }

  /** Each line of section `src` renamed into section `dst`, in place. */
  function RenameLines(f: Listing, src: string, dst: string): Listing
    decreases |f|
  {
    if |f| == 0 then []
    else RenameLines(f[..|f| - 1], src, dst) + [Line(RenameKey(f[|f| - 1].key, src, dst), f[|f| - 1].value)]
  }

  function FileRename(f: Listing, src: string, dst: string): Result<Listing, ConfigError> {
    if !FileHasSection(f, src) then Err(CommandError("no such section: " + src))
    else Ok(RenameLines(f, src, dst))
  }

  /** The listing without the lines of section `s`. */
  function FileRemoveSection(f: Listing, s: string): Listing
    decreases |f|
  {
    if |f| == 0 then []
    else FileRemoveSection(f[..|f| - 1], s) + (if SectionOf(f[|f| - 1].key) == Some(s) then [] else [f[|f| - 1]])
  }

  // ---------------------------------------------------------------------------
  // What each file operation does to the values of every key

  lemma {:induction false} ValuesOfWithout(f: Listing, k: string, k': string)
    ensures ValuesOf(Without(f, k), k') == if k' == k then [] else ValuesOf(f, k')
    decreases |f|
  {
    if |f| > 0 {
      var init, l := f[..|f| - 1], f[|f| - 1];
      ValuesOfWithout(init, k, k');
      ValuesOfAppend(Without(init, k), if l.key == k then [] else [l], k');
      if l.key != k { ValuesOfSingle(l, k'); } else { assert Without(init, k) + [] == Without(init, k); }
    }
  }

  lemma {:induction false} ValuesOfReplace(f: Listing, k: string, v: string, k': string)
    ensures k' != k ==> ValuesOf(Replace(f, k, v), k') == ValuesOf(f, k')
    ensures k' == k ==> ValuesOf(Replace(f, k, v), k') == seq(Count(f, k), _ => Some(v))
    decreases |f|
  {
    if |f| > 0 {
      var init, l := f[..|f| - 1], f[|f| - 1];
      ValuesOfReplace(init, k, v, k');
      var l' := if l.key == k then Line(k, Some(v)) else l;
      ValuesOfAppend(Replace(init, k, v), [l'], k');
      ValuesOfSingle(l', k');
    }
  }

  lemma {:induction false} ValuesOfRemoveSection(f: Listing, s: string, k': string)
    ensures ValuesOf(FileRemoveSection(f, s), k') == if SectionOf(k') == Some(s) then [] else ValuesOf(f, k')
    decreases |f|
  {
    if |f| > 0 {
      var init, l := f[..|f| - 1], f[|f| - 1];
      ValuesOfRemoveSection(init, s, k');
      var tail := if SectionOf(l.key) == Some(s) then [] else [l];
      ValuesOfAppend(FileRemoveSection(init, s), tail, k');
      if tail == [] { assert FileRemoveSection(init, s) + [] == FileRemoveSection(init, s); }
      else { ValuesOfSingle(l, k'); }
    }
  }

  /** The lines that rename to `k'` are exactly those of key `k0`: `k'` gets `k0`'s values. */
  lemma {:induction false} ValuesOfRenameFrom(f: Listing, src: string, dst: string, k': string, k0: string)
    requires forall i :: 0 <= i < |f| ==> (RenameKey(f[i].key, src, dst) == k' <==> f[i].key == k0)
    ensures ValuesOf(RenameLines(f, src, dst), k') == ValuesOf(f, k0)
    decreases |f|
  {
    if |f| > 0 {
      var init, l := f[..|f| - 1], f[|f| - 1];
      assert forall i :: 0 <= i < |init| ==> init[i] == f[i];
      ValuesOfRenameFrom(init, src, dst, k', k0);
      var l' := Line(RenameKey(l.key, src, dst), l.value);
      ValuesOfAppend(RenameLines(init, src, dst), [l'], k');
      ValuesOfSingle(l', k');
    }
  }

  /** No line renames to `k'`: `k'` has no values afterwards. */
  lemma {:induction false} ValuesOfRenameNone(f: Listing, src: string, dst: string, k': string)
    requires forall i :: 0 <= i < |f| ==> RenameKey(f[i].key, src, dst) != k'
    ensures ValuesOf(RenameLines(f, src, dst), k') == []
    decreases |f|
  {
    if |f| > 0 {
      var init, l := f[..|f| - 1], f[|f| - 1];
      assert forall i :: 0 <= i < |init| ==> init[i] == f[i];
      ValuesOfRenameNone(init, src, dst, k');
      var l' := Line(RenameKey(l.key, src, dst), l.value);
      ValuesOfAppend(RenameLines(init, src, dst), [l'], k');
      ValuesOfSingle(l', k');
    }
  }

  // ---------------------------------------------------------------------------
  // A file operation read back equals the same operation on the layer

  function Read(r: Result<Listing, ConfigError>): Result<Layer, ConfigError> {
    match r
    case Ok(f) => Ok(LayerOf(f))
    case Err(e) => Err(e)
  }

  lemma FileAddIsLayerAdd(f: Listing, k: string, v: string)
    ensures LayerOf(FileAdd(f, k, v)) == LayerAdd(LayerOf(f), k, v)
  {
    LayerOfSnoc(f, Line(k, Some(v)));
  }

  /** Setting a key defined once rewrites that line in place. */
  lemma ReplaceOnce(f: Listing, k: string, v: string)
    requires Count(f, k) == 1
    ensures LayerOf(Replace(f, k, v)) == LayerOf(f)[k := [Some(v)]]
  {
    var t := LayerOf(f)[k := [Some(v)]];
    forall k' ensures ValuesOf(Replace(f, k, v), k') == Lookup(t, k') {
      LookupLayerOf(f, k');
      ValuesOfReplace(f, k, v, k');
      if k' == k {
        assert seq(1, _ => Some(v)) == [Some(v)];
      }
    }
    SameLayer(Replace(f, k, v), t);
  }

  /** Forcing a set drops every line of the key and adds one new line. */
  lemma ReplaceAll(f: Listing, k: string, v: string)
    ensures LayerOf(FileAdd(Without(f, k), k, v)) == LayerOf(f)[k := [Some(v)]]
  {
    var t := LayerOf(f)[k := [Some(v)]];
    forall k' ensures ValuesOf(FileAdd(Without(f, k), k, v), k') == Lookup(t, k') {
      LookupLayerOf(f, k');
      ValuesOfAppend(Without(f, k), [Line(k, Some(v))], k');
      ValuesOfSingle(Line(k, Some(v)), k');
      ValuesOfWithout(f, k, k');
    }
    SameLayer(FileAdd(Without(f, k), k, v), t);
  }

  lemma FileSetIsLayerSet(f: Listing, k: string, v: string, force: bool)
    ensures Read(FileSet(f, k, v, force)) == LayerSet(LayerOf(f), k, v, force)
  {
    LookupLayerOf(f, k);
    var n := Count(f, k);
    if n == 0 {
      FileAddIsLayerAdd(f, k, v);
      assert [] + [Some(v)] == [Some(v)];
    } else if n == 1 {
      ReplaceOnce(f, k, v);
    } else if force {
      ReplaceAll(f, k, v);
    }
  }

  lemma FileUnsetIsLayerUnset(f: Listing, k: string)
    ensures Read(FileUnset(f, k)) == LayerUnset(LayerOf(f), k)
  {
    if Mentions(f, k) {
      var t := LayerOf(f) - {k};
      forall k' ensures ValuesOf(Without(f, k), k') == Lookup(t, k') {
        ValuesOfWithout(f, k, k');
        LookupLayerOf(f, k');
      }
      SameLayer(Without(f, k), t);
    }
  }

  lemma FileRemoveSectionIsLayerRemoveSection(f: Listing, s: string)
    ensures LayerOf(FileRemoveSection(f, s)) == LayerRemoveSection(LayerOf(f), s)
  {
    var t := LayerRemoveSection(LayerOf(f), s);
    forall k' ensures ValuesOf(FileRemoveSection(f, s), k') == Lookup(t, k') {
      ValuesOfRemoveSection(f, s, k');
      LookupLayerOf(f, k');
    }
    SameLayer(FileRemoveSection(f, s), t);
  }

  /**
    Where the values of `k'` come from once section `src` is renamed to `dst`
    and `dst` was not in use: a key of `dst` from the key of `src` with its
    name, a key of `src` from nowhere, any other key from itself.
  */
  function RenameSource(k': string, src: string, dst: string): Option<string> {
    if SectionOf(k') == Some(dst) then Some(Join(src, NameOf(k')))
    else if SectionOf(k') == Some(src) then None
    else Some(k')
  }

  lemma MoveSectionLookup(m: Layer, src: string, dst: string, k': string)
    requires src != dst
    requires forall k :: k in m ==> SectionOf(k) != Some(dst)
    ensures Lookup(MoveSection(m, src, dst), k') ==
      match RenameSource(k', src, dst) case Some(k0) => Lookup(m, k0) case None => []
  {
    var b := MoveSection(m, src, dst);
    if SectionOf(k') == Some(dst) {
      var k0 := Join(src, NameOf(k'));
      SplitKey(k');
      JoinKey(src, NameOf(k'));
      if k0 in m {
        assert RenameKey(k0, src, dst) == k';
      }
      if k' in b {
        var kk :| kk in m && SectionOf(kk) == Some(src) && RenameKey(kk, src, dst) == k';
        RenameKeyParts(kk, src, dst);
        SplitKey(kk);
      }
    } else {
      forall kk | kk in m && SectionOf(kk) == Some(src) ensures RenameKey(kk, src, dst) != k' {
        RenameKeyParts(kk, src, dst);
      }
    }
  }

  /**
    Renaming a section moves a key of it to the renamed key, with its values,
    and the old key is gone.
  */
  lemma MoveSectionKey(m: Layer, src: string, dst: string, k: string)
    requires src != dst && k in m && SectionOf(k) == Some(src)
    ensures k !in MoveSection(m, src, dst)
    ensures RenameKey(k, src, dst) in MoveSection(m, src, dst)
    ensures MoveSection(m, src, dst)[RenameKey(k, src, dst)] == m[k]
  {
    RenameKeyParts(k, src, dst);
    if k in Moved(m, src, dst) {
      var k0 :| k0 in m && SectionOf(k0) == Some(src) && RenameKey(k0, src, dst) == k;
      RenameKeyParts(k0, src, dst);
    }
  }

  lemma RenameLinesValues(f: Listing, src: string, dst: string, k': string)
    requires src != dst
    requires forall i :: 0 <= i < |f| ==> SectionOf(f[i].key) != Some(dst)
    ensures ValuesOf(RenameLines(f, src, dst), k') ==
      match RenameSource(k', src, dst) case Some(k0) => ValuesOf(f, k0) case None => []
  {
    if SectionOf(k') == Some(dst) {
      var k0 := Join(src, NameOf(k'));
      SplitKey(k');
      JoinKey(src, NameOf(k'));
      forall i | 0 <= i < |f| ensures RenameKey(f[i].key, src, dst) == k' <==> f[i].key == k0 {
        if SectionOf(f[i].key) == Some(src) {
          RenameKeyParts(f[i].key, src, dst);
          SplitKey(f[i].key);
        }
      }
      ValuesOfRenameFrom(f, src, dst, k', k0);
    } else if SectionOf(k') == Some(src) {
      forall i | 0 <= i < |f| ensures RenameKey(f[i].key, src, dst) != k' {
        if SectionOf(f[i].key) == Some(src) { RenameKeyParts(f[i].key, src, dst); }
      }
      ValuesOfRenameNone(f, src, dst, k');
    } else {
      forall i | 0 <= i < |f| ensures RenameKey(f[i].key, src, dst) == k' <==> f[i].key == k' {
        if SectionOf(f[i].key) == Some(src) { RenameKeyParts(f[i].key, src, dst); }
      }
      ValuesOfRenameFrom(f, src, dst, k', k');
    }
  }

  /**
    Renaming a section of a file is the same as renaming it in a layer, when
    the target section is not yet in use (otherwise the file keeps both
    sections' lines in their file order, which a map does not record).
  */
  lemma FileRenameIsLayerRename(f: Listing, src: string, dst: string)
    requires forall i :: 0 <= i < |f| ==> SectionOf(f[i].key) != Some(dst)
    ensures Read(FileRename(f, src, dst)) == LayerRename(LayerOf(f), src, dst)
  {
    var m := LayerOf(f);
    assert FileHasSection(f, src) <==> LayerHasSection(m, src) by {
      if FileHasSection(f, src) {
        var i :| 0 <= i < |f| && SectionOf(f[i].key) == Some(src);
        assert Mentions(f, f[i].key);
      }
      if LayerHasSection(m, src) {
        var k :| k in m && SectionOf(k) == Some(src);
        var i :| 0 <= i < |f| && f[i].key == k;
      }
    }
    if FileHasSection(f, src) {
      var i0 :| 0 <= i0 < |f| && SectionOf(f[i0].key) == Some(src);
      assert src != dst;
      assert forall k :: k in m ==> SectionOf(k) != Some(dst);
      var g, t := RenameLines(f, src, dst), MoveSection(m, src, dst);
      forall k' ensures ValuesOf(g, k') == Lookup(t, k') {
        RenameLinesValues(f, src, dst, k');
        MoveSectionLookup(m, src, dst, k');
        match RenameSource(k', src, dst)
        case Some(k0) => LookupLayerOf(f, k0);
        case None =>
      }
      SameLayer(g, t);
    }
  }
}
