/**
  The structure of a configuration key `section.name` (the section may itself
  hold dots, as in `onemore.complicated の beast with.dot.findme`): the name is
  what follows the last dot, the section everything before it.
*/
module ConfigKeys {
  import opened Results

  /** The position of the last dot of `k`, if any. */
  function LastDot(k: string): (r: Option<nat>)
    ensures r.Some? ==> r.value < |k| && k[r.value] == '.'
    ensures r.Some? ==> forall j :: r.value < j < |k| ==> k[j] != '.'
    ensures r.None? ==> forall j :: 0 <= j < |k| ==> k[j] != '.'
    decreases |k|
  {
    if |k| == 0 then None
    else if k[|k| - 1] == '.' then Some(|k| - 1)
    else LastDot(k[..|k| - 1])
  }

  /** The section of a key; a key without a dot belongs to no section. */
  function SectionOf(k: string): Option<string> {
    match LastDot(k)
    case Some(i) => Some(k[..i])
    case None => None
  }

  /** The option name of a key within its section. */
  function NameOf(k: string): string {
    match LastDot(k)
    case Some(i) => k[i + 1..]
    case None => k
  }

  /** Joining a section and a dot-free name gives a key with exactly that section and name. */
  /** The key of option `name` in section `section`. */
  function Join(section: string, name: string): string {
    section + "." + name
  }

  lemma JoinKey(s: string, n: string)
    requires '.' !in n
    ensures SectionOf(Join(s, n)) == Some(s)
    ensures NameOf(Join(s, n)) == n
  {
    var k := Join(s, n);
    assert k[|s|] == '.';
    forall j | |s| < j < |k| ensures k[j] != '.' {
      assert k[j] == n[j - |s| - 1];
    }
    assert LastDot(k) == Some(|s|);
    assert k[..|s|] == s;
    assert k[|s| + 1..] == n;
  }

  /** A key that has a section is that section, a dot and a dot-free name. */
  lemma SplitKey(k: string)
    requires SectionOf(k).Some?
    ensures k == Join(SectionOf(k).value, NameOf(k))
    ensures '.' !in NameOf(k)
  {
    var i := LastDot(k).value;
    assert k == k[..i] + "." + k[i + 1..];
    forall c | c in NameOf(k) ensures c != '.' {
      var j :| 0 <= j < |NameOf(k)| && NameOf(k)[j] == c;
      assert k[i + 1 + j] == c;
    }
  }

  /** The key `k` becomes when section `src` is renamed to `dst`. */
  function RenameKey(k: string, src: string, dst: string): string {
    if SectionOf(k) == Some(src) then Join(dst, NameOf(k)) else k
  }

  /** Renaming moves the keys of section `src` into section `dst` and keeps their names. */
  lemma RenameKeyParts(k: string, src: string, dst: string)
    requires SectionOf(k) == Some(src)
    ensures SectionOf(RenameKey(k, src, dst)) == Some(dst)
    ensures NameOf(RenameKey(k, src, dst)) == NameOf(k)
  {
    SplitKey(k);
    JoinKey(dst, NameOf(k));
  }

  /** Two keys of section `src` that rename to the same key were the same key. */
  lemma RenameKeyInjective(k1: string, k2: string, src: string, dst: string)
    requires SectionOf(k1) == Some(src) && SectionOf(k2) == Some(src)
    requires RenameKey(k1, src, dst) == RenameKey(k2, src, dst)
    ensures k1 == k2
  {
    RenameKeyParts(k1, src, dst);
    RenameKeyParts(k2, src, dst);
    SplitKey(k1);
    SplitKey(k2);
  }

  /** The keys of `s` after renaming section `src` to `dst`. */
  function Renamed(s: set<string>, src: string, dst: string): set<string> {
    set k | k in s :: RenameKey(k, src, dst)
  }

  /** Renaming a set of keys of section `src` gives as many keys as there were. */
  lemma {:induction false} RenameImageSize(s: set<string>, src: string, dst: string)
    requires forall k :: k in s ==> SectionOf(k) == Some(src)
    ensures |Renamed(s, src, dst)| == |s|
    decreases |s|
  {
    if s != {} {
      var x :| x in s;
      var rest := s - {x};
      var rx := RenameKey(x, src, dst);
      RenameImageSize(rest, src, dst);
      assert rx !in Renamed(rest, src, dst) by {
        forall k | k in rest
          ensures RenameKey(k, src, dst) != rx
        {
          if RenameKey(k, src, dst) == rx {
            RenameKeyInjective(k, x, src, dst);
          }
        }
      }
      assert Renamed(s, src, dst) == Renamed(rest, src, dst) + {rx} by {
        forall k | k in Renamed(s, src, dst)
          ensures k in Renamed(rest, src, dst) + {rx}
        {
          var k0 :| k0 in s && RenameKey(k0, src, dst) == k;
          if k0 != x {
            assert k0 in rest;
          }
        }
      }
    }
  }
}
