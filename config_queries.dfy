/**
  The read-only surface of the merged view: `get`, `cfg[key]`, `get_value`,
  `getint`, `getbool`, `has_section`, `has_option`, `sections`, `options`,
  `items` and `len`.
*/
module ConfigQueries {
  import opened Results
  import opened ConfigLayers
  import opened ConfigKeys

  /** What a read returns: a flag (`None`), one string, or all values of a multi-valued key. */
  datatype Value = Flag | Scalar(text: string) | Multi(items: seq<Entry>)

  /** How a key's values are presented to a reader. */
  function View(vs: Values): (v: Value)
    ensures v == Flag <==> vs == [None]
    ensures v.Scalar? <==> |vs| == 1 && vs[0].Some?
    ensures v.Scalar? ==> vs == [Some(v.text)]
    ensures v.Multi? <==> |vs| > 1
    ensures v.Multi? ==> v.items == vs
  {
    if |vs| > 1 then Multi(vs)
    else match vs[0]
      case None => Flag
      case Some(t) => Scalar(t)
  }

  /** `get(key)`: the key's value, or nothing when it is absent. */
  function Get(store: Layer, k: string): (r: Option<Value>)
    ensures r.Some? <==> k in store
    ensures r.Some? ==> r.value == View(store[k])
  {
    if k in store then Some(View(store[k])) else None
  }

  /** `cfg[key]`: like `get`, but an absent key raises `KeyError`. */
  function GetItem(store: Layer, k: string): (r: Result<Value, ConfigError>)
    ensures r.Err? <==> k !in store
    ensures r.Err? ==> r.error == KeyError(k)
    ensures r.Ok? ==> Get(store, k) == Some(r.value)
  {
    if k in store then Ok(View(store[k])) else Err(KeyError(k))
  }

  /**
    `get_value(section, option, default)`: an absent key gives the default,
    but a default of `None` counts as no default and raises `KeyError`.
  */
  function GetValue(store: Layer, section: string, option: string, default: Option<Value>): (r: Result<Value, ConfigError>)
    ensures Join(section, option) in store ==> r == GetItem(store, Join(section, option))
    ensures Join(section, option) !in store && default.Some? ==> r == Ok(default.value)
    ensures Join(section, option) !in store && default.None? ==> r == Err(KeyError(Join(section, option)))
  {
    var k := Join(section, option);
    if k in store then Ok(View(store[k]))
    else if default.Some? then Ok(default.value)
    else Err(KeyError(k))
  }

  // ---------------------------------------------------------------------------
  // Characters and numbers

  /** ASCII lower case. */
  function LowerChar(c: char): char {
    if 'A' <= c <= 'Z' then (c as int + 32) as char else c
  }

  function Lower(s: string): (r: string)
    ensures |r| == |s|
    ensures forall i :: 0 <= i < |s| ==> r[i] == LowerChar(s[i])
  {
    seq(|s|, i requires 0 <= i < |s| => LowerChar(s[i]))
  }

  predicate IsDigit(c: char) {
    '0' <= c <= '9'
  }

  predicate AllDigits(s: string) {
    forall i :: 0 <= i < |s| ==> IsDigit(s[i])
  }

  /** The number a string of decimal digits denotes. */
  function DigitsValue(s: string): (n: nat)
    requires AllDigits(s)
    ensures n == 0 <==> forall i :: 0 <= i < |s| ==> s[i] == '0'
    decreases |s|
  {
    if |s| == 0 then 0
    else
      assert forall i :: 0 <= i < |s| - 1 ==> s[..|s| - 1][i] == s[i];
      DigitsValue(s[..|s| - 1]) * 10 + (s[|s| - 1] as int - '0' as int)
  }

  /** `int(text)`: an optional sign and at least one decimal digit, else `ValueError`. */
  function ParseInt(s: string): (r: Result<int, ConfigError>)
    ensures r.Ok? <==> (|s| > 0 && AllDigits(s)) || (|s| > 1 && (s[0] == '-' || s[0] == '+') && AllDigits(s[1..]))
    ensures r.Ok? && AllDigits(s) ==> r.value == DigitsValue(s)
    ensures r.Ok? && s[0] == '-' ==> r.value == -(DigitsValue(s[1..]) as int)
    ensures r.Ok? && s[0] == '+' ==> r.value == DigitsValue(s[1..])
  {
    if |s| > 0 && (s[0] == '-' || s[0] == '+') && |s| > 1 && AllDigits(s[1..]) then
      var n: int := DigitsValue(s[1..]);
      Ok(if s[0] == '-' then -n else n)
    else if |s| > 0 && AllDigits(s) then Ok(DigitsValue(s))
    else Err(ValueError("invalid literal for int(): " + s))
  }

  /** `str(n)`: the decimal notation of an integer. */
  function NatToString(n: nat): (s: string)
    ensures |s| > 0 && AllDigits(s)
    decreases n
  {
    var d := [(n % 10 + '0' as int) as char];
    if n < 10 then d else NatToString(n / 10) + d
  }

  function IntToString(n: int): string {
    if n < 0 then "-" + NatToString(-n) else NatToString(n)
  }

  lemma {:induction false} NatToStringValue(n: nat)
    ensures DigitsValue(NatToString(n)) == n
    decreases n
  {
    var s := NatToString(n);
    if n >= 10 {
      NatToStringValue(n / 10);
      assert s[..|s| - 1] == NatToString(n / 10);
    }
  }

  lemma NatRoundTrip(n: nat)
    ensures ParseInt(NatToString(n)) == Ok(n)
  {
    NatToStringValue(n);
    var s := NatToString(n);
    assert IsDigit(s[0]);
  }

  lemma NegRoundTrip(n: nat)
    requires n > 0
    ensures ParseInt("-" + NatToString(n)) == Ok(0 - n as int)
  {
    NatToStringValue(n);
    var d := NatToString(n);
    var s := "-" + d;
    assert s[1..] == d;
    assert s[0] == '-' && |s| > 1 && AllDigits(s[1..]);
  }

  /** Reading back the written notation of a number gives the number. */
  lemma IntRoundTrip(n: int)
    ensures ParseInt(IntToString(n)) == Ok(n)
  {
    if n < 0 {
      NegRoundTrip(-n);
    } else {
      NatRoundTrip(n);
    }
  }

  // ---------------------------------------------------------------------------
  // Typed reads

  predicate IsFalseWord(t: string) {
    t == "off" || t == "no" || t == "false" || t == "0"
  }

  predicate IsTrueWord(t: string) {
    t == "on" || t == "yes" || t == "true"
  }

  /** A non-empty string of decimal digits that is not zero, such as `3`. */
  predicate IsNonZeroNumber(t: string) {
    |t| > 0 && AllDigits(t) && DigitsValue(t) != 0
  }

  /**
    The lenient reading of a string as a boolean, ignoring case: the empty
    string and `off`, `no`, `false`, `0` are false; `on`, `yes`, `true` and a
    non-zero number are true; anything else raises `TypeError`.
  */
  function AnythingToBool(s: string): (r: Result<bool, ConfigError>)
    ensures r == Ok(false) <==> s == "" || IsFalseWord(Lower(s))
    ensures r == Ok(true) <==> !IsFalseWord(Lower(s)) && (IsTrueWord(Lower(s)) || IsNonZeroNumber(Lower(s)))
    ensures r.Err? ==> r.error.TypeError?
  {
    var t := Lower(s);
    if IsFalseWord(t) || t == "" then Ok(false)
    else if IsTrueWord(t) || IsNonZeroNumber(t) then Ok(true)
    else Err(TypeError("cannot interpret as a boolean: " + s))
  }

  /**
    `getbool(section, option, default)`: a flag is true, one string is read
    leniently, several values raise `TypeError`; an absent key gives the
    default, and with no default reads as the `None` that `get` returns,
    which is true.
  */
  function GetBool(store: Layer, section: string, option: string, default: Option<bool>): (r: Result<bool, ConfigError>)
    ensures Get(store, Join(section, option)) == Some(Flag) ==> r == Ok(true)
    ensures (forall t :: Get(store, Join(section, option)) == Some(Scalar(t)) ==> r == AnythingToBool(t))
    ensures Join(section, option) in store && |store[Join(section, option)]| > 1 ==> r.Err? && r.error.TypeError?
    ensures Join(section, option) !in store ==> r == Ok(if default.Some? then default.value else true)
  {
    match Get(store, Join(section, option))
    case None => Ok(if default.Some? then default.value else true)
    case Some(Flag) => Ok(true)
    case Some(Scalar(t)) => AnythingToBool(t)
    case Some(Multi(_)) => Err(TypeError("multiple values for " + Join(section, option)))
  }

  /** `getint(section, option)`: the single value read as an integer. */
  function GetInt(store: Layer, section: string, option: string): (r: Result<int, ConfigError>)
    ensures Join(section, option) !in store ==> r == Err(KeyError(Join(section, option)))
    ensures (forall t :: Get(store, Join(section, option)) == Some(Scalar(t)) ==> r == ParseInt(t))
    ensures r.Ok? ==> exists t :: Get(store, Join(section, option)) == Some(Scalar(t)) && ParseInt(t) == r
  {
    match GetValue(store, section, option, None)
    case Err(e) => Err(e)
    case Ok(Scalar(t)) => ParseInt(t)
    case Ok(_) => Err(TypeError("not a single value: " + Join(section, option)))
  }

  // ---------------------------------------------------------------------------
  // Sections and options

  /** `has_section(s)`: some key starts with `s` (a plain prefix test, no patterns). */
  predicate HasSection(store: Layer, s: string) {
    exists k :: k in store && s <= k
  }

  /** `has_option(section, option)`: exactly the key `section.option` is present. */
  predicate HasOption(store: Layer, section: string, option: string) {
    Join(section, option) in store
  }

  /** `sections()`: the section of every key. */
  function Sections(store: Layer): set<string> {
    set k | k in store && SectionOf(k).Some? :: SectionOf(k).value
  }

  /** `options(section)`: the names of the keys whose section is exactly `section`. */
  function Options(store: Layer, section: string): set<string> {
    set k | k in store && SectionOf(k) == Some(section) :: NameOf(k)
  }

  /** `items(section)`: the keys of exactly that section with their values. */
  function Items(store: Layer, section: string): (r: map<string, Value>)
    ensures forall k :: k in r <==> k in store && SectionOf(k) == Some(section)
    ensures forall k :: k in r ==> r[k] == View(store[k])
  {
    map k | k in store && SectionOf(k) == Some(section) :: View(store[k])
  }

  /** `len(cfg)`: the number of distinct keys. */
  function Len(store: Layer): nat {
    |store.Keys|
  }

  /** An option is listed for a section exactly when the key `section.option` is present. */
  lemma OptionsExact(store: Layer, section: string, option: string)
    requires '.' !in option
    ensures option in Options(store, section) <==> HasOption(store, section, option)
  {
    JoinKey(section, option);
    if option in Options(store, section) {
      var k :| k in store && SectionOf(k) == Some(section) && NameOf(k) == option;
      SplitKey(k);
    }
  }

  /** A section is listed exactly when it has an option. */
  lemma SectionsHaveOptions(store: Layer, section: string)
    ensures section in Sections(store) <==> Options(store, section) != {}
  {
    if section in Sections(store) {
      var k :| k in store && SectionOf(k).Some? && SectionOf(k).value == section;
      assert NameOf(k) in Options(store, section);
    }
  }

  /** A present option implies its section is present. */
  lemma HasOptionHasSection(store: Layer, section: string, option: string)
    requires HasOption(store, section, option)
    ensures HasSection(store, section)
  {
    assert section <= Join(section, option);
  }
}
