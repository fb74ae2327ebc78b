/**
  The example configuration file the tests read, as a listing, and what
  reading it gives.
*/
module ConfigExamples {
  import opened Results
  import opened ConfigLayers
  import opened ConfigKeys
  import opened ConfigQueries
  import opened ConfigObtain

  const User1: Line := Line("something.user", Some("name=Jane Doe"))
  const User2: Line := Line("something.user", Some("email=jd@example.com"))
  const NoValue: Line := Line("something.novalue", None)
  const Empty: Line := Line("something.empty", Some(""))
  const MyInt: Line := Line("something.myint", Some("3"))
  const FindMe: Line := Line("onemore.complicated の beast with.dot.findme", Some("5.0"))

  /** The example file, line by line: a two-valued key, a flag, an empty value, a number. */
  const ExampleFile: Listing := [User1, User2, NoValue, Empty, MyInt, FindMe]

  /** What the example file reads as. */
  const UserValues: Values := [Some("name=Jane Doe"), Some("email=jd@example.com")]
  const NoValueValues: Values := [None]
  const EmptyValues: Values := [Some("")]
  const MyIntValues: Values := [Some("3")]
  const FindMeValues: Values := [Some("5.0")]

  /** What the example file reads as. */
  const SomethingSection: Layer :=
    map[]["something.user" := UserValues]
         ["something.novalue" := NoValueValues]
         ["something.empty" := EmptyValues]
         ["something.myint" := MyIntValues]
  const ExampleStore: Layer := SomethingSection["onemore.complicated の beast with.dot.findme" := FindMeValues]

  lemma ReadUsers()
    ensures LayerOf([User1, User2]) == map["something.user" := UserValues]
  {
    var f0: Listing := [];
    assert LayerOf(f0) == map[];
    LayerOfSnoc(f0, User1);
    assert f0 + [User1] == [User1];
    assert [] + [User1.value] == [User1.value];
    LayerOfSnoc([User1], User2);
    assert [User1] + [User2] == [User1, User2];
    assert [User1.value] + [User2.value] == UserValues;
  }

  lemma ReadFlagAndEmpty()
    ensures LayerOf([User1, User2, NoValue, Empty]) == map["something.user" := UserValues]["something.novalue" := NoValueValues]["something.empty" := EmptyValues]
  {
    ReadUsers();
    LayerOfSnoc([User1, User2], NoValue);
    assert |NoValue.key| != |User1.key| && |Empty.key| != |User1.key| && |Empty.key| != |NoValue.key|;
    assert [] + [NoValue.value] == NoValueValues && [] + [Empty.value] == EmptyValues;
    assert [User1, User2] + [NoValue] == [User1, User2, NoValue];
    LayerOfSnoc([User1, User2, NoValue], Empty);
    assert [User1, User2, NoValue] + [Empty] == [User1, User2, NoValue, Empty];
  }

  lemma ReadSomething()
    ensures LayerOf([User1, User2, NoValue, Empty, MyInt]) == SomethingSection
  {
    ReadFlagAndEmpty();
    LayerOfSnoc([User1, User2, NoValue, Empty], MyInt);
    assert |MyInt.key| != |User1.key| && |MyInt.key| != |NoValue.key| && MyInt.key[10] != Empty.key[10];
    assert [] + [MyInt.value] == MyIntValues;
    assert [User1, User2, NoValue, Empty] + [MyInt] == [User1, User2, NoValue, Empty, MyInt];
  }

  /** Reading the file line by line gives the store above. */
  lemma ExampleFileLayer()
    ensures LayerOf(ExampleFile) == ExampleStore
  {
    ReadSomething();
    LayerOfSnoc([User1, User2, NoValue, Empty, MyInt], FindMe);
    assert FindMe.key !in SomethingSection by {
      assert FindMe.key[0] != User1.key[0] && FindMe.key[0] != NoValue.key[0];
      assert FindMe.key[0] != Empty.key[0] && FindMe.key[0] != MyInt.key[0];
    }
    assert [] + [FindMe.value] == FindMeValues;
    assert [User1, User2, NoValue, Empty, MyInt] + [FindMe] == ExampleFile;
  }

  /** Five distinct keys; the two-valued one reads as both values, in file order. */
  lemma ExampleReads()
    ensures Len(ExampleStore) == 5
    ensures Get(ExampleStore, "something.user") == Some(Multi([Some("name=Jane Doe"), Some("email=jd@example.com")]))
    ensures Get(ExampleStore, "something.novalue") == Some(Flag)
    ensures Get(ExampleStore, "something.empty") == Some(Scalar(""))
    ensures GetItem(ExampleStore, "somedthing.user") == Err(KeyError("somedthing.user"))
  {
    assert ExampleStore.Keys == {"something.user", "something.novalue", "something.empty", "something.myint", "onemore.complicated の beast with.dot.findme"};
  }

  /** The typed reads of the example. */
  lemma ExampleTypedReads()
    ensures GetInt(ExampleStore, "something", "myint") == Ok(3)
    ensures GetBool(ExampleStore, "something", "myint", None) == Ok(true)
    ensures GetBool(ExampleStore, "something", "novalue", None) == Ok(true)
    ensures GetBool(ExampleStore, "something", "empty", None) == Ok(false)
    ensures GetBool(ExampleStore, "doesnot", "exist", Some(true)) == Ok(true)
    ensures GetBool(ExampleStore, "something", "user", None).Err?
    ensures GetBool(ExampleStore, "something", "user", None).error.TypeError?
    ensures GetValue(ExampleStore, "doesnot", "exist", Some(Scalar("oohaaa"))) == Ok(Scalar("oohaaa"))
    ensures GetValue(ExampleStore, "doesnot", "exist", None) == Err(KeyError("doesnot.exist"))
  {
    assert Join("something", "myint") == "something.myint";
    assert Join("something", "novalue") == "something.novalue";
    assert Join("something", "empty") == "something.empty";
    assert Join("something", "user") == "something.user";
    assert Join("doesnot", "exist") == "doesnot.exist";
    assert "doesnot.exist"[0] == 'd';
  }

  /** Sections are prefix tests; options are exact keys. */
  lemma ExampleSections()
    ensures HasSection(ExampleStore, "something")
    ensures !HasSection(ExampleStore, "somethingelse")
    ensures HasOption(ExampleStore, "something", "user")
    ensures !HasOption(ExampleStore, "something", "us?er")
    ensures !HasOption(ExampleStore, "some?thing", "user")
  {
    assert "something.user" in ExampleStore && "something" <= "something.user";
    forall k | k in ExampleStore
      ensures !("somethingelse" <= k)
    {
      assert k[0] == 'o' || k[9] == '.';
    }
    assert Join("something", "user") == "something.user";
    assert Join("something", "us?er") == "something.us?er";
    assert Join("some?thing", "user") == "some?thing.user";
    assert "something.us?er"[11] == 's' && "some?thing.user"[4] == '?';
  }

  const Dummy: string := "datalad.test.dummy"
  const DummyStore: Layer := map[Dummy := [Some("5.3")]]

  /** The prior knowledge the tests build up step by step, with `int` in place of `float`. */
  const TypeDef: Definition := Definition(Some(IntType), None, None, None)
  const AskDef: Definition := TypeDef.(dialog := Some("question"))
  const BrokenDef: Definition := AskDef.(destination := Some("broken"))
  const DatasetDef: Definition := AskDef.(destination := Some("dataset"))

  /** No user interface, and the test interface answering `response`. */
  const NoUi: Ui := Ui(false, {}, None)
  function TestUi(response: Option<string>): Ui {
    Ui(true, {"question"}, response)
  }

  /** `obtain` with nothing to ask: the value in the store, as it is or converted. */
  lemma ObtainExamples()
    ensures Decide(map[], map[], Dummy, None, None, None, false, None, NoUi) == Fail(RuntimeError("cannot obtain value for " + Dummy + ": not preconfigured, no default, no UI"))
    ensures Decide(DummyStore, map[], Dummy, None, None, None, false, None, NoUi) == Done(AsIs(Scalar("5.3")))
    ensures Decide(DummyStore, map[], Dummy, None, None, Some(IntType), false, None, NoUi).Fail?
    ensures Decide(DummyStore, map[], Dummy, None, None, Some(IntType), false, None, NoUi).error.ValueError?
    ensures Decide(map[Dummy := [Some("5")]], map[Dummy := TypeDef], Dummy, None, None, None, false, None, NoUi) == Done(IntValue(5))
    ensures Decide(map[], map[Dummy := TypeDef], Dummy, None, None, None, false, None, NoUi).Fail?
    ensures Decide(map[], map[Dummy := TypeDef], Dummy, None, None, None, false, None, NoUi).error.RuntimeError?
  {
    assert ParseInt("5") == Ok(5);
    assert !AllDigits("5.3") by { assert !IsDigit("5.3"[1]); }
    assert "5.3"[0] != '-' && "5.3"[0] != '+';
  }

  /** `obtain` asking the user: an unknown dialog, a dialog given or predefined, a malformed answer. */
  lemma ObtainAskExamples()
    ensures Decide(map[], map[Dummy := TypeDef], Dummy, None, Some("Rorschach_test"), None, false, None, TestUi(None)).Fail?
    ensures Decide(map[], map[Dummy := TypeDef], Dummy, None, Some("Rorschach_test"), None, false, None, TestUi(None)).error.ValueError?
    ensures Decide(map[], map[Dummy := TypeDef], Dummy, None, Some("question"), None, false, None, TestUi(Some("5"))) == Done(IntValue(5))
    ensures Decide(map[], map[Dummy := AskDef], Dummy, None, None, None, false, None, TestUi(Some("5"))) == Done(IntValue(5))
    ensures Decide(map[], map[Dummy := AskDef], Dummy, None, None, None, false, None, TestUi(Some("murks"))).Fail?
    ensures Decide(map[], map[Dummy := AskDef], Dummy, None, None, None, false, None, TestUi(Some("murks"))).error.ValueError?
  {
    assert ParseInt("5") == Ok(5);
    assert !AllDigits("murks") by { assert !IsDigit("murks"[0]); }
    assert "murks"[0] != '-' && "murks"[0] != '+';
  }

  /** `obtain(..., store=True)`: no destination fails without asking; with one the answer is to be stored there. */
  lemma ObtainStoreExamples()
    ensures Decide(map[], map[Dummy := AskDef], Dummy, None, None, None, true, None, TestUi(None)).Fail?
    ensures Decide(map[], map[Dummy := AskDef], Dummy, None, None, None, true, None, TestUi(None)).error.ValueError?
    ensures Decide(map[], map[Dummy := BrokenDef], Dummy, None, None, None, true, None, TestUi(Some("5"))) == StoreThen(IntValue(5), "broken", "5")
    ensures Decide(map[], map[Dummy := DatasetDef], Dummy, None, None, None, true, None, TestUi(Some("5"))) == StoreThen(IntValue(5), "dataset", "5")
  {
    assert ParseInt("5") == Ok(5);
  }
}
