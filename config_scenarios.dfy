/**
  Sequences of calls on fresh managers, as the tests make them: asking for
  a value and storing it, and reading the environment.
*/
module ConfigScenarios {
  import opened Results
  import opened ConfigLayers
  import opened ConfigQueries
  import opened ConfigSources
  import opened ConfigMutations
  import opened ConfigObtain
  import opened ConfigManagerModel
  import opened ConfigExamples

  /** With no files, no overrides and no environment, nothing is configured. */
  lemma NothingConfigured(ids: seq<FileId>, source: Source)
    ensures MergedStore(map[], ids, map[], [], source) == map[]
  {
    forall k
      ensures k !in MergedStore(map[], ids, map[], [], source)
    {
      StoreKeys(map[], ids, map[], [], source, k);
    }
  }

  /** The dataset file holding the one stored line. */
  function StoredFiles(p: string): map<FileId, Listing> {
    map[DatasetFile(p) := [Line(Dummy, Some("5"))]]
  }

  lemma StoredOutcome(p: string)
    ensures Outcome(SetOp(Dummy, "5", false), "broken", Some(p), map[], map[]).Err?
    ensures Outcome(SetOp(Dummy, "5", false), "broken", Some(p), map[], map[]).error.ValueError?
    ensures Outcome(SetOp(Dummy, "5", false), "dataset", Some(p), map[], map[]) == Ok((StoredFiles(p), map[]))
  {
    var line := Line(Dummy, Some("5"));
    assert Count([], Dummy) == 0;
    assert FileAdd([], Dummy, "5") == [line];
    assert map[][DatasetFile(p) := [line]] == StoredFiles(p);
  }

  /** Once stored in the dataset file, the value is what the manager reads. */
  lemma StoredVisible(p: string)
    ensures Present(MergedStore(StoredFiles(p), CfgFiles(AnySource, Some(p)), map[], [], AnySource), Dummy) == Some(Scalar("5"))
  {
    var f: Listing := [Line(Dummy, Some("5"))];
    assert ValuesOf(f, Dummy) == [Some("5")];
    assert FileLayer(StoredFiles(p), DatasetFile(p)) == LayerOf(f);
    DatasetFileBeatsRepoFile(StoredFiles(p), p, map[], [], AnySource, Dummy);
  }

  /** With the destination `broken`, the answer is to be stored, and storing it fails. */
  lemma BrokenStep(p: string)
    ensures var d := Decide(map[], map[Dummy := BrokenDef], Dummy, None, None, None, true, None, TestUi(Some("5")));
      && d.StoreThen?
      && Outcome(SetOp(Dummy, d.text, false), d.where, Some(p), map[], map[]).Err?
      && Outcome(SetOp(Dummy, d.text, false), d.where, Some(p), map[], map[]).error.ValueError?
  {
    ObtainStoreExamples();
    StoredOutcome(p);
  }

  /** With the destination `dataset`, the answer is stored in the dataset file. */
  lemma StoreStep(p: string)
    ensures var d := Decide(map[], map[Dummy := DatasetDef], Dummy, None, None, None, true, None, TestUi(Some("5")));
      && d.StoreThen? && d.value == IntValue(5)
      && Outcome(SetOp(Dummy, d.text, false), d.where, Some(p), map[], map[]) == Ok((StoredFiles(p), map[]))
  {
    ObtainStoreExamples();
    StoredOutcome(p);
  }

  /** Once stored, the value is found without asking. */
  lemma AgainStep(p: string)
    ensures Decide(MergedStore(StoredFiles(p), CfgFiles(AnySource, Some(p)), map[], [], AnySource),
                   map[Dummy := DatasetDef], Dummy, None, None, None, false, None, TestUi(None)) == Done(IntValue(5))
  {
    StoredVisible(p);
    assert ParseInt("5") == Ok(5);
  }

  /**
    `obtain(dummy, store=True)` with the destination `broken` fails with
    `ValueError` and stores nothing; with the destination `dataset` it stores
    the answer; afterwards the value is found without asking.
  */
  method ObtainAndStore(p: string) returns (broken: Result<Typed, ConfigError>, stored: Result<Typed, ConfigError>,
                                            again: Result<Typed, ConfigError>)
    ensures broken.Err? && broken.error.ValueError?
    ensures stored == Ok(IntValue(5))
    ensures again == Ok(IntValue(5))
  {
    var disk := new Disk(map[]);
    var environ := new Environ();
    var cfg := new ConfigManager(disk, environ, Some(p), AnySource, map[]);
    NothingConfigured(CfgFiles(AnySource, Some(p)), AnySource);
    BrokenStep(p);
    broken := cfg.Obtain(Dummy, map[Dummy := BrokenDef], None, None, None, true, None, TestUi(Some("5")), true);
    StoreStep(p);
    stored := cfg.Obtain(Dummy, map[Dummy := DatasetDef], None, None, None, true, None, TestUi(Some("5")), true);
    AgainStep(p);
    again := cfg.Obtain(Dummy, map[Dummy := DatasetDef], None, None, None, false, None, TestUi(None), true);
  }

  const CrazyCfg: string := "datalad.crazy.cfg"
  const CrazyOverride: string := "datalad.crazy.override"

  lemma CrazyKeys()
    ensures EnvKey("DATALAD_CRAZY_CFG") == CrazyCfg
    ensures EnvKey("DATALAD_CRAZY_OVERRIDE") == CrazyOverride
  {
  }

  lemma OneVariable(name: string, value: string)
    requires EnvPrefix <= name
    ensures EnvLayer([EnvVar(name, value)]) == map[EnvKey(name) := [Some(value)]]
  {
    var vs := [EnvVar(name, value)];
    assert vs[..0] == [];
  }

  /** With no files and one `DATALAD_*` variable, its key reads as its value. */
  lemma OneVariableWins(ids: seq<FileId>, overrides: Layer, v: EnvVar, k: string)
    requires EnvPrefix <= v.name && EnvKey(v.name) == k
    ensures GetItem(MergedStore(map[], ids, overrides, [v], AnySource), k) == Ok(Scalar(v.value))
  {
    OneVariable(v.name, v.value);
    EnvironmentWins(map[], ids, overrides, [v], AnySource, k);
  }

  /** A `DATALAD_*` variable set after a manager was built is read on its next reload. */
  method FromEnvironment() returns (before: Option<Value>, after: Result<Value, ConfigError>)
    ensures before.None?
    ensures after == Ok(Scalar("impossibletoguess"))
  {
    var disk := new Disk(map[]);
    var environ := new Environ();
    var cfg := new ConfigManager(disk, environ, None, AnySource, map[]);
    NothingConfigured(CfgFiles(AnySource, None), AnySource);
    before := Get(cfg.store, CrazyCfg);
    environ.Put("DATALAD_CRAZY_CFG", "impossibletoguess");
    var crazy := EnvVar("DATALAD_CRAZY_CFG", "impossibletoguess");
    assert environ.vars == [crazy];
    cfg.Reload();
    CrazyKeys();
    OneVariableWins(cfg.cfgfiles, cfg.overrides, crazy, CrazyCfg);
    after := GetItem(cfg.store, CrazyCfg);
  }

  /** In dataset-only mode the environment is not read. */
  method DatasetOnlyIgnoresEnvironment() returns (read: Option<Value>)
    ensures read.None?
  {
    var disk := new Disk(map[]);
    var environ := new Environ();
    environ.Put("DATALAD_CRAZY_CFG", "impossibletoguess");
    var cfg := new ConfigManager(disk, environ, Some("nowhere"), DatasetOnly, map[]);
    NothingConfigured(CfgFiles(DatasetOnly, Some("nowhere")), DatasetOnly);
    read := Get(cfg.store, CrazyCfg);
  }

  /** `set(k, v, where='override')` on an empty override layer. */
  lemma OverrideSet(files: map<FileId, Listing>, k: string, v: string)
    ensures Outcome(SetOp(k, v, false), "override", None, files, map[]) == Ok((files, map[k := [Some(v)]]))
  {
  }

  /** With no files and no environment, an override is what its key reads. */
  lemma OverrideRead(ids: seq<FileId>, k: string, v: string)
    ensures GetItem(MergedStore(map[], ids, map[k := [Some(v)]], [], AnySource), k) == Ok(Scalar(v))
  {
    OverrideShadowsFiles(map[], ids, map[k := [Some(v)]], [], AnySource, k);
  }

  /** An override is read until a `DATALAD_*` variable sets the same key; then the variable wins. */
  method EnvironmentBeatsOverride() returns (overridden: Result<Value, ConfigError>, fromEnv: Result<Value, ConfigError>)
    ensures overridden == Ok(Scalar("fromoverride"))
    ensures fromEnv == Ok(Scalar("fromenv"))
  {
    var disk := new Disk(map[]);
    var environ := new Environ();
    var cfg := new ConfigManager(disk, environ, None, AnySource, map[]);
    OverrideSet(disk.files, CrazyOverride, "fromoverride");
    var _ := cfg.Set(CrazyOverride, "fromoverride", Some("override"), false, true);
    OverrideRead(cfg.cfgfiles, CrazyOverride, "fromoverride");
    overridden := GetItem(cfg.store, CrazyOverride);
    environ.Put("DATALAD_CRAZY_OVERRIDE", "fromenv");
    var fromenv := EnvVar("DATALAD_CRAZY_OVERRIDE", "fromenv");
    assert environ.vars == [fromenv];
    cfg.Reload();
    CrazyKeys();
    OneVariableWins(cfg.cfgfiles, cfg.overrides, fromenv, CrazyOverride);
    fromEnv := GetItem(cfg.store, CrazyOverride);
  }
}
