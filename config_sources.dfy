/**
  Which layers a configuration manager reads. The `source` selector picks the
  files (system, global, the repository's `.git/config`, the dataset's
  `.datalad/config`); the override layer is always merged in, and the
  environment layer unless only the dataset file is read. A write names its
  target layer with `where`.
*/
module ConfigSources {
  import opened Results
  import opened ConfigLayers
  import opened ConfigQueries

  /** The `source` selector: `dataset`, `local`, `dataset-local` or `any`. */
  datatype Source = DatasetOnly | LocalOnly | DatasetLocal | AnySource

  /** A configuration file; the repository and dataset files belong to one dataset path. */
  datatype FileId = SystemFile | GlobalFile | RepoFile(repo: string) | DatasetFile(ds: string)

  function ParseSource(text: string): (r: Result<Source, ConfigError>)
    ensures r.Ok? <==> text in {"dataset", "local", "dataset-local", "any"}
  {
    if text == "dataset" then Ok(DatasetOnly)
    else if text == "local" then Ok(LocalOnly)
    else if text == "dataset-local" then Ok(DatasetLocal)
    else if text == "any" then Ok(AnySource)
    else Err(ValueError("unknown source: " + text))
  }

  predicate NeedsDataset(s: Source) {
    s == DatasetOnly || s == DatasetLocal
  }

  /**
    The selector a manager is built with: an unknown name, or a dataset-only
    selector without a dataset, raises `ValueError`.
  */
  function Resolve(dataset: Option<string>, text: string): (r: Result<Source, ConfigError>)
    ensures r.Ok? <==> ParseSource(text).Ok? && (NeedsDataset(ParseSource(text).value) ==> dataset.Some?)
    ensures r.Ok? ==> r.value == ParseSource(text).value
    ensures r.Err? ==> r.error.ValueError?
  {
    match ParseSource(text)
    case Err(e) => Err(e)
    case Ok(s) =>
      if NeedsDataset(s) && dataset.None? then Err(ValueError("no dataset given for source " + text))
      else Ok(s)
  }

  /** The precedence of a file: system < global < repository < dataset. */
  function Rank(f: FileId): nat {
    match f
    case SystemFile => 0
    case GlobalFile => 1
    case RepoFile(_) => 2
    case DatasetFile(_) => 3
  }

  /**
    The files a manager reads, lowest precedence first. Only the given
    dataset's own files are ever among them: a manager without a dataset
    reads no repository or dataset file at all.
  */
  function CfgFiles(source: Source, dataset: Option<string>): (r: seq<FileId>)
    ensures forall i, j :: 0 <= i < j < |r| ==> Rank(r[i]) < Rank(r[j])
    ensures forall i :: 0 <= i < |r| && (r[i].RepoFile? || r[i].DatasetFile?) ==>
      dataset.Some? && (r[i] == RepoFile(dataset.value) || r[i] == DatasetFile(dataset.value))
    ensures SystemFile in r <==> !NeedsDataset(source)
    ensures GlobalFile in r <==> !NeedsDataset(source)
    ensures forall p :: RepoFile(p) in r <==> dataset == Some(p) && source != DatasetOnly
    ensures forall p :: DatasetFile(p) in r <==> dataset == Some(p) && source != LocalOnly
  {
    match source
    case AnySource => [SystemFile, GlobalFile] + (if dataset.Some? then [RepoFile(dataset.value), DatasetFile(dataset.value)] else [])
    case LocalOnly => [SystemFile, GlobalFile] + (if dataset.Some? then [RepoFile(dataset.value)] else [])
    case DatasetLocal => if dataset.Some? then [RepoFile(dataset.value), DatasetFile(dataset.value)] else []
    case DatasetOnly => if dataset.Some? then [DatasetFile(dataset.value)] else []
  }

  /** The environment layer is left out when only the dataset file is read. */
  predicate ReadsEnvironment(source: Source) {
    source != DatasetOnly
  }

  // ---------------------------------------------------------------------------
  // Write targets

  /** The `where` of a write. */
  datatype Where = AtDataset | AtLocal | AtGlobal | AtOverride

  datatype Target = FileTarget(file: FileId) | OverrideTarget

  function ParseWhere(text: string): (r: Result<Where, ConfigError>)
    ensures r.Ok? <==> text in {"dataset", "local", "global", "override"}
    ensures r.Err? ==> r.error.ValueError?
  {
    if text == "dataset" then Ok(AtDataset)
    else if text == "local" then Ok(AtLocal)
    else if text == "global" then Ok(AtGlobal)
    else if text == "override" then Ok(AtOverride)
    else Err(ValueError("unknown configuration label: " + text))
  }

  /**
    The layer a write goes to. Writing to the dataset file without a dataset
    raises `ValueError`; writing to the repository file without one fails in
    the backend.
  */
  function TargetOf(where: string, dataset: Option<string>): (r: Result<Target, ConfigError>)
    ensures ParseWhere(where).Err? ==> r == Err(ParseWhere(where).error)
    ensures where == "override" ==> r == Ok(OverrideTarget)
    ensures where == "global" ==> r == Ok(FileTarget(GlobalFile))
    ensures where == "local" && dataset.Some? ==> r == Ok(FileTarget(RepoFile(dataset.value)))
    ensures where == "local" && dataset.None? ==> r.Err? && r.error.CommandError?
    ensures where == "dataset" && dataset.Some? ==> r == Ok(FileTarget(DatasetFile(dataset.value)))
    ensures where == "dataset" && dataset.None? ==> r.Err? && r.error.ValueError?
  {
    match ParseWhere(where)
    case Err(e) => Err(e)
    case Ok(AtOverride) => Ok(OverrideTarget)
    case Ok(AtGlobal) => Ok(FileTarget(GlobalFile))
    case Ok(AtLocal) =>
      if dataset.Some? then Ok(FileTarget(RepoFile(dataset.value))) else Err(CommandError("not in a repository"))
    case Ok(AtDataset) =>
      if dataset.Some? then Ok(FileTarget(DatasetFile(dataset.value))) else Err(ValueError("no dataset to store configuration in"))
  }

  /** The default `where`: the dataset file for a manager bound to a dataset, the global file otherwise. */
  function DefaultWhere(dataset: Option<string>): (w: string)
    ensures TargetOf(w, dataset).Ok?
    ensures dataset.Some? ==> TargetOf(w, dataset) == Ok(FileTarget(DatasetFile(dataset.value)))
    ensures dataset.None? ==> TargetOf(w, dataset) == Ok(FileTarget(GlobalFile))
  {
    if dataset.Some? then "dataset" else "global"
  }

  /** The `where` of a write: the one given, or else the default. */
  function WhereOf(where: Option<string>, dataset: Option<string>): string {
    if where.Some? then where.value else DefaultWhere(dataset)
  }

  // ---------------------------------------------------------------------------
  // The environment layer

  /** One process environment variable. */
  datatype EnvVar = EnvVar(name: string, value: string)

  const EnvPrefix: string := "DATALAD_"

  function Underscore2Dot(c: char): char {
    if c == '_' then '.' else c
  }

  /** The key of a variable: underscores become dots, then lower case (`DATALAD_CRAZY_CFG` is `datalad.crazy.cfg`). */
  function EnvKey(name: string): (k: string)
    ensures |k| == |name|
    ensures forall i :: 0 <= i < |name| ==> k[i] == LowerChar(Underscore2Dot(name[i]))
  {
    Lower(seq(|name|, i requires 0 <= i < |name| => Underscore2Dot(name[i])))
  }

  /** The layer of the `DATALAD_*` variables; a later variable wins when two give the same key. */
  function EnvLayer(vars: seq<EnvVar>): Layer
    decreases |vars|
  {
    if |vars| == 0 then map[]
    else
      var m := EnvLayer(vars[..|vars| - 1]);
      var v := vars[|vars| - 1];
      if EnvPrefix <= v.name then m[EnvKey(v.name) := [Some(v.value)]] else m
  }

  lemma EnvKeyPrefix(name: string)
    requires EnvPrefix <= name
    ensures "datalad." <= EnvKey(name)
  {
    var k := EnvKey(name);
    assert k[..8] == "datalad.";
  }

  /** Every key of the environment layer lies under `datalad.`. */
  lemma {:induction false} EnvLayerKeys(vars: seq<EnvVar>, k: string)
    requires k in EnvLayer(vars)
    ensures "datalad." <= k
    decreases |vars|
  {
    var init, v := vars[..|vars| - 1], vars[|vars| - 1];
    if EnvPrefix <= v.name && k == EnvKey(v.name) {
      EnvKeyPrefix(v.name);
    } else {
      EnvLayerKeys(init, k);
    }
  }

  /** A `DATALAD_*` variable not shadowed by a later one gives its key exactly its value. */
  lemma {:induction false} EnvLayerValue(vars: seq<EnvVar>, i: nat)
    requires i < |vars| && EnvPrefix <= vars[i].name
    requires forall j :: i < j < |vars| && EnvPrefix <= vars[j].name ==> EnvKey(vars[j].name) != EnvKey(vars[i].name)
    ensures EnvKey(vars[i].name) in EnvLayer(vars)
    ensures EnvLayer(vars)[EnvKey(vars[i].name)] == [Some(vars[i].value)]
    decreases |vars|
  {
    if i < |vars| - 1 {
      EnvLayerValue(vars[..|vars| - 1], i);
    }
  }

  lemma CrazyCfgKey()
    ensures EnvKey("DATALAD_CRAZY_CFG") == "datalad.crazy.cfg"
  {
  }
}
