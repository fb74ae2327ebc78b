/**
  The configuration manager: an object bound to an optional dataset and a
  source selector, holding the override layer and the merged view it last
  built. The configuration files live in a `Disk` object that several
  managers share, and the process environment in an `Environ` object; a
  manager sees a change to either only when it reloads.
*/
module ConfigManagerModel {
  import opened Results
  import opened ConfigLayers
  import opened ConfigKeys
  import opened ConfigMutations
  import opened ConfigQueries
  import opened ConfigSources
  import opened ConfigObtain

  /** The configuration files, shared by all managers. A file not in the map does not exist. */
  class Disk {
    var files: map<FileId, Listing>

    constructor (files: map<FileId, Listing>)
      ensures this.files == files
    {
      this.files := files;
    }
  }

  /** The process environment, as an ordered list of variables with distinct names. */
  class Environ {
    var vars: seq<EnvVar>

    ghost predicate Valid()
      reads this
    {
      forall i, j :: 0 <= i < j < |vars| ==> vars[i].name != vars[j].name
    }

    constructor ()
      ensures Valid() && vars == []
    {
      vars := [];
    }

    /** `os.environ[name] = value`: an existing variable changes in place, a new one is added last. */
    method Put(name: string, value: string)
      requires Valid()
      modifies this
      ensures Valid()
      ensures (exists i :: 0 <= i < |old(vars)| && old(vars)[i].name == name) ==>
        |vars| == |old(vars)| && forall i :: 0 <= i < |vars| ==>
          vars[i] == if old(vars)[i].name == name then EnvVar(name, value) else old(vars)[i]
      ensures (forall i :: 0 <= i < |old(vars)| ==> old(vars)[i].name != name) ==> vars == old(vars) + [EnvVar(name, value)]
    {
      var i := 0;
      while i < |vars|
        invariant 0 <= i <= |vars|
        invariant forall j :: 0 <= j < i ==> vars[j].name != name
      {
        if vars[i].name == name {
          vars := vars[i := EnvVar(name, value)];
          return;
        }
        i := i + 1;
      }
      vars := vars + [EnvVar(name, value)];
    }
  }

  // ---------------------------------------------------------------------------
  // The merged view as a function of the layers

  /** A file's layer; a missing file contributes nothing. */
  function FileLayer(files: map<FileId, Listing>, id: FileId): Layer {
    if id in files then LayerOf(files[id]) else map[]
  }

  function FileLayers(files: map<FileId, Listing>, ids: seq<FileId>): (r: seq<Layer>)
    ensures |r| == |ids|
    ensures forall i :: 0 <= i < |ids| ==> r[i] == FileLayer(files, ids[i])
  {
    seq(|ids|, i requires 0 <= i < |ids| => FileLayer(files, ids[i]))
  }

  function EnvLayers(source: Source, vars: seq<EnvVar>): seq<Layer> {
    if ReadsEnvironment(source) then [EnvLayer(vars)] else []
  }

  /** All layers, lowest precedence first: the files, the overrides, the environment. */
  function AllLayers(files: map<FileId, Listing>, ids: seq<FileId>, overrides: Layer,
                     vars: seq<EnvVar>, source: Source): seq<Layer> {
    FileLayers(files, ids) + [overrides] + EnvLayers(source, vars)
  }

  function MergedStore(files: map<FileId, Listing>, ids: seq<FileId>, overrides: Layer,
                       vars: seq<EnvVar>, source: Source): Layer {
    Merge(AllLayers(files, ids, overrides, vars, source))
  }

  lemma MergeSnoc(ls: seq<Layer>, x: Layer)
    ensures Merge(ls + [x]) == Merge(ls) + x
  {
    assert (ls + [x])[..|ls|] == ls;
  }

  /** A key is in the merged view iff some file, the overrides or the (read) environment defines it. */
  lemma StoreKeys(files: map<FileId, Listing>, ids: seq<FileId>, overrides: Layer,
                  vars: seq<EnvVar>, source: Source, k: string)
    ensures k in MergedStore(files, ids, overrides, vars, source) <==>
      (exists i :: 0 <= i < |ids| && k in FileLayer(files, ids[i]))
      || k in overrides
      || (ReadsEnvironment(source) && k in EnvLayer(vars))
  {
    var ls := AllLayers(files, ids, overrides, vars, source);
    var fl := FileLayers(files, ids);
    MergeKeys(ls, k);
    if exists i :: 0 <= i < |ids| && k in FileLayer(files, ids[i]) {
      var i :| 0 <= i < |ids| && k in FileLayer(files, ids[i]);
      assert k in ls[i];
    }
    if k in overrides {
      assert k in ls[|ids|];
    }
    if ReadsEnvironment(source) && k in EnvLayer(vars) {
      assert k in ls[|ids| + 1];
    }
    if exists i :: 0 <= i < |ls| && k in ls[i] {
      var i :| 0 <= i < |ls| && k in ls[i];
      if i < |ids| {
        assert k in FileLayer(files, ids[i]);
      }
    }
  }

  /**
    An override shadows every file: it is what is read for its key unless the
    environment (when read) sets the same key.
  */
  lemma OverrideShadowsFiles(files: map<FileId, Listing>, ids: seq<FileId>, overrides: Layer,
                             vars: seq<EnvVar>, source: Source, k: string)
    requires k in overrides
    requires ReadsEnvironment(source) ==> k !in EnvLayer(vars)
    ensures k in MergedStore(files, ids, overrides, vars, source)
    ensures MergedStore(files, ids, overrides, vars, source)[k] == overrides[k]
  {
    var ls := AllLayers(files, ids, overrides, vars, source);
    MergeTopmost(ls, |ids|, k);
  }

  /** A `DATALAD_*` variable beats both files and overrides. */
  lemma EnvironmentWins(files: map<FileId, Listing>, ids: seq<FileId>, overrides: Layer,
                        vars: seq<EnvVar>, source: Source, k: string)
    requires ReadsEnvironment(source) && k in EnvLayer(vars)
    ensures k in MergedStore(files, ids, overrides, vars, source)
    ensures MergedStore(files, ids, overrides, vars, source)[k] == EnvLayer(vars)[k]
  {
    var ls := AllLayers(files, ids, overrides, vars, source);
    MergeTopmost(ls, |ids| + 1, k);
  }

  /**
    A file's value is read when no later file, no override and no (read)
    environment variable sets the same key.
  */
  lemma FileValueVisible(files: map<FileId, Listing>, ids: seq<FileId>, overrides: Layer,
                         vars: seq<EnvVar>, source: Source, j: nat, k: string)
    requires j < |ids| && k in FileLayer(files, ids[j])
    requires forall i :: j < i < |ids| ==> k !in FileLayer(files, ids[i])
    requires k !in overrides
    requires ReadsEnvironment(source) ==> k !in EnvLayer(vars)
    ensures k in MergedStore(files, ids, overrides, vars, source)
    ensures MergedStore(files, ids, overrides, vars, source)[k] == FileLayer(files, ids[j])[k]
  {
    var ls := AllLayers(files, ids, overrides, vars, source);
    forall i | j < i < |ls|
      ensures k !in ls[i]
    {
      if i < |ids| {
        assert ls[i] == FileLayer(files, ids[i]);
      }
    }
    MergeTopmost(ls, j, k);
  }

  /**
    The dataset's `.datalad/config` beats its `.git/config`: a key the
    dataset file sets reads as the dataset file's values in every mode that
    reads that file, unless an override or the environment sets it.
  */
  lemma DatasetFileBeatsRepoFile(files: map<FileId, Listing>, p: string, overrides: Layer,
                                 vars: seq<EnvVar>, source: Source, k: string)
    requires source != LocalOnly
    requires k in FileLayer(files, DatasetFile(p))
    requires k !in overrides
    requires ReadsEnvironment(source) ==> k !in EnvLayer(vars)
    ensures k in MergedStore(files, CfgFiles(source, Some(p)), overrides, vars, source)
    ensures MergedStore(files, CfgFiles(source, Some(p)), overrides, vars, source)[k] == FileLayer(files, DatasetFile(p))[k]
  {
    var ids := CfgFiles(source, Some(p));
    // the dataset file has the highest rank, so it comes last
    var j := |ids| - 1;
    assert ids[j] == DatasetFile(p);
    FileValueVisible(files, ids, overrides, vars, source, j, k);
  }

  /** What a manager reads depends only on the files it lists. */
  lemma OnlyListedFilesRead(files1: map<FileId, Listing>, files2: map<FileId, Listing>, ids: seq<FileId>,
                            overrides: Layer, vars: seq<EnvVar>, source: Source)
    requires forall i :: 0 <= i < |ids| ==> FileLayer(files1, ids[i]) == FileLayer(files2, ids[i])
    ensures MergedStore(files1, ids, overrides, vars, source) == MergedStore(files2, ids, overrides, vars, source)
  {
    assert FileLayers(files1, ids) == FileLayers(files2, ids);
  }

  /**
    A write through a manager bound to dataset `p` to its repository or
    dataset file is invisible to a manager bound to any other dataset `q`,
    and to a manager bound to none.
  */
  lemma NoLeaks(op: Op, where: string, p: string, other: Option<string>,
                files: map<FileId, Listing>, overrides: Layer,
                otherOverrides: Layer, vars: seq<EnvVar>, source: Source)
    requires where == "local" || where == "dataset"
    requires other != Some(p)
    requires Outcome(op, where, Some(p), files, overrides).Ok?
    ensures var files' := Outcome(op, where, Some(p), files, overrides).value.0;
      MergedStore(files', CfgFiles(source, other), otherOverrides, vars, source)
        == MergedStore(files, CfgFiles(source, other), otherOverrides, vars, source)
  {
    var files' := Outcome(op, where, Some(p), files, overrides).value.0;
    var id := if where == "local" then RepoFile(p) else DatasetFile(p);
    assert TargetOf(where, Some(p)) == Ok(FileTarget(id));
    var ids := CfgFiles(source, other);
    forall i | 0 <= i < |ids|
      ensures FileLayer(files', ids[i]) == FileLayer(files, ids[i])
    {
      assert ids[i] != id;
    }
    OnlyListedFilesRead(files', files, ids, otherOverrides, vars, source);
  }

  /**
    A key that only the environment sets is read in every mode except the
    dataset-only one.
  */
  lemma EnvironmentOnlyKey(files: map<FileId, Listing>, ids: seq<FileId>, overrides: Layer,
                           vars: seq<EnvVar>, source: Source, k: string)
    requires k in EnvLayer(vars) && k !in overrides
    requires forall i :: 0 <= i < |ids| ==> k !in FileLayer(files, ids[i])
    ensures k in MergedStore(files, ids, overrides, vars, source) <==> ReadsEnvironment(source)
  {
    StoreKeys(files, ids, overrides, vars, source, k);
  }

  // ---------------------------------------------------------------------------
  // One write, as a function of the layers

  /** A write operation on one layer. */
  datatype Op =
    | AddOp(key: string, value: string)
    | SetOp(key: string, value: string, force: bool)
    | UnsetOp(key: string)
    | RenameOp(src: string, dst: string)
    | RemoveOp(section: string)

  function ApplyToFile(op: Op, f: Listing): Result<Listing, ConfigError> {
    match op
    case AddOp(k, v) => Ok(FileAdd(f, k, v))
    case SetOp(k, v, force) => FileSet(f, k, v, force)
    case UnsetOp(k) => FileUnset(f, k)
    case RenameOp(src, dst) => FileRename(f, src, dst)
    case RemoveOp(s) => Ok(FileRemoveSection(f, s))
  }

  function ApplyToLayer(op: Op, m: Layer): Result<Layer, ConfigError> {
    match op
    case AddOp(k, v) => Ok(LayerAdd(m, k, v))
    case SetOp(k, v, force) => LayerSet(m, k, v, force)
    case UnsetOp(k) => LayerUnset(m, k)
    case RenameOp(src, dst) => LayerRename(m, src, dst)
    case RemoveOp(s) => Ok(LayerRemoveSection(m, s))
  }

  /**
    A write to a file and the same write to the override layer have the same
    effect on what is read (for a rename, when the target section is new).
  */
  lemma ApplyAgrees(op: Op, f: Listing)
    requires op.RenameOp? ==> forall i :: 0 <= i < |f| ==> SectionOf(f[i].key) != Some(op.dst)
    ensures Read(ApplyToFile(op, f)) == ApplyToLayer(op, LayerOf(f))
  {
    match op
    case AddOp(k, v) => FileAddIsLayerAdd(f, k, v);
    case SetOp(k, v, force) => FileSetIsLayerSet(f, k, v, force);
    case UnsetOp(k) => FileUnsetIsLayerUnset(f, k);
    case RenameOp(src, dst) => FileRenameIsLayerRename(f, src, dst);
    case RemoveOp(s) => FileRemoveSectionIsLayerRemoveSection(f, s);
  }

  function Contents(files: map<FileId, Listing>, id: FileId): Listing {
    if id in files then files[id] else []
  }

  /** The files and override layer after a write to `where`, or the error it raises. */
  function Outcome(op: Op, where: string, dataset: Option<string>,
                   files: map<FileId, Listing>, overrides: Layer): Result<(map<FileId, Listing>, Layer), ConfigError> {
    match TargetOf(where, dataset)
    case Err(e) => Err(e)
    case Ok(OverrideTarget) =>
      (match ApplyToLayer(op, overrides)
       case Err(e) => Err(e)
       case Ok(m) => Ok((files, m)))
    case Ok(FileTarget(id)) =>
      (match ApplyToFile(op, Contents(files, id))
       case Err(e) => Err(e)
       case Ok(f) => Ok((files[id := f], overrides)))
  }

  // ---------------------------------------------------------------------------
  // Writes and the merged view

  /**
    A write to a file leaves the override layer alone, so an overridden key
    keeps reading as its override (unless the environment sets it).
  */
  lemma FileWriteKeepsOverride(op: Op, where: string, dataset: Option<string>, files: map<FileId, Listing>,
                               overrides: Layer, ids: seq<FileId>, vars: seq<EnvVar>, source: Source, k: string)
    requires where != "override"
    requires Outcome(op, where, dataset, files, overrides).Ok?
    requires k in overrides && (ReadsEnvironment(source) ==> k !in EnvLayer(vars))
    ensures Outcome(op, where, dataset, files, overrides).value.1 == overrides
    ensures var files' := Outcome(op, where, dataset, files, overrides).value.0;
      k in MergedStore(files', ids, overrides, vars, source) &&
      MergedStore(files', ids, overrides, vars, source)[k] == overrides[k]
  {
    var files' := Outcome(op, where, dataset, files, overrides).value.0;
    OverrideShadowsFiles(files', ids, overrides, vars, source, k);
  }

  /** Unsetting an override removes only the override: the file value shows again. */
  lemma UnsetOverrideRevealsFile(dataset: Option<string>, files: map<FileId, Listing>, overrides: Layer,
                                 ids: seq<FileId>, vars: seq<EnvVar>, source: Source, j: nat, k: string)
    requires k in overrides
    requires j < |ids| && k in FileLayer(files, ids[j])
    requires forall i :: j < i < |ids| ==> k !in FileLayer(files, ids[i])
    requires ReadsEnvironment(source) ==> k !in EnvLayer(vars)
    ensures Outcome(UnsetOp(k), "override", dataset, files, overrides) == Ok((files, overrides - {k}))
    ensures k in MergedStore(files, ids, overrides - {k}, vars, source)
    ensures MergedStore(files, ids, overrides - {k}, vars, source)[k] == FileLayer(files, ids[j])[k]
  {
    FileValueVisible(files, ids, overrides - {k}, vars, source, j, k);
  }

  /**
    The first override `add` of a key gives it one value, read as a string;
    the second gives it both values, read as a list.
  */
  lemma OverrideAddTwice(dataset: Option<string>, files: map<FileId, Listing>, overrides: Layer,
                         ids: seq<FileId>, vars: seq<EnvVar>, source: Source, k: string, v1: string, v2: string)
    requires k !in overrides
    requires ReadsEnvironment(source) ==> k !in EnvLayer(vars)
    ensures var once := LayerAdd(overrides, k, v1);
      && Outcome(AddOp(k, v1), "override", dataset, files, overrides) == Ok((files, once))
      && Get(MergedStore(files, ids, once, vars, source), k) == Some(Scalar(v1))
    ensures var twice := LayerAdd(LayerAdd(overrides, k, v1), k, v2);
      && Outcome(AddOp(k, v2), "override", dataset, files, LayerAdd(overrides, k, v1)) == Ok((files, twice))
      && Get(MergedStore(files, ids, twice, vars, source), k) == Some(Multi([Some(v1), Some(v2)]))
  {
    var once := LayerAdd(overrides, k, v1);
    var twice := LayerAdd(once, k, v2);
    OverrideShadowsFiles(files, ids, once, vars, source, k);
    OverrideShadowsFiles(files, ids, twice, vars, source, k);
    assert once[k] == [Some(v1)];
    assert twice[k] == [Some(v1), Some(v2)];
  }

  lemma RenameOverrideLayer(overrides: Layer, src: string, dst: string, k: string)
    requires k in overrides && SectionOf(k) == Some(src)
    ensures ApplyToLayer(RenameOp(src, dst), overrides) == Ok(MoveSection(overrides, src, dst))
  {
    LayerRenameOk(overrides, src, dst, k);
  }

  lemma RenameOverrideOutcome(dataset: Option<string>, files: map<FileId, Listing>, overrides: Layer,
                              src: string, dst: string, k: string)
    requires k in overrides && SectionOf(k) == Some(src)
    ensures Outcome(RenameOp(src, dst), "override", dataset, files, overrides) == Ok((files, MoveSection(overrides, src, dst)))
  {
    RenameOverrideLayer(overrides, src, dst, k);
  }

  /**
    Renaming a section of the override layer moves only the override
    entries: an overridden key of that section reads its file value again,
    and its renamed key reads what the override held.
  */
  lemma RenameOverrideKeepsFiles(dataset: Option<string>, files: map<FileId, Listing>, overrides: Layer,
                                 ids: seq<FileId>, vars: seq<EnvVar>, source: Source,
                                 src: string, dst: string, j: nat, k: string)
    requires src != dst && k in overrides && SectionOf(k) == Some(src)
    requires j < |ids| && k in FileLayer(files, ids[j])
    requires forall i :: j < i < |ids| ==> k !in FileLayer(files, ids[i])
    requires ReadsEnvironment(source) ==> k !in EnvLayer(vars) && RenameKey(k, src, dst) !in EnvLayer(vars)
    ensures Outcome(RenameOp(src, dst), "override", dataset, files, overrides) == Ok((files, MoveSection(overrides, src, dst)))
    ensures var m := MoveSection(overrides, src, dst);
      && k in MergedStore(files, ids, m, vars, source)
      && MergedStore(files, ids, m, vars, source)[k] == FileLayer(files, ids[j])[k]
      && RenameKey(k, src, dst) in MergedStore(files, ids, m, vars, source)
      && MergedStore(files, ids, m, vars, source)[RenameKey(k, src, dst)] == overrides[k]
  {
    var m := MoveSection(overrides, src, dst);
    RenameOverrideOutcome(dataset, files, overrides, src, dst, k);
    MoveSectionKey(overrides, src, dst, k);
    FileValueVisible(files, ids, m, vars, source, j, k);
    OverrideShadowsFiles(files, ids, m, vars, source, RenameKey(k, src, dst));
  }

  /**
    Renaming a section into a new one keeps the number of its items: the
    items of `dst` afterwards are the items of `src` before, renamed.
  */
  lemma RenameKeepsItemCount(m: Layer, src: string, dst: string)
    requires src != dst
    requires forall k :: k in m ==> SectionOf(k) != Some(dst)
    ensures |Items(MoveSection(m, src, dst), dst)| == |Items(m, src)|
  {
    var before := Items(m, src).Keys;
    var after := Items(MoveSection(m, src, dst), dst).Keys;
    forall k | k in after
      ensures k in Renamed(before, src, dst)
    {
      var k0 :| k0 in m && SectionOf(k0) == Some(src) && RenameKey(k0, src, dst) == k;
      assert k0 in before;
    }
    forall k0 | k0 in before
      ensures RenameKey(k0, src, dst) in after
    {
      RenameKeyParts(k0, src, dst);
    }
    assert after == Renamed(before, src, dst);
    RenameImageSize(before, src, dst);
    assert |Items(m, src)| == |before|;
    assert |Items(MoveSection(m, src, dst), dst)| == |after|;
  }

  /** Removing a section of the override layer drops its keys unless a file or the environment sets them. */
  lemma RemoveOverrideSection(dataset: Option<string>, files: map<FileId, Listing>, overrides: Layer,
                              ids: seq<FileId>, vars: seq<EnvVar>, source: Source, s: string, k: string)
    requires SectionOf(k) == Some(s)
    requires forall i :: 0 <= i < |ids| ==> k !in FileLayer(files, ids[i])
    requires ReadsEnvironment(source) ==> k !in EnvLayer(vars)
    ensures Outcome(RemoveOp(s), "override", dataset, files, overrides) == Ok((files, LayerRemoveSection(overrides, s)))
    ensures k !in MergedStore(files, ids, LayerRemoveSection(overrides, s), vars, source)
  {
    StoreKeys(files, ids, LayerRemoveSection(overrides, s), vars, source, k);
  }

  // ---------------------------------------------------------------------------
  // The manager

  class ConfigManager {
    const disk: Disk
    const environ: Environ
    const dataset: Option<string>
    const source: Source
    /** The files this manager reads, lowest precedence first. */
    const cfgfiles: seq<FileId>
    var overrides: Layer
    /** The merged view as of the last reload. */
    var store: Layer

    /** The merged view a reload would build now. */
    function Fresh(): Layer
      reads this, disk, environ
    {
      MergedStore(disk.files, cfgfiles, overrides, environ.vars, source)
    }

    constructor (disk: Disk, environ: Environ, dataset: Option<string>, source: Source, overrides: Layer)
      requires NeedsDataset(source) ==> dataset.Some?
      ensures this.disk == disk && this.environ == environ
      ensures this.dataset == dataset && this.source == source && this.overrides == overrides
      ensures cfgfiles == CfgFiles(source, dataset)
      ensures store == Fresh()
    {
      this.disk := disk;
      this.environ := environ;
      this.dataset := dataset;
      this.source := source;
      this.cfgfiles := CfgFiles(source, dataset);
      this.overrides := overrides;
      new;
      Reload();
    }

    /** `ConfigManager(dataset, source=..., overrides=...)`: the selector is checked first. */
    static method New(disk: Disk, environ: Environ, dataset: Option<string>, sourceText: string, overrides: Layer)
      returns (r: Result<ConfigManager, ConfigError>)
      ensures r.Err? <==> Resolve(dataset, sourceText).Err?
      ensures r.Err? ==> r.error == Resolve(dataset, sourceText).error
      ensures r.Ok? ==> fresh(r.value) && r.value.disk == disk && r.value.environ == environ
      ensures r.Ok? ==> r.value.dataset == dataset && r.value.source == Resolve(dataset, sourceText).value
      ensures r.Ok? ==> r.value.overrides == overrides && r.value.cfgfiles == CfgFiles(r.value.source, dataset)
      ensures r.Ok? ==> r.value.store == r.value.Fresh()
    {
      match Resolve(dataset, sourceText)
      case Err(e) => r := Err(e);
      case Ok(s) =>
        var m := new ConfigManager(disk, environ, dataset, s, overrides);
        r := Ok(m);
    }

    /** `reload()`: every file read again, then the overrides and the environment on top. */
    method Reload()
      modifies this`store
      ensures store == Fresh()
    {
      var acc: Layer := map[];
      var i := 0;
      while i < |cfgfiles|
        invariant 0 <= i <= |cfgfiles|
        invariant acc == Merge(FileLayers(disk.files, cfgfiles[..i]))
      {
        var layer: Layer := map[];
        if cfgfiles[i] in disk.files {
          layer := ParseListing(disk.files[cfgfiles[i]]);
        }
        assert FileLayers(disk.files, cfgfiles[..i + 1]) == FileLayers(disk.files, cfgfiles[..i]) + [layer];
        MergeSnoc(FileLayers(disk.files, cfgfiles[..i]), layer);
        acc := acc + layer;
        i := i + 1;
      }
      assert cfgfiles[..i] == cfgfiles;
      var files := FileLayers(disk.files, cfgfiles);
      MergeSnoc(files, overrides);
      acc := acc + overrides;
      if ReadsEnvironment(source) {
        MergeSnoc(files + [overrides], EnvLayer(environ.vars));
        acc := acc + EnvLayer(environ.vars);
      } else {
        assert files + [overrides] + [] == files + [overrides];
      }
      store := acc;
    }

    /** One write to the layer `where` names, followed by a reload unless `reload` is false. */
    method Write(op: Op, where: string, reload: bool) returns (r: Result<(), ConfigError>)
      modifies this`overrides, this`store, disk`files
      ensures Outcome(op, where, dataset, old(disk.files), old(overrides)).Err? ==>
        r == Err(Outcome(op, where, dataset, old(disk.files), old(overrides)).error) &&
        disk.files == old(disk.files) && overrides == old(overrides) && store == old(store)
      ensures Outcome(op, where, dataset, old(disk.files), old(overrides)).Ok? ==>
        r == Ok(()) &&
        disk.files == Outcome(op, where, dataset, old(disk.files), old(overrides)).value.0 &&
        overrides == Outcome(op, where, dataset, old(disk.files), old(overrides)).value.1 &&
        store == (if reload then Fresh() else old(store))
    {
      match Outcome(op, where, dataset, disk.files, overrides)
      case Err(e) => r := Err(e);
      case Ok((files, m)) =>
        disk.files := files;
        overrides := m;
        if reload { Reload(); }
        r := Ok(());
    }

    /** `add(key, value, where, reload)`; a missing `where` is the default one. */
    method Add(key: string, value: string, where: Option<string>, reload: bool) returns (r: Result<(), ConfigError>)
      modifies this`overrides, this`store, disk`files
      ensures Outcome(AddOp(key, value), WhereOf(where, dataset), dataset, old(disk.files), old(overrides)).Err? ==>
        r.Err? && disk.files == old(disk.files) && overrides == old(overrides) && store == old(store)
      ensures Outcome(AddOp(key, value), WhereOf(where, dataset), dataset, old(disk.files), old(overrides)).Ok? ==>
        r == Ok(()) &&
        (disk.files, overrides) == Outcome(AddOp(key, value), WhereOf(where, dataset), dataset, old(disk.files), old(overrides)).value &&
        store == (if reload then Fresh() else old(store))
    {
      r := Write(AddOp(key, value), WhereOf(where, dataset), reload);
    }

    /** `set(key, value, where, force, reload)`; a missing `where` is the default one. */
    method Set(key: string, value: string, where: Option<string>, force: bool, reload: bool) returns (r: Result<(), ConfigError>)
      modifies this`overrides, this`store, disk`files
      ensures Outcome(SetOp(key, value, force), WhereOf(where, dataset), dataset, old(disk.files), old(overrides)).Err? ==>
        r.Err? && disk.files == old(disk.files) && overrides == old(overrides) && store == old(store)
      ensures Outcome(SetOp(key, value, force), WhereOf(where, dataset), dataset, old(disk.files), old(overrides)).Ok? ==>
        r == Ok(()) &&
        (disk.files, overrides) == Outcome(SetOp(key, value, force), WhereOf(where, dataset), dataset, old(disk.files), old(overrides)).value &&
        store == (if reload then Fresh() else old(store))
    {
      r := Write(SetOp(key, value, force), WhereOf(where, dataset), reload);
    }

    /** `unset(key, where, reload)`; a missing `where` is the default one. */
    method Unset(key: string, where: Option<string>, reload: bool) returns (r: Result<(), ConfigError>)
      modifies this`overrides, this`store, disk`files
      ensures Outcome(UnsetOp(key), WhereOf(where, dataset), dataset, old(disk.files), old(overrides)).Err? ==>
        r.Err? && disk.files == old(disk.files) && overrides == old(overrides) && store == old(store)
      ensures Outcome(UnsetOp(key), WhereOf(where, dataset), dataset, old(disk.files), old(overrides)).Ok? ==>
        r == Ok(()) &&
        (disk.files, overrides) == Outcome(UnsetOp(key), WhereOf(where, dataset), dataset, old(disk.files), old(overrides)).value &&
        store == (if reload then Fresh() else old(store))
    {
      r := Write(UnsetOp(key), WhereOf(where, dataset), reload);
    }

    /** `rename_section(src, dst, where, reload)`; a missing `where` is the default one. */
    method RenameSection(src: string, dst: string, where: Option<string>, reload: bool) returns (r: Result<(), ConfigError>)
      modifies this`overrides, this`store, disk`files
      ensures Outcome(RenameOp(src, dst), WhereOf(where, dataset), dataset, old(disk.files), old(overrides)).Err? ==>
        r.Err? && disk.files == old(disk.files) && overrides == old(overrides) && store == old(store)
      ensures Outcome(RenameOp(src, dst), WhereOf(where, dataset), dataset, old(disk.files), old(overrides)).Ok? ==>
        r == Ok(()) &&
        (disk.files, overrides) == Outcome(RenameOp(src, dst), WhereOf(where, dataset), dataset, old(disk.files), old(overrides)).value &&
        store == (if reload then Fresh() else old(store))
    {
      r := Write(RenameOp(src, dst), WhereOf(where, dataset), reload);
    }

    /** `remove_section(section, where, reload)`; a missing `where` is the default one. */
    method RemoveSection(section: string, where: Option<string>, reload: bool) returns (r: Result<(), ConfigError>)
      modifies this`overrides, this`store, disk`files
      ensures Outcome(RemoveOp(section), WhereOf(where, dataset), dataset, old(disk.files), old(overrides)).Err? ==>
        r.Err? && disk.files == old(disk.files) && overrides == old(overrides) && store == old(store)
      ensures Outcome(RemoveOp(section), WhereOf(where, dataset), dataset, old(disk.files), old(overrides)).Ok? ==>
        r == Ok(()) &&
        (disk.files, overrides) == Outcome(RemoveOp(section), WhereOf(where, dataset), dataset, old(disk.files), old(overrides)).value &&
        store == (if reload then Fresh() else old(store))
    {
      r := Write(RemoveOp(section), WhereOf(where, dataset), reload);
    }

    /**
      `obtain(key, ...)`: the decision taken on the current merged view, and
      when a value is to be stored, a `set` of its text at the destination
      (whose errors, such as an unknown destination, are raised).
    */
    method Obtain(key: string, defs: map<string, Definition>, default: Option<string>, dialog: Option<string>,
                  valtype: Option<ValType>, storeIt: bool, where: Option<string>, ui: Ui, reload: bool)
      returns (r: Result<Typed, ConfigError>)
      modifies this`overrides, this`store, disk`files
      ensures var p := Decide(old(store), defs, key, default, dialog, valtype, storeIt, where, ui);
        && (p.Fail? ==> r == Err(p.error) && unchanged(this, disk))
        && (p.Done? ==> r == Ok(p.value) && unchanged(this, disk))
        && (p.StoreThen? ==>
              var o := Outcome(SetOp(key, p.text, false), p.where, dataset, old(disk.files), old(overrides));
              && (o.Err? ==> r == Err(o.error) && unchanged(this, disk))
              && (o.Ok? ==> r == Ok(p.value) && (disk.files, overrides) == o.value && store == (if reload then Fresh() else old(store))))
    {
      match Decide(store, defs, key, default, dialog, valtype, storeIt, where, ui)
      case Fail(e) => r := Err(e);
      case Done(v) => r := Ok(v);
      case StoreThen(v, w, text) =>
        var written := Write(SetOp(key, text, false), w, reload);
        r := if written.Ok? then Ok(v) else Err(written.error);
    }
  }
}
