/**
  The flyweight identity cache behind repository and dataset objects: a
  class keeps at most one live instance per identifier, computed from the
  constructor arguments; asking for an instance whose identifier is already
  cached returns the cached object instead of building a new one.
*/
module Flyweight {
  import opened Results

  /** A constructor argument, as far as the identifier computation tells them apart. */
  datatype Arg =
    | NoneArg              // Python's None
    | Text(s: string)      // a string path
    | PurePath(s: string)  // a path object
    | Other(n: int)        // anything else

  datatype FlyError =
    | AssertionError
    | TypeError(msg: string)
    | ValueError(msg: string)
    | NotImplementedError
    | LocalPathError(msg: string)             // raised while turning the path into a local one
    | InvalidInstanceRequest(id: string, msg: string)

  /** The identifier and the arguments handed on to the constructor. */
  datatype Request = Request(id: string, args: seq<Arg>, kwargs: map<string, Arg>)

  /**
    How identifiers are computed: the base metaclass leaves it to subclasses;
    the path-based one derives it from the `path` argument, with a
    preprocessing hook (aliases) and a postprocessing hook (resolution to a
    canonical absolute path).
  */
  datatype Scheme =
    | BaseScheme
    | PathBased(preproc: Arg -> Arg, postproc: string -> string)

  /** The default preprocessing hook: no aliases. */
  function DefaultPreproc(path: Arg): (r: Arg)
    ensures r == path
  {
    path
  }

  /** The default rejection hook: no request is ever rejected. */
  function DefaultReject(id: string, args: seq<Arg>, kwargs: map<string, Arg>): (r: Option<string>)
    ensures r.None?
  {
    None
  }

  /** The path argument: the first positional one, otherwise the `path` keyword. */
  function PathArgument(args: seq<Arg>, kwargs: map<string, Arg>): (r: Result<(Arg, seq<Arg>, map<string, Arg>), FlyError>)
    ensures |args| > 0 && "path" in kwargs <==> r == Err(AssertionError)
    ensures |args| == 0 && "path" !in kwargs <==> r.Err? && r.error.TypeError?
    ensures |args| > 0 && "path" !in kwargs ==> r == Ok((args[0], args[1..], kwargs))
    ensures |args| == 0 && "path" in kwargs ==> r == Ok((kwargs["path"], args, kwargs - {"path"}))
  {
    if |args| > 0 then
      if "path" in kwargs then Err(AssertionError) else Ok((args[0], args[1..], kwargs))
    else if "path" in kwargs then Ok((kwargs["path"], args, kwargs - {"path"}))
    else Err(TypeError("__init__() requires argument `path`"))
  }

  /**
    `cls._flyweight_id_from_args(*args, **kwargs)`. `localpath` stands for
    the URL parsing that turns a path into a local one, or fails.
  */
  function RequestOf(scheme: Scheme, localpath: Arg -> Result<string, FlyError>,
                     args: seq<Arg>, kwargs: map<string, Arg>): (r: Result<Request, FlyError>)
    ensures scheme.BaseScheme? ==> r == Err(NotImplementedError)
    ensures scheme.PathBased? && PathArgument(args, kwargs).Err? ==> r == Err(PathArgument(args, kwargs).error)
    ensures scheme.PathBased? && PathArgument(args, kwargs).Ok? ==>
      var (path, rest, kw) := PathArgument(args, kwargs).value;
      && (path == NoneArg ==> r.Err? && r.error.ValueError?)
      && (path != NoneArg && localpath(scheme.preproc(path)).Err? ==> r == Err(localpath(scheme.preproc(path)).error))
      && (path != NoneArg && localpath(scheme.preproc(path)).Ok? ==>
            var id := scheme.postproc(localpath(scheme.preproc(path)).value);
            r == Ok(Request(id, rest, kw["path" := Text(id)])))
  {
    match scheme
    case BaseScheme => Err(NotImplementedError)
    case PathBased(preproc, postproc) =>
      match PathArgument(args, kwargs)
      case Err(e) => Err(e)
      case Ok((path, rest, kw)) =>
        if path == NoneArg then Err(ValueError("path must not be None"))
        else
          match localpath(preproc(path))
          case Err(e) => Err(e)
          case Ok(local) =>
            var id := postproc(local);
            Ok(Request(id, rest, kw["path" := Text(id)]))
  }

  /** The constructor always receives the identifier as its `path` keyword. */
  lemma PathKeywordIsId(scheme: Scheme, localpath: Arg -> Result<string, FlyError>,
                        args: seq<Arg>, kwargs: map<string, Arg>)
    requires RequestOf(scheme, localpath, args, kwargs).Ok?
    ensures var req := RequestOf(scheme, localpath, args, kwargs).value;
      "path" in req.kwargs && req.kwargs["path"] == Text(req.id)
  {
  }

  /**
    Passing the path as the only positional argument or as the `path`
    keyword makes no difference. (With further positional arguments the
    keyword form fails the assertion instead.)
  */
  lemma PositionalOrKeyword(scheme: Scheme, localpath: Arg -> Result<string, FlyError>,
                            path: Arg, kwargs: map<string, Arg>)
    requires "path" !in kwargs
    ensures RequestOf(scheme, localpath, [path], kwargs) == RequestOf(scheme, localpath, [], kwargs["path" := path])
  {
    assert [path][1..] == [];
    assert kwargs["path" := path] - {"path"} == kwargs;
  }

  /** Under the default preprocessing hook the identifier is the resolved local path. */
  lemma DefaultPreprocId(postproc: string -> string, localpath: Arg -> Result<string, FlyError>, path: string)
    requires localpath(Text(path)).Ok?
    ensures RequestOf(PathBased(DefaultPreproc, postproc), localpath, [Text(path)], map[])
      == Ok(Request(postproc(localpath(Text(path)).value), [], map["path" := Text(postproc(localpath(Text(path)).value))]))
  {
    assert [Text(path)][1..] == [];
  }

  /** A cached object. `invalid` is what its `_flyweight_invalid()` currently answers. */
  class Instance {
    /** The identifier it was created under, which it also holds as its path. */
    const id: string
    const args: seq<Arg>
    const kwargs: map<string, Arg>
    var invalid: bool

    constructor (id: string, args: seq<Arg>, kwargs: map<string, Arg>)
      ensures this.id == id && this.args == args && this.kwargs == kwargs && !invalid
    {
      this.id := id;
      this.args := args;
      this.kwargs := kwargs;
      invalid := false;
    }

    /** The object stops being usable, say because its repository was removed. */
    method Invalidate()
      modifies this
      ensures invalid
    {
      invalid := true;
    }
  }

  /** A class using the flyweight metaclass, with its `_unique_instances` dictionary. */
  class FlyweightClass {
    const scheme: Scheme
    const localpath: Arg -> Result<string, FlyError>
    const reject: (string, seq<Arg>, map<string, Arg>) -> Option<string>
    var unique: map<string, Instance>

    /** Every cached instance sits under its own identifier, so distinct identifiers hold distinct objects. */
    ghost predicate Valid()
      reads this
    {
      forall id :: id in unique ==> unique[id].id == id
    }

    constructor (scheme: Scheme, localpath: Arg -> Result<string, FlyError>,
                 reject: (string, seq<Arg>, map<string, Arg>) -> Option<string>)
      ensures Valid() && unique == map[]
      ensures this.scheme == scheme && this.localpath == localpath && this.reject == reject
    {
      this.scheme := scheme;
      this.localpath := localpath;
      this.reject := reject;
      unique := map[];
    }

    lemma DistinctIdsDistinctInstances(a: string, b: string)
      requires Valid() && a in unique && b in unique && a != b
      ensures unique[a] != unique[b]
    {
      assert unique[a].id == a && unique[b].id == b;
    }

    /** `_flyweight_id_from_args`, updating the arguments as the source does. */
    method IdFromArgs(args: seq<Arg>, kwargs: map<string, Arg>) returns (r: Result<Request, FlyError>)
      ensures r == RequestOf(scheme, localpath, args, kwargs)
    {
      if scheme.BaseScheme? {
        return Err(NotImplementedError);
      }
      var rest := args;
      var kw := kwargs;
      var path: Arg;
      if |rest| > 0 {
        if "path" in kw {
          return Err(AssertionError);
        }
        path := rest[0];
        rest := rest[1..];
      } else if "path" in kw {
        path := kw["path"];
        kw := kw - {"path"};
      } else {
        return Err(TypeError("__init__() requires argument `path`"));
      }
      if path == NoneArg {
        return Err(ValueError("path must not be None"));
      }
      var aliased := scheme.preproc(path);
      // mirrors the conversion the constructor does; the identifier does not depend on it
      if path.PurePath? {
        path := Text(path.s);
      }
      var local := localpath(aliased);
      if local.Err? {
        return Err(local.error);
      }
      var id := scheme.postproc(local.value);
      kw := kw["path" := Text(id)];
      r := Ok(Request(id, rest, kw));
    }

    /**
      `cls(*args, **kwargs)`: a cached, still valid instance is returned
      unless the rejection hook objects; otherwise a new instance is built
      and cached under the identifier. Only that one entry ever changes.
    */
    method Call(args: seq<Arg>, kwargs: map<string, Arg>) returns (r: Result<Instance, FlyError>)
      requires Valid()
      modifies this
      ensures Valid()
      ensures var req := RequestOf(scheme, localpath, args, kwargs);
        && (req.Err? ==> r == Err(req.error) && unique == old(unique))
        && (req.Ok? && (req.value.id !in old(unique) || old(unique[req.value.id].invalid)) ==>
              && r.Ok? && fresh(r.value) && !r.value.invalid
              && r.value.id == req.value.id && r.value.args == req.value.args && r.value.kwargs == req.value.kwargs
              && unique == old(unique)[req.value.id := r.value])
        && (req.Ok? && req.value.id in old(unique) && !old(unique[req.value.id].invalid) ==>
              var msg := reject(req.value.id, req.value.args, req.value.kwargs);
              && unique == old(unique)
              && (msg.Some? ==> r == Err(InvalidInstanceRequest(req.value.id, msg.value)))
              && (msg.None? ==> r == Ok(old(unique[req.value.id]))))
    {
      var req := IdFromArgs(args, kwargs);
      if req.Err? {
        return Err(req.error);
      }
      var Request(id, newArgs, newKwargs) := req.value;
      if id !in unique || unique[id].invalid {
        var instance := new Instance(id, newArgs, newKwargs);
        unique := unique[id := instance];
        r := Ok(instance);
      } else {
        var msg := reject(id, newArgs, newKwargs);
        if msg.Some? {
          return Err(InvalidInstanceRequest(id, msg.value));
        }
        r := Ok(unique[id]);
      }
    }
  }

  function ResolvedText(a: Arg): Result<string, FlyError> {
    match a
    case Text(s) => Ok(s)
    case PurePath(s) => Ok(s)
    case _ => Err(LocalPathError("not a local path"))
  }

  /**
    Two requests for the same path give the same object; a request for
    another path gives a different one.
  */
  method SamePathSameInstance() returns (a: Instance, b: Instance, c: Instance)
    ensures a == b && c != a
  {
    var cls := new FlyweightClass(PathBased(DefaultPreproc, p => p), ResolvedText, DefaultReject);
    var ra := cls.Call([Text("/ds")], map[]);
    assert [Text("/ds")][1..] == [];
    var rb := cls.Call([], map["path" := Text("/ds")]);
    assert map["path" := Text("/ds")] - {"path"} == map[];
    var rc := cls.Call([PurePath("/other")], map[]);
    assert [PurePath("/other")][1..] == [];
    a, b, c := ra.value, rb.value, rc.value;
  }
}
