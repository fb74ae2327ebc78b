# datalad configuration manager and flyweight cache, in Dafny

This project models two pieces of datalad.

**The configuration manager** (`ConfigManager`). It is bound to an optional dataset and a `source` selector, and reads several layers:
- the system file;
- the global file;
- the repository's `.git/config`;
- the dataset's `.datalad/config`;
- an in-memory override layer;
- the `DATALAD_*` environment variables.

It merges them into one view, highest layer last. A later layer replaces a key's whole set of values. The view is rebuilt only on `reload`.

The model covers:
- reads: `get`, `cfg[key]`, `get_value`, `getint`, `getbool`, `has_section`, `has_option`, `sections`, `options`, `items` and `len`;
- the five writes (`add`, `set`, `unset`, `rename_section`, `remove_section`), each sent to the layer that `where` names;
- `obtain`;
- the pure function `rewrite_url`, which applies git's `url.<base>.insteadof` rules.

The implementation of the manager, `datalad/config.py`, is not part of this model. Its behaviour is modelled from what `datalad/tests/test_config.py` asserts about it. Where the tests leave a choice open, the model follows the manager's documented design: the layer order, the default `where`, and the order of the checks in `obtain`. It differs from git's own rules in two places, both listed under "## Left out".

**The flyweight metaclass** in `datalad/support/repo.py`. A class keeps at most one live instance per identifier. The identifier of a path-based class is computed from the `path` argument: aliases first, then the conversion to a local path, then resolution.

## Structure

| file | module | what it holds |
|---|---|---|
| `results.dfy` | `Results` | `Option` and `Result` |
| `config_layers.dfy` | `ConfigLayers` | values, layers, a file as its listing of `key=value` lines, reading a listing (a loop), merging layers |
| `config_keys.dfy` | `ConfigKeys` | `section.name` keys: last dot, section, name, renaming |
| `config_mutations.dfy` | `ConfigMutations` | the five writes, on a map (override layer) and line by line on a listing (file layer); lemmas that both give the same layer |
| `config_queries.dfy` | `ConfigQueries` | the read operations, `int()` and the lenient boolean reading |
| `config_sources.dfy` | `ConfigSources` | the `source` selector, the files it reads, the `where` of a write, the environment layer |
| `config_obtain.dfy` | `ConfigObtain` | the decision `obtain` takes |
| `config_manager.dfy` | `ConfigManagerModel` | classes `Disk` (the shared files), `Environ` (the process environment) and `ConfigManager` (the manager, whose methods update its override layer, its merged view and the files); precedence and isolation lemmas |
| `config_examples.dfy` | `ConfigExamples` | the example file of the tests and what reading it gives; the calls of `obtain` |
| `config_scenarios.dfy` | `ConfigScenarios` | sequences of calls on fresh managers: storing an answer, the environment and overrides |
| `url_rewrite.dfy` | `UrlRewrite` | `rewrite_url` |
| `url_rewrite_examples.dfy` | `UrlRewriteExamples` | the `insteadof` configuration of the tests and every one of its test inputs |
| `flyweight.dfy` | `Flyweight` | the identifier computation, and classes `Instance` and `FlyweightClass` (its `_unique_instances` map, `__call__`) |

Some parts of the program become parameters:
- the file backend is an in-memory map from file to listing;
- the environment is an ordered list of variables;
- the user interface is a value: whether it is interactive, the dialogs it offers, and the answer it gets;
- the prior knowledge about keys (`common_cfg.definitions`) is a map passed to `obtain`.

In the flyweight model, four hooks are parameters of the class:
- `RI(path).localpath`;
- `_flyweight_postproc_path`, which does the symlink resolution;
- `_flyweight_preproc_path`;
- `_flyweight_reject`.

## Model

| member | source | states |
|---|---|---|
| ConfigLayers.LayerOf | datalad/tests/test_config.py:72-76 | a file's layer has exactly the keys the file mentions, each with all its values in file order (a key defined twice reads back as both values) |
| ConfigLayers.ValuesOfMentions | datalad/tests/test_config.py:72-73 | a key has values in a file exactly when some line of the file defines it |
| ConfigLayers.ValuesOfAppend | datalad/tests/test_config.py:47-57 | file order is kept: the values of two listings in turn are the values of the first followed by those of the second |
| ConfigLayers.LayerOfSnoc | datalad/tests/test_config.py:47-57 | reading one more line appends its value to its key and leaves every other key alone |
| ConfigLayers.ParseListing | datalad/tests/test_config.py:71-76 | reading a file line by line (the loop a reload runs) builds exactly the file's layer |
| ConfigLayers.MergeKeys | datalad/tests/test_config.py:474-486 | a key is in the merged view iff at least one layer defines it |
| ConfigLayers.MergeTopmost | datalad/tests/test_config.py:345-353 | the merged value of a key is the whole value set of the highest layer defining it |
| ConfigLayers.MergeAbsent | datalad/tests/test_config.py:482-484 | a key no layer defines is absent from the merged view |
| ConfigKeys.LastDot | datalad/tests/test_config.py:80-86 | finds the last dot of a key, with no dot after it, or says there is none; the section is everything before it, so sections may contain dots |
| ConfigKeys.JoinKey | datalad/tests/test_config.py:82-86 | `section.option` with a dot-free option has exactly that section and name |
| ConfigKeys.SplitKey | datalad/tests/test_config.py:80-86 | every key with a section is its section, a dot and a dot-free name |
| ConfigKeys.RenameKeyParts | datalad/tests/test_config.py:131-136 | renaming section `src` to `dst` puts a key of `src` into `dst` and keeps its name |
| ConfigKeys.RenameKeyInjective | datalad/tests/test_config.py:131-136 | renaming a section never merges two of its keys |
| ConfigKeys.RenameImageSize | datalad/tests/test_config.py:131-136 | renaming a set of keys of one section gives exactly as many keys |
| ConfigMutations.LayerAdd | datalad/tests/test_config.py:367-375 | `add` appends the value after the key's earlier values; no other key changes |
| ConfigMutations.LayerSet | datalad/tests/test_config.py:151-167 | `set` fails iff the key has several values and `force` is off; otherwise the key holds exactly the new value |
| ConfigMutations.LayerUnset | datalad/tests/test_config.py:363-366 | `unset` fails iff the key is absent; otherwise exactly that key goes |
| ConfigMutations.LayerRename | datalad/tests/test_config.py:137-139 | `rename_section` fails iff no key lies in the source section |
| ConfigMutations.LayerRenameOk | datalad/tests/test_config.py:132-134 | a section holding a key is always renamed |
| ConfigMutations.MoveSectionKey | datalad/tests/test_config.py:376-382 | renaming moves each key of the section, with its values, to the renamed key, and the old key is gone |
| ConfigMutations.LayerRemoveSection | datalad/tests/test_config.py:383-392 | `remove_section` drops exactly the keys of that section and keeps the rest |
| ConfigMutations.FileAddIsLayerAdd | datalad/tests/test_config.py:145-149 | appending a line to a file has the same effect on its layer as `add` on a map |
| ConfigMutations.ReplaceOnce | datalad/tests/test_config.py:155-157 | replacing the single line of a key gives the key exactly the new value |
| ConfigMutations.ReplaceAll | datalad/tests/test_config.py:165-167 | dropping all lines of a key and appending one line collapses the key to that one value |
| ConfigMutations.FileSetIsLayerSet | datalad/tests/test_config.py:151-167 | `set` on a file reads back as `set` on its layer, errors included: creates, replaces, fails with two values when not forced, collapses when forced |
| ConfigMutations.FileUnsetIsLayerUnset | datalad/tests/test_config.py:196-199 | `unset` on a file reads back as `unset` on its layer, errors included |
| ConfigMutations.FileRemoveSectionIsLayerRemoveSection | datalad/tests/test_config.py:203-205 | removing a section's lines reads back as `remove_section` on the layer |
| ConfigMutations.MoveSectionLookup | datalad/tests/test_config.py:131-136 | after renaming into a new section, a key of `dst` holds the values of the same-named key of `src`; keys of other sections are not affected |
| ConfigMutations.RenameLinesValues | datalad/tests/test_config.py:131-136 | when the target section is new, renaming each line of a file in place gives every renamed key the values of its source key |
| ConfigMutations.FileRenameIsLayerRename | datalad/tests/test_config.py:131-139 | renaming a file's lines reads back as `rename_section` on its layer, errors included |
| ConfigQueries.View | datalad/tests/test_config.py:110-115 | one missing value reads as a flag (`None`), one string as a string, several values as all of them in order |
| ConfigQueries.Get | datalad/tests/test_config.py:102-105 | `get` gives a value iff the key is present, and then gives all of the key's values |
| ConfigQueries.GetItem | datalad/tests/test_config.py:106 | `cfg[key]` raises `KeyError` with the key iff the key is absent, otherwise it agrees with `get` |
| ConfigQueries.GetValue | datalad/tests/test_config.py:119-123 | `get_value` reads the key; when absent it gives the default, or raises `KeyError` when the default is `None` |
| ConfigQueries.ParseInt | datalad/tests/test_config.py:108 | `int()` succeeds iff the text is a non-empty digit string, or a sign followed by one; it gives the decimal value, negated after `-` |
| ConfigQueries.IntRoundTrip | datalad/tests/test_config.py:310-320 | reading back the written notation of any integer gives the integer |
| ConfigQueries.AnythingToBool | datalad/tests/test_config.py:109-117 | empty, `off`/`no`/`false`/`0` (any case) are false; `on`/`yes`/`true` and non-zero numbers are true; the rest raise `TypeError` |
| ConfigQueries.GetBool | datalad/tests/test_config.py:109-117 | a flag is true; a string is read leniently; several values raise `TypeError`; an absent key gives the default, or true with no default |
| ConfigQueries.GetInt | datalad/tests/test_config.py:108 | `getint` raises `KeyError` for an absent key and otherwise parses the key's single value |
| ConfigQueries.Items | datalad/tests/test_config.py:95-100 | `items(section)` has exactly the keys whose section is that one, with their values |
| ConfigQueries.OptionsExact | datalad/tests/test_config.py:82-86 | an option is listed for a section iff the exact key `section.option` is present (no wildcards) |
| ConfigQueries.SectionsHaveOptions | datalad/tests/test_config.py:80-86 | a section is listed iff it has at least one option |
| ConfigQueries.HasOptionHasSection | datalad/tests/test_config.py:128-130 | a present option implies its section is present |
| ConfigSources.ParseSource | datalad/tests/test_config.py:237-239 | only `dataset`, `local`, `dataset-local` and `any` are selectors |
| ConfigSources.Resolve | datalad/tests/test_config.py:69 | a manager is built iff the selector is known and a dataset is given when the selector needs one; otherwise `ValueError` |
| ConfigSources.CfgFiles | datalad/tests/test_config.py:228-236 | which files each selector reads, lowest precedence first (system, global, repository, dataset): `local` never reads the dataset file, `any` does, `dataset-local` reads no system or global file; only the bound dataset's own files are ever read |
| ConfigSources.ParseWhere | datalad/tests/test_config.py:170 | only `dataset`, `local`, `global` and `override` are write targets; anything else raises `ValueError` |
| ConfigSources.TargetOf | datalad/tests/test_config.py:465-470 | the layer each `where` writes, and the errors without a dataset: `local` fails in the backend, `dataset` raises `ValueError` |
| ConfigSources.DefaultWhere | datalad/tests/test_config.py:182-185 | a write with no `where` goes to the dataset file of a bound manager and to the global file otherwise; the write methods use it when `where` is left out |
| ConfigSources.EnvKey | datalad/tests/test_config.py:338-341 | a variable's key is its name with underscores as dots, in lower case |
| ConfigSources.EnvLayerKeys | datalad/tests/test_config.py:175-181 | every environment key lies under `datalad.` |
| ConfigSources.EnvLayerValue | datalad/tests/test_config.py:338-341 | a `DATALAD_*` variable gives its key exactly its value |
| ConfigSources.CrazyCfgKey | datalad/tests/test_config.py:338-341 | `DATALAD_CRAZY_CFG` is the key `datalad.crazy.cfg` |
| ConfigObtain.Convert | datalad/tests/test_config.py:251-255 | no type returns the value as it is; the int type succeeds iff the value is one string `int()` accepts, and gives its number; the bool type reads a flag as true and a string leniently; every failure is `ValueError` |
| ConfigObtain.Decide | datalad/tests/test_config.py:243-321 | each argument left out is taken from the key's definition. A present value is converted, and returned as it is with no type. With nothing stored, a default is used unless storing. No default and no way to ask raises `RuntimeError`, even when a type is known. A dialog the interface lacks is `ValueError`. Storing with no destination always fails, and is `ValueError` when the interface could ask. A malformed answer is `ValueError`; a good one is returned, or stored at the destination. A value is stored only when asked for and absent |
| ConfigObtain.StoreWithoutDestinationNeverAsks | datalad/tests/test_config.py:295-299 | storing without a destination fails whatever the user would answer, with `ValueError` when the interface offers the dialog |
| ConfigManagerModel.StoreKeys | datalad/tests/test_config.py:500-505 | a key is in the merged view iff one of the files read, the overrides or (when read) the environment defines it |
| ConfigManagerModel.OverrideShadowsFiles | datalad/tests/test_config.py:207-214 | an override is what its key reads, whatever the files hold, unless the environment sets the key |
| ConfigManagerModel.EnvironmentWins | datalad/tests/test_config.py:345-353 | a `DATALAD_*` variable beats files and overrides |
| ConfigManagerModel.FileValueVisible | datalad/tests/test_config.py:474-486 | a file's value is read when no later file, override or environment variable sets the key |
| ConfigManagerModel.DatasetFileBeatsRepoFile | datalad/tests/test_config.py:473-486 | `dataset-local` mode reads both the repository file and the dataset file; the dataset file comes later, so a key it sets reads as its values in every mode that reads it, unless an override or the environment sets it |
| ConfigManagerModel.OnlyListedFilesRead | datalad/tests/test_config.py:456-461 | the merged view depends only on the files the manager lists |
| ConfigManagerModel.NoLeaks | datalad/tests/test_config.py:439-454 | a write by one dataset's manager to its `.git/config` or `.datalad/config` changes nothing another dataset's manager, or a dataset-less one, reads |
| ConfigManagerModel.EnvironmentOnlyKey | datalad/tests/test_config.py:335-344 | a key only the environment sets is read in every mode except dataset-only |
| ConfigManagerModel.ApplyAgrees | datalad/tests/test_config.py:356-392 | each write to a file and the same write to the override layer give the same layer, errors included |
| ConfigManagerModel.FileWriteKeepsOverride | datalad/tests/test_config.py:207-214 | a write to a file leaves the overrides alone, so an overridden key keeps its override value |
| ConfigManagerModel.UnsetOverrideRevealsFile | datalad/tests/test_config.py:363-366 | unsetting an override removes only the override and the file's value shows again |
| ConfigManagerModel.OverrideAddTwice | datalad/tests/test_config.py:367-375 | the first override `add` reads as one string, the second as both values in order |
| ConfigManagerModel.RenameOverrideOutcome | datalad/tests/test_config.py:378 | renaming an override section that holds a key succeeds and changes only the override layer |
| ConfigManagerModel.RenameOverrideKeepsFiles | datalad/tests/test_config.py:376-382 | renaming an override section moves only the override entries: the old key reads its file value, the new key the override's values |
| ConfigManagerModel.RenameKeepsItemCount | datalad/tests/test_config.py:131-136 | renaming a section into a new one keeps the number of its items |
| ConfigManagerModel.RemoveOverrideSection | datalad/tests/test_config.py:383-392 | removing an override section hides its keys unless a file or the environment sets them |
| ConfigManagerModel.Environ.Put | datalad/tests/test_config.py:338 | setting a variable replaces it in place, keeping the others, or appends it; names stay distinct |
| ConfigManagerModel.ConfigManager.constructor | datalad/tests/test_config.py:207-210 | a new manager lists the files of its selector and holds the merged view of files, overrides and environment |
| ConfigManagerModel.ConfigManager.New | datalad/tests/test_config.py:237-239 | construction fails exactly as the selector check does, otherwise gives a manager with a fresh merged view |
| ConfigManagerModel.ConfigManager.Reload | datalad/tests/test_config.py:186-188 | after a reload the merged view is that of the current files, overrides and environment |
| ConfigManagerModel.ConfigManager.Write | datalad/tests/test_config.py:144-150 | a failing write changes nothing; a succeeding one updates exactly its target layer, and the view is rebuilt only when `reload` is set |
| ConfigManagerModel.ConfigManager.Add | datalad/tests/test_config.py:125-130 | `add` through the manager, as `Write`; a missing `where` is the default one |
| ConfigManagerModel.ConfigManager.Set | datalad/tests/test_config.py:151-167 | `set` through the manager, as `Write`; a missing `where` is the default one |
| ConfigManagerModel.ConfigManager.Unset | datalad/tests/test_config.py:189-199 | `unset` through the manager, as `Write`; `local` without a repository fails; a missing `where` is the default one |
| ConfigManagerModel.ConfigManager.RenameSection | datalad/tests/test_config.py:131-139 | `rename_section` through the manager, as `Write`; a missing `where` is the default one |
| ConfigManagerModel.ConfigManager.RemoveSection | datalad/tests/test_config.py:203-205 | `remove_section` through the manager, as `Write`; a missing `where` is the default one |
| ConfigManagerModel.ConfigManager.Obtain | datalad/tests/test_config.py:243-321 | returns what `Decide` chooses; a value to store is `set` at its destination, whose errors are raised, and the view is rebuilt when `reload` is set |
| ConfigExamples.ExampleFileLayer | datalad/tests/test_config.py:47-57 | the example file reads as five keys: `user` with both values, the flag `novalue`, the empty `empty`, `myint`, `findme` |
| ConfigExamples.ExampleReads | datalad/tests/test_config.py:72-76 | five distinct keys, the two `user` values in order, the flag and the empty string, `KeyError` for a misspelt key |
| ConfigExamples.ExampleTypedReads | datalad/tests/test_config.py:108-123 | `getint` of `myint` is 3; `getbool` is true for `myint` and `novalue`, false for `empty`, the default when absent, `TypeError` for `user`; `get_value` gives the default or `KeyError` |
| ConfigExamples.ExampleSections | datalad/tests/test_config.py:78-86 | `something` is a section, `somethingelse` is not; `us?er` and `some?thing` match nothing |
| ConfigExamples.ObtainExamples | datalad/tests/test_config.py:246-264 | the calls of `obtain` with nothing to ask (integers in place of floats): `RuntimeError` with nothing known, or with only a type known; the stored `5.3` as it is; `ValueError` for `int`; a predefined type applied |
| ConfigExamples.ObtainAskExamples | datalad/tests/test_config.py:268-292 | the calls that ask: an unknown dialog is `ValueError`; a dialog given in the call or predefined gets the converted answer; the answer `murks` is `ValueError` |
| ConfigExamples.ObtainStoreExamples | datalad/tests/test_config.py:294-314 | storing: no destination is `ValueError` without asking; with the destination `broken` or `dataset`, the answer is to be stored there |
| ConfigScenarios.ObtainAndStore | datalad/tests/test_config.py:301-321 | on a fresh manager, storing at `broken` fails with `ValueError`; storing at `dataset` returns the answer; afterwards `obtain` finds the value without asking |
| ConfigScenarios.FromEnvironment | datalad/tests/test_config.py:335-341 | a `DATALAD_*` variable set after the manager was built is absent before the next reload and read as its value after it |
| ConfigScenarios.DatasetOnlyIgnoresEnvironment | datalad/tests/test_config.py:342-344 | a dataset-only manager does not read the environment |
| ConfigScenarios.EnvironmentBeatsOverride | datalad/tests/test_config.py:345-353 | an override set with `where='override'` is read until a variable sets the same key; after a reload the variable wins |
| UrlRewrite.BaseOf | datalad/tests/test_config.py:425-428 | the base of a `url.<base>.insteadof` key is read back out of it |
| UrlRewrite.BaseOfKey | datalad/tests/test_config.py:425-428 | the key built from a base is an `insteadof` key, and its base is that base |
| UrlRewrite.LastMatch | datalad/tests/test_config.py:416-417 | the tag an entry contributes is its last value that prefixes the URL, and none iff no value does |
| UrlRewrite.Matches | datalad/tests/test_config.py:429-431 | exactly the `insteadof` keys with a matching tag, each with that tag |
| UrlRewrite.Longest | datalad/tests/test_config.py:429-431 | the longest tag that prefixes the URL, or none iff no tag does |
| UrlRewrite.RewriteUrl | datalad/tests/test_config.py:429-433 | a warning is issued only when the URL is returned unchanged |
| UrlRewrite.NoMatch | datalad/tests/test_config.py:397-398 | with no matching tag the URL is unchanged and nothing is warned |
| UrlRewrite.UniqueOwner | datalad/tests/test_config.py:399-405 | the longest matching tag, owned by one key, is replaced by that key's base |
| UrlRewrite.Conflict | datalad/tests/test_config.py:406-409 | the longest matching tag, owned by two keys, leaves the URL unchanged with a warning |
| UrlRewrite.RewriteSource | datalad/tests/test_config.py:399-405 | every rewrite without a warning is either the identity or a base replacing a tag owned by one key |
| UrlRewriteExamples.UnmatchedUnchanged | datalad/tests/test_config.py:398 | `unicorn`, followed by anything, stays as it is |
| UrlRewriteExamples.LabelRewrite | datalad/tests/test_config.py:400 | `example:` followed by anything becomes `git@example.com:` followed by the same |
| UrlRewriteExamples.ProtocolRewrite | datalad/tests/test_config.py:402 | `git://example` followed by anything becomes `https://example` followed by the same |
| UrlRewriteExamples.FirstLabelRewrite | datalad/tests/test_config.py:404 | the first tag of the multi-valued entry rewrites to its base |
| UrlRewriteExamples.SecondLabelRewrite | datalad/tests/test_config.py:405 | so does its second tag |
| UrlRewriteExamples.ConflictIgnored | datalad/tests/test_config.py:407 | `conflict`, claimed by two hosts, is left alone with a warning |
| UrlRewriteExamples.HiddenConflictIgnored | datalad/tests/test_config.py:409 | `conflict2`, longer than `conflict` and claimed by two hosts (once inside a multi-value), is left alone with a warning |
| Flyweight.DefaultPreproc | datalad/support/repo.py:174-179 | the default preprocessing hook returns the path unchanged |
| Flyweight.DefaultReject | datalad/support/repo.py:119-141 | the default rejection hook never rejects |
| Flyweight.PathArgument | datalad/support/repo.py:196-207 | the path is the first positional argument (the rest go on) or the popped `path` keyword; both fail the assertion; neither raises `TypeError` |
| Flyweight.RequestOf | datalad/support/repo.py:194-228 | the base scheme raises `NotImplementedError`; a `None` path raises `ValueError`; a path whose conversion to a local path fails raises that failure; otherwise the identifier is `postproc(localpath(preproc(path)))` and the keywords carry it as `path` |
| Flyweight.PathKeywordIsId | datalad/support/repo.py:227-228 | the keywords handed to the constructor always hold the identifier as `path` |
| Flyweight.PositionalOrKeyword | datalad/support/repo.py:196-205 | a path given as the only positional argument or as the `path` keyword gives the same request |
| Flyweight.DefaultPreprocId | datalad/support/repo.py:213-225 | with the default preprocessing hook the identifier is the resolved local form of the path itself |
| Flyweight.FlyweightClass.DistinctIdsDistinctInstances | datalad/support/repo.py:63-67 | distinct identifiers hold distinct cached objects |
| Flyweight.FlyweightClass.IdFromArgs | datalad/support/repo.py:70-92 | the step-by-step computation agrees with `RequestOf`, so the base class always raises `NotImplementedError` |
| Flyweight.FlyweightClass.Call | datalad/support/repo.py:143-169 | errors leave the cache alone; an absent or invalid instance is replaced by a new one under the identifier, and no other entry changes; a valid cached one is returned unless the hook's message raises `InvalidInstanceRequestError`, and then the cache is unchanged |
| Flyweight.SamePathSameInstance | datalad/support/repo.py:63-67 | two requests for one path give the same object, a request for another path a different one |

## Left out

- `datalad/config.py` is not part of this model. The manager's behaviour follows the tests that exercise it. `has_section` is a plain prefix test of the keys, which is what test_config.py:129-130 requires.
- The git-config subprocess. Its failures are `CommandError` results on the in-memory layers, and git's own file format and quoting are not modelled.
- Backend and file I/O: the filesystem, `HOME`, `chpwd` and dataset creation. The isolation tests reduce to which files a selector lists and which file a write touches.
- The behaviour of git versions before 2.18, which leave an empty section in the file. It depends on the backend's version.
- `getfloat` and `valtype=float`. There are no floating-point values, and the obtain examples use integers where the tests use `5.3`.
- The interactive UI. It is a `Ui` value, and dialog texts and titles are not modelled.
- Logging. Of the warnings, only the `warned` flag of `rewrite_url` remains.
- `WeakValueDictionary` garbage collection. The cache is an ordinary map, so entries never disappear by themselves.
- `Path.resolve().absolute()` and `RI(...).localpath`. They are parameters of the class: they touch the filesystem or parse URLs.
- The constructor of a cached class cannot fail in the model, because its body is not part of the core.
- The empty `RepoInterface` class.
- ConfigQueries.Lower: lower-cases only ASCII letters, because full Unicode case folding is not modelled.
- ConfigQueries.ParseInt: accepts only an optional sign and ASCII digits; the surrounding whitespace and the digit-grouping underscores that Python's `int()` also admits are not modelled.
- ConfigMutations.FileRenameIsLayerRename: holds only when the target section is new. Renaming into a section that already has keys is left out, because the order in which git would then list the lines is backend-specific.
- ConfigManagerModel.ApplyAgrees: for a rename, states the agreement only when the target section is new, for the same reason.
- ConfigManagerModel.ConfigManager.Reload: always re-reads every file. The `force` flag and the check that skips a reload when no file changed are not modelled.
- ConfigObtain.Decide: a key set only as a bare flag counts as absent, as `obtain` tests for a value of `None`.
- RenameLinesValues: holds only when the target section is new, for the same reason as FileRenameIsLayerRename.
- Key case: git treats section and variable names as case-insensitive. The model compares keys verbatim, as the tests only use lower-case keys.
- LayerRemoveSection: removing a section that has no key succeeds and changes nothing. git's `--remove-section` reports an error then, and the tests never remove a missing section.
- `ConfigManager()` with no `source` means `any`. ConfigManager.New takes the selector text explicitly.
- Overrides hold strings only. The boolean override `{'datalad.godgiven': True}` of test_config.py:207-214 is modelled as a string value.
- UrlRewrite.RewriteUrl: an `insteadof` entry without a value never matches.
- `sections()` and `options()` are set-valued. The order the tests sort is not modelled.
- `items()` without a section is the merged view itself, with no separate member.
