# conda-press: configuration and artifact selection, modelled in Dafny

conda-press converts conda packages into pip wheels. This project models two
parts of that program and proves properties about them:

- The configuration of a conversion run (`conda_press/config.py`). This covers
  the `Config` record and its defaults. It covers the channel list with the
  fixed defaults `conda-forge, anaconda, main, r` appended, and the platform
  subdirectory list with the `noarch` fallback appended. It covers the
  dependency clean-up `(deps ∪ add_deps) \ exclude_deps`, the shared-library
  extension per operating system, and the overlay of a parsed YAML document
  onto a `Config` object.
- The artifact selection in the test fixtures (`tests/conftest.py`).
  `download_artifact` routes a reference to the arch or noarch index, keeps
  only records that match the running interpreter, and picks the last one.
  The dependency-tree fixture lists the produced wheels for `pip install`.

Files:

- `wrappers.dfy`: `Option` and `Result`.
- `pyvalues.dfy`: the Python values involved. This covers None, booleans,
  strings, lists, sets and mappings, what `set()` accepts, and `sub in s` on
  strings.
- `config.dfy`, module `PressConfig`: the `Config` class, its queries, and
  the YAML overlay.
- `conftest.dfy`, module `Conftest`: record routing, filtering and picking,
  and the install order.

Python does not enforce the dataclass annotations. A YAML override is stored
with whatever shape it has. So the `Config` fields hold a `Value`, and every
query returns a `Result`. The `TypeError` case is where Python's `+` or
`set()` rejects the stored value. `WellTyped` names the annotated shapes.
`OverlayWellTyped` shows that a document of the expected shapes keeps a
configuration well-typed.

Three consequences of the code are worth stating:

- `get_config_by_yaml` assigns the fields of the `Config` object it is given
  one after another (conda_press/config.py:98-116). If `convert_to_set`
  raises, the fields assigned before it keep their new values (`OverlayInto`,
  `OverlayFieldwise`).
- The stored `subdir` is kept as given. Only `get_all_subdir` appends
  `noarch`, and it does not remove duplicates (`AllSubdirs`).
- A key that is missing or None does not always leave the field unchanged.
  `channels`, `add_deps` and `exclude_deps` pass through `convert_to_list` or
  `convert_to_set` even then. So a string in one of those fields is normalised
  by any overlay. The field is left unchanged when it already has its
  annotated shape (`OverlayWellTyped`). Only a string is rewritten, and for
  `add_deps` and `exclude_deps` also a list; None, sets and mappings pass
  through unchanged.

## Model

| member | source | states |
|---|---|---|
| `PressConfig.SoExt` | conda_press/config.py:9-17 | Linux, Darwin and Windows each get an extension beginning with `.`; any other system raises `ValueError("System <name> is not supported.")` |
| `PressConfig.SoExtInjective` | conda_press/config.py:10-15 | two different supported systems never get the same extension |
| `PressConfig.Config.constructor` | conda_press/config.py:20-32 | a default `Config` has empty subdir, channels, add_deps and exclude_deps, output None, strip_symbols and include_requirements true, and every other flag false |
| `PressConfig.Config.FromSettings` | conda_press/config.py:20-32 | keyword construction stores every given value as it is, without any check |
| `PressConfig.DefaultWellTyped` | conda_press/config.py:22-32 | every default has the shape the annotations give |
| `PressConfig.Config.AllChannels` | conda_press/config.py:34-35 | for a list of channels, the result is the user's channels in order followed by exactly `conda-forge, anaconda, main, r`, so its length is the user's count plus 4; anything else raises `TypeError` |
| `PressConfig.Config.AllSubdirs` | conda_press/config.py:37-40 | a string `s` gives exactly `[s, "noarch"]`; a list `L` gives `L` followed by `"noarch"`, with nothing removed; `"noarch"` is always last; other shapes raise `TypeError` |
| `PressConfig.Config.CleanDeps` | conda_press/config.py:42-56 | an excluded name is never in the result, even when it is also added or given; every given or added name that is not excluded is in the result; nothing else is; `TypeError` exactly when one of the three is not iterable (a set, a list, a string read as its characters, or a mapping read as its keys) or yields an unhashable element |
| `PressConfig.CleanDepsIdempotent` | conda_press/config.py:56 | cleaning an already-cleaned set changes nothing |
| `PressConfig.CleanDepsOnlySeesSet` | conda_press/config.py:56 | a list, duplicates and order included, gives the same result or the same error as the set of its items |
| `PressConfig.CleanDepsExamples` | conda_press/config.py:56 | declared `opencv` plus added `six` gives `{opencv, six}` |
| `PressConfig.CleanDepsReplacement` | conda_press/config.py:56 | declared `opencv`, excluded `opencv`, added `opencv-python` gives `{opencv-python}` |
| `PressConfig.YamlAttrChoice` | conda_press/config.py:93-96 | `yaml_attr`: the section's value when the key is present and not None, otherwise the field's current value; so a None in the section never replaces a value that is not None |
| `PressConfig.SelectSection` | conda_press/config.py:85-86 | a document with a `conda_press` key is read only through that nested mapping, and one without the key is read as a whole; a section that is not a mapping raises `TypeError` or `AttributeError`, as the `in` test or the `.get` call would |
| `PressConfig.ConvertToSet` | conda_press/config.py:106-111 | a string becomes a one-element set; a list becomes the set of its items, or raises `TypeError` for an unhashable item; any other value passes through unchanged |
| `PressConfig.ConvertIdempotent` | conda_press/config.py:88-111 | `convert_to_list` never returns a string, and normalising an already normalised value changes nothing, for both the list and the set normalisation |
| `PressConfig.Overlay` | conda_press/config.py:85-116 | the only possible exceptions are `TypeError` and `AttributeError`; a document that is not a mapping raises and changes no field |
| `PressConfig.OverlayFieldwise` | conda_press/config.py:93-116 | `OverlaySection`, the assignments of lines 98-116 on a selected section: fields are assigned in source order. Each field assigned before the failing step (all of them on success) takes the section's value if present and not None, otherwise its prior value, after normalisation. Every later field keeps its prior value. The only possible error is a `TypeError` from `convert_to_set` |
| `PressConfig.MergedTyped` | conda_press/config.py:93-114 | for one field: a value of the expected shape converts without error to a well-typed value, and a missing or None key keeps the field as it was |
| `PressConfig.OverlayWellTyped` | conda_press/config.py:93-116 | overlaying a section of the expected shapes onto a well-typed configuration raises nothing, keeps it well-typed, and leaves every field whose key is missing or None unchanged |
| `PressConfig.OverlayIdempotent` | conda_press/config.py:93-116 | overlaying the same section twice gives the same configuration as overlaying it once |
| `PressConfig.OverlayCompose` | conda_press/config.py:93-116 | when both overlays succeed, overlaying `a` and then `b` equals one overlay of `a` with the non-None keys of `b` laid over it |
| `PressConfig.OverlayInto` | conda_press/config.py:85-116 | the object's new fields and the exception raised are exactly those of the overlay of the document onto its old fields, partial assignment included |
| `PressConfig.GetConfigByYaml` | conda_press/config.py:59-117 | a given `Config` is filled in place and returned, and a missing one is replaced by a fresh default `Config`; the overlay's exception is raised instead of returning |
| `Conftest.Partition` | tests/conftest.py:43 | `str.partition`: the three parts concatenate to the input; the first part has no separator; the middle is the separator, or empty when the separator does not occur |
| `Conftest.RouteRef` | tests/conftest.py:40-46 | a reference starting with `noarch/` goes to the noarch index with the text after the first `/`, so `noarch/` followed by the query gives back the reference; any other reference goes unchanged to the arch index |
| `Conftest.Decimal` | tests/conftest.py:50 | `str(n)`: non-empty, digits only, no leading zero (a single `0` only for 0), and the digits denote `n`; so the string is the canonical decimal form |
| `Conftest.PyTag` | tests/conftest.py:50 | the interpreter tag is `py`, then the canonical digits of `major`, then those of `minor`, and nothing else: the digits after `py` split into two runs denoting `major` and `minor`, and the length is exactly 2 plus both digit counts |
| `Conftest.PyTagValue` | tests/conftest.py:50 | Python 3.11 gives `py311` and Python 3.7 gives `py37` |
| `Conftest.KeepWithPyTag` | tests/conftest.py:54-60 | the filter `Keep` of lines 56-60: in arch mode a record survives exactly when its build names the interpreter tag or does not mention `py` at all, since the tag itself begins with `py` |
| `Conftest.Survivors` | tests/conftest.py:54-61 | the records the append loop keeps, never more than were queried; `SurvivorsSubsequence` and `LastSurvivor` state which ones |
| `Conftest.SurvivorsSubsequence` | tests/conftest.py:54-61 | the filtered records are an order-preserving subsequence of the queried ones, made of exactly the positions whose build passes the filter |
| `Conftest.LastPassingIndex` | tests/conftest.py:54-60 | the position of the last queried record that passes the filter, or -1 when none does; every later record fails the filter |
| `Conftest.LastSurvivor` | tests/conftest.py:54-63 | something survives exactly when some queried record passes the filter, and the last survivor is the record at `LastPassingIndex`, the last queried record that passes it |
| `Conftest.NotFound` | tests/conftest.py:65 | a `RuntimeError` whose message starts with `could not find ` and names the query right after it |
| `Conftest.Selection` | tests/conftest.py:39-65 | when nothing is found, the error names the query after routing; in noarch mode the chosen record comes from the noarch index; `SelectionNoarch` and `SelectionArch` state the rest |
| `Conftest.SelectionNoarch` | tests/conftest.py:40-65 | in noarch mode the noarch index is queried with the stripped reference, nothing is filtered, and the last record is chosen, or the error names the stripped reference |
| `Conftest.SelectionArch` | tests/conftest.py:44-65 | in arch mode the chosen record is the last record from the arch index whose build passes the filter, for the unchanged reference; when none passes, `RuntimeError("could not find <ref> on conda-forge")` is raised and nothing is chosen |
| `Conftest.DownloadArtifact` | tests/conftest.py:39-65 | the append loop, followed by the pick of the last record or the error, yields exactly the selection described by the rows above |
| `Conftest.CompletedFilenames` | tests/conftest.py:128-129 | at most one file name per seen entry |
| `Conftest.Reversed` | tests/conftest.py:128 | same length, the first element becomes the last and the last the first |
| `Conftest.ReversedAppend` | tests/conftest.py:128 | reversing a concatenation reverses each part and swaps them |
| `Conftest.InstallOrderLatestFirst` | tests/conftest.py:128-129 | `InstallOrder`, the reversed list of finished wheels: the install list names the wheel of every seen entry that is not None, once each, most recently inserted first; None entries are skipped |
| `Conftest.Join` | tests/conftest.py:128 | `" ".join`: the result begins with the first name, contains a space when there are two or more names, and is empty for no names |
| `Conftest.Words` | tests/conftest.py:137 | the shell's splitting of the command line at spaces: every word is non-empty and contains no space |
| `Conftest.WordsOfJoin` | tests/conftest.py:128-137 | joining non-empty file names that contain no space, then splitting the command line at spaces, gives back exactly those names in order |

## Left out

- Reading and parsing the YAML file (ruamel, `open`). The overlay takes the parsed document as a `Value`.
- YAML numbers, floats and timestamps are not in `Value`, and neither is Python's `True == 1` identification inside sets. Configuration documents use strings, booleans, lists and mappings.
- `platform.system()` is a parameter of `SoExt`. In the source, the module raises its `ValueError` when it is imported. `CACHE_DIR` and `tempfile.gettempdir()` read the environment and are not modelled.
- `PressConfig.Config.constructor`: keyword construction is modelled by `FromSettings` on `DefaultSettings` with fields replaced. Dataclass `repr` and `eq` are not modelled.
- Index access in `download_artifact` (`SubdirData`, `PLATFORM_TO_SUBDIR`, `subdir_data_arch`, `subdir_data_noarch`) is foreign I/O. It is modelled as the two query functions passed in. The running interpreter's version is passed as `major` and `minor`.
- `Conftest.DownloadArtifact` returns the chosen record and stops before the fetch. The cache directory, the cache hit, `requests.get` and the file write are I/O.
- The `pip_install_artifact` and `pip_install_artifact_tree` fixtures run `virtualenv` and `pip` in subprocesses, use temporary directories, and call `rmtree`, `wheel.clean()` and `os.remove`. This is process and file-system plumbing and is not modelled.
- `artifact_to_wheel`, `artifact_ref_dependency_tree_to_wheels` and `fatten_from_seen` belong to `conda_press/condatools` and `conda_press/wheel`, which are not part of this model. The seen map they fill is an input to `InstallOrder`. It is given as its entries in insertion order. The source passes that same dictionary as `seen=wheels`, so it is filled in place. That aliasing is not modelled.
- `Conftest.SelectionNoarch` and `Conftest.DownloadArtifact` assume that `SubdirData.query` returns a list. In noarch mode the source indexes the query result directly (tests/conftest.py:62-63), skipping the loop that builds a list. `SubdirData` is not part of this model. If its query returns a lazy iterator, the noarch path raises `TypeError` at `pkg_records[-1]` instead of choosing a record, and the model does not capture that.
- `Conftest.WordsOfJoin` models shell word splitting at spaces only. Quoting, tabs and other shell metacharacters are not modelled.
- The `xonsh` and `data_folder` fixtures, `setup.py`, and the end-to-end tests are harness and packaging code and are not modelled.
- The assertions at tests/test_config.py:18-22 are not modelled. The first compares two `None` results of `list.sort()`. The second expects a tuple that `Config` never builds.
