# Subworkflow info: a Dafny model

This project models the `nf-core subworkflows info` command, the `SubworkflowInfo` class
in `nf_core/subworkflows/info.py`. The command takes a subworkflow name, or asks the user
for one. It then finds the subworkflow's `meta.yml` descriptor, either in the local
installation or in the remote modules repository, and renders it as help text. The model
keeps the command's decisions and the strings it builds. Everything the command consults
becomes plain data: the filesystem, the remote repository, the installed-subworkflow index
(`modules.json`), the prompts and YAML parsing.

Modules:

- `Wrappers`: `Option` and `Result`.
- `Strings`: POSIX `os.path.join`, `str.join`, and `Split`, its inverse.
- `Meta`: the descriptor, Python truthiness, and the value the `meta` attribute holds.
  That value is `NoneValue`, `FalseValue` or `Loaded`, which keeps the source's `None`
  versus `False` sentinels apart.
- `Context`: the oracles (`FileSystem`, `Registry`, `InstalledIndex`, `Prompts`), the
  repository type and the errors.
- `Resolve`: `init_mod_name` and `get_subworkflows_clone_modules`.
- `Lookup`: `get_local_yaml`, `get_remote_yaml` and `get_subworkflow_info`.
- `Render`: `generate_subworkflow_info_help`. It returns a list of blocks: an intro panel,
  an inputs table, an outputs table and an install line.

Behaviour of the code that the model keeps as written:

- **Missing index entry.** The index lookup for the active remote can return `None`. Both
  places that use it (lines 100 and 145) iterate over that value before they test it for
  `None`. The failure is therefore the iteration's `TypeError`, modelled as
  `IndexEntryMissing`. The "No subworkflow(s) installed from ..." errors at lines 102 and
  147 can never be raised.
- **Loader sentinels.** The local loader returns `None` and the remote loader returns
  `False`. The orchestrator moves on to the remote on any falsy `meta`, but it reports
  "not found" only on `False`.
- **Null `meta.yml`.** A local `meta.yml` can load as `null`. In that case `local_path`
  stays set and the lookup still asks the remote. Both locations can then end up set, and
  the header shows the local path (`Lookup.EmptyLocalMetaKeepsBothLocations`). If the
  remote's file also loads as `null`, rendering fails on the `None` meta
  (`MetaNotMapping`).
- **Name given up front.** The `local` attribute then stays `None`, so only the remote is
  consulted (`Lookup.Info`).
- **Prefixed choices.** In a pipeline, a pair installed under a directory other than `nf-core`
  is offered as `dir/name` (line 100). The local loader compares the choice with the bare
  installed names (lines 145 and 149), so such a choice is never found locally
  (`Lookup.PrefixedChoiceNeverLocal`).
- **Empty candidate list.** In the model, `Resolve.Select` accepts no answer from an empty
  list. It runs until the answers run out, which counts as an aborted prompt. What the prompt
  library does when given an empty `choices` list is not modelled.

## Model

| member | source | states |
|---|---|---|
| Resolve.DisplayNameShape | nf_core/subworkflows/info.py:100 | An installed pair's display name ends with the subworkflow name. It equals the bare name exactly when the install directory is `nf-core`; otherwise it starts with `dir/`. |
| Resolve.Candidates | nf_core/subworkflows/info.py:99-100 | The candidate list has one display name per installed pair, in index order. |
| Resolve.NfCoreInstallsOfferedBare | nf_core/subworkflows/info.py:100 | Every subworkflow installed under `nf-core` is offered under its bare name. |
| Resolve.RelativeRestores | nf_core/subworkflows/info.py:286 | A walked directory's name relative to the clone base, joined back under the base, gives the directory again. |
| Resolve.CloneSubworkflows | nf_core/subworkflows/info.py:280-289 | A name is offered from a modules clone exactly when some walked directory holds `main.nf` and has that relative name. There are no more names than walked directories. |
| Resolve.CandidateList | nf_core/subworkflows/info.py:95-104 | Building the candidate list fails exactly when the lookup is local, the directory is not a modules clone, and either there is no installed index (`NoIndex`, the `AttributeError` outside a pipeline) or the index has no entry for the remote (`IndexEntryMissing`, the `TypeError` from iterating it at line 100). When not local, the list is the remote's listing. In a pipeline it has one display name per installed pair, in order. In a clone it holds exactly the walked directories containing `main.nf`. |
| Resolve.Select | nf_core/subworkflows/info.py:105-112 | The prompt repeats until an answer is a candidate. The accepted answer is the first one in the candidate list, and every earlier answer was rejected. No name is chosen exactly when no answer is a candidate. |
| Resolve.InitName | nf_core/subworkflows/info.py:91-114 | A given name is returned unchanged, with no prompting and no local lookup. An aborted confirm prompt aborts the command. An error while building the candidate list is raised unchanged. Otherwise the result is the user's first answer that is a candidate, with `local` set to the user's answer. The prompt aborts exactly when no answer is a candidate. |
| Lookup.FirstIndexOf | nf_core/subworkflows/info.py:149-150 | Returns the position of the first installed pair with the requested name. |
| Lookup.LocalYaml | nf_core/subworkflows/info.py:140-172 | Fails only when a pipeline's index has no entry for the remote (the `TypeError` from iterating it), or (`DirectoryMissing`) when the clone directory listed by `os.listdir` is missing. In a pipeline, the result is found exactly when the name is installed and `meta.yml` exists under `<dir>/subworkflows/<first install dir>/<name>`, and that directory is the path. Otherwise the path is `<dir>/subworkflows/nf-core/<name>`, found exactly when it is listed and holds `meta.yml`. What is loaded is that file. |
| Lookup.NotInstalledIsNotLocal | nf_core/subworkflows/info.py:144-159 | In a pipeline, a name absent from the index for the remote is not found locally, whatever is on disk. |
| Lookup.RemoteYaml | nf_core/subworkflows/info.py:180-188 | Returns the `False` sentinel unless the name is in the available list and the remote serves its `meta.yml`. Only on success is the remote location recorded, and it is the repository URL. |
| Lookup.Fetch | nf_core/subworkflows/info.py:119-125 | The local loader is consulted exactly when `local` is set, and its errors are the only errors. The remote loader is consulted exactly when the local result is not a truthy descriptor. `meta` ends `False` exactly when the remote was asked and failed. `local_path` and `remote_location` are set exactly on the local and remote successes. `meta` holds exactly what the last loader asked returned: the local descriptor when the remote was not asked, and the remote descriptor when the remote served one. |
| Lookup.GetInfo | nf_core/subworkflows/info.py:116-131 | Raises "Could not find subworkflow '<name>'" exactly when the final `meta` is `False`. A local-loader error is raised unchanged. It fails on a `None` meta, and otherwise renders the descriptor with the recorded locations. |
| Lookup.Info | nf_core/subworkflows/info.py:82-131 | The whole command. A name given up front leads to a remote-only lookup, which never raises the index or prompt errors. An aborted prompt, or no valid answer, aborts the command. Errors from building the candidate list propagate. Otherwise the result is the lookup of the first answer that is a candidate, tried locally first exactly when the user said it is installed. |
| Lookup.AbsentEverywhereIsNotFound | nf_core/subworkflows/info.py:120-129 | A subworkflow not found locally and not listed by the remote fails with "not found", naming exactly that subworkflow. |
| Lookup.RemoteHitInstallHint | nf_core/subworkflows/info.py:181-276 | A subworkflow served by the remote renders with the repository header, and its last block is the install command. |
| Lookup.EmptyLocalMetaKeepsBothLocations | nf_core/subworkflows/info.py:153-157 | A local `meta.yml` that loads as null keeps `local_path` but falls through to the remote. Both locations end up set: the header shows the local path and the install command is still emitted. |
| Lookup.CanonicalInstallCommandExample | nf_core/subworkflows/info.py:268-274 | For the canonical remote, the hint for `fastqc` is `nf-core subworkflows install fastqc`. |
| Render.IntroFor | nf_core/subworkflows/info.py:199-225 | The intro shows the Location line if a local path is set, else the Repository line if a remote location is set. The repository is linked exactly when it starts with `http`. The tools line appears exactly when `tools` is non-empty, with one markup string per tool in order. The description line appears exactly when the description is truthy. |
| Render.ToolMarkupLinked | nf_core/subworkflows/info.py:216-221 | A tool is link-wrapped exactly when its entry has a `homepage`, and its name is always shown. |
| Render.ToolsLineListsEveryTool | nf_core/subworkflows/info.py:222 | The tools line is the prefix followed by the tool strings joined by `", "`. Splitting the body gives back every tool string in order. |
| Render.RepositoryLinkedIffHttp | nf_core/subworkflows/info.py:203-212 | The repository line's markup opens with a link exactly when the location starts with `http`. |
| Render.InstallCommandShape | nf_core/subworkflows/info.py:268-276 | The command starts `nf-core subworkflows` and ends `install <name>`. The part between is empty for `NF_CORE_MODULES_REMOTE` and ` --git-remote <remote>` otherwise. |
| Render.Help | nf_core/subworkflows/info.py:190-278 | Returns the intro panel first, then the inputs table, the outputs table and the install line, at fixed positions, with no other blocks. Each table is present exactly when its key is non-empty and has one row per key across all entries, in order. Patterns default to `""` and null descriptions render as `""`. The install command is present exactly when a remote location is set, and is then the last block. |
| Meta.CollectPointwise | nf_core/subworkflows/info.py:241-247 | The nested loop over entries and their items yields one result per item, in flattened order. |
| Lookup.PrefixedChoiceNeverLocal | nf_core/subworkflows/info.py:100-159 | A pair installed under a directory other than `nf-core` is offered as `dir/name`, and choosing it never finds the subworkflow locally. |
| Strings.SplitJoin | nf_core/subworkflows/info.py:222 | Splitting a `", "`-joined list gives back its parts, when no part contains a comma. |
| Strings.JoinPathShape | nf_core/subworkflows/info.py:151-152 | A joined path ends with its last component. A relative component lands under the base, separated by one `/`. |

## Left out

- `tests/components/create_snapshot.py` drives a snapshot generator that is not part of this model, through an external test runner and JSON files on disk. None of its logic is visible here.
- `__init__` (lines 58-82) detects the repository type and checks `modules.json`. The repository type and the index are parameters of the model instead.
- Prompt UI and autocomplete: the confirm answer is optional, and a missing answer is an aborted prompt. The autocomplete answers are a finite sequence, and running out of them is an aborted prompt (`unsafe_ask` raising).
- YAML parsing: the descriptor is a datatype, and a file is stored already parsed. The model does not cover:
  - malformed YAML;
  - values of unexpected types;
  - a null tool mapping;
  - a field without a `type` or `description` key, which makes the source raise `KeyError`.
- Rich rendering (`Panel`, `Table`, `Markdown`, styles, emoji): the model keeps blocks and rows. The blocks carry only two kinds of markup string:
  - the panel title;
  - the per-tool strings.

  The location/repository line and the tools line are computed from the intro's data by `Render.HeaderMarkup` and `Render.ToolsMarkup`.

  It does not keep:
  - the table cells' markup (`[orange1 on black] key [/][dim i] (type)`);
  - the "Description" and "Pattern" column headings;
  - the decoration of the description and install lines.
- Filesystem: `os.path.exists`, `os.listdir` and `os.walk` are maps of paths. Two things are not modelled:
  - pathlib's normalisation of paths (`str(Path(...))`);
  - read errors on an existing file.
- The remote repository: clone, pull and branch handling are left out. `get_avail_components` is modelled for the `subworkflows` kind only.
- `NF_CORE_MODULES_REMOTE` is defined in `nf_core/modules/modules_repo.py`, which is not part of this model. It is taken as `https://github.com/nf-core/modules.git`.
- Logging calls.
- The `No subworkflow(s) installed from ...` errors at lines 102 and 147 are not modelled, because they can never be raised: the missing index entry fails earlier, while being iterated.
