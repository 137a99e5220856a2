/** The collaborators the command consults, as plain data: the filesystem,
    the remote repository, the installed-subworkflow index and the prompt
    answers; plus the errors the command raises. */
module Context {
  import opened Wrappers
  import opened Strings
  import opened Meta

  /** The `repo_type` of the working directory. `NoRepo` covers a directory
      that is neither (no pipeline directory given, or not recognised). */
  datatype RepoType = Pipeline | ModulesClone | NoRepo

  /** One `(dirpath, dirnames, filenames)` triple of `os.walk`; the
      subdirectory names are not consulted. */
  datatype WalkEntry = WalkEntry(dir: string, files: seq<string>)

  /** `files` maps each existing file to what `yaml.safe_load` makes of it;
      `listings` is `os.listdir` of each existing directory; `walks` is
      `os.walk` from each root (a missing root walks to nothing). */
  datatype FileSystem = FileSystem(
    files: map<string, Yaml>,
    listings: map<string, seq<string>>,
    walks: map<string, seq<WalkEntry>>)

  /** The remote repository: its URL, `get_avail_components("subworkflows")`,
      and `get_subworkflow_meta_yml`, whose `None` is a missing key here. The
      text it serves is kept already parsed. */
  datatype Registry = Registry(remoteUrl: string, available: seq<string>, metaYml: map<string, Yaml>)

  /** The installed index: `get_installed_subworkflows()`, remote URL to the
      `(install_dir, name)` pairs installed from it. */
  type InstalledIndex = map<string, seq<(string, string)>>

  datatype Ctx = Ctx(dir: string, repoType: RepoType, index: InstalledIndex, fs: FileSystem, registry: Registry)

  /** Answers to the two prompts: the yes/no "locally installed?" question
      (`None` when it is aborted) and the successive autocomplete answers;
      running out of answers is an aborted prompt. */
  datatype Prompts = Prompts(isLocal: Option<bool>, choices: seq<string>)

  datatype Error =
    | IndexEntryMissing(remote: string)   // iterating the index's `None` for this remote: TypeError
    | NoIndex                             // `modules_json` is `None` outside a pipeline: AttributeError
    | DirectoryMissing(path: string)      // `os.listdir` of a missing directory: FileNotFoundError
    | SubworkflowNotFound(name: string)   // "Could not find subworkflow '<name>'": UserWarning
    | MetaNotMapping                      // `meta` is `None` when rendering: AttributeError
    | PromptAborted                       // `unsafe_ask` interrupted

  /** `NF_CORE_MODULES_REMOTE`, the canonical repository. */
  const NfCoreModulesRemote: string := "https://github.com/nf-core/modules.git"

  /** `<dir>/subworkflows`. */
  function SubworkflowsDir(dir: string): string {
    JoinPath(dir, "subworkflows")
  }

  /** `<dir>/subworkflows/nf-core`, the tree of a modules clone. */
  function CloneBase(dir: string): string {
    JoinPath(SubworkflowsDir(dir), "nf-core")
  }

  /** `os.walk` only yields the root itself and directories below it. */
  predicate WalkUnder(base: string, entries: seq<WalkEntry>) {
    forall i :: 0 <= i < |entries| ==>
      entries[i].dir == base || StartsWith(entries[i].dir, base + "/")
  }

  predicate WellFormed(ctx: Ctx) {
    var base := CloneBase(ctx.dir);
    base in ctx.fs.walks ==> WalkUnder(base, ctx.fs.walks[base])
  }
}
