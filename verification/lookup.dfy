/** Finding the descriptor: the local loader, the remote loader, the
    orchestration between them, and the whole info command. */
module Lookup {
  import opened Wrappers
  import opened Strings
  import opened Meta
  import opened Context
  import opened Resolve
  import opened Render

  /** The names of the installed pairs, in order. */
  function Names(installed: seq<(string, string)>): (r: seq<string>)
    ensures |r| == |installed|
    ensures forall i :: 0 <= i < |installed| ==> r[i] == installed[i].1
  {
    seq(|installed|, i requires 0 <= i < |installed| => installed[i].1)
  }

  /** Position of the first pair installed under `name`. */
  function FirstIndexOf(installed: seq<(string, string)>, name: string): (k: nat)
    requires name in Names(installed)
    ensures k < |installed| && installed[k].1 == name
    ensures forall j :: 0 <= j < k ==> installed[j].1 != name
    decreases |installed|
  {
    if installed[0].1 == name then 0
    else
      assert Names(installed[1..]) == Names(installed)[1..];
      1 + FirstIndexOf(installed[1..], name)
  }

  /** `get_local_yaml`: nothing found (Python `None`), or the subworkflow
      directory and what its `meta.yml` loads as. */
  datatype LocalLoad = NotFoundLocally | FoundLocally(path: string, yaml: Yaml)

  /** The directory a pipeline installs `name` into: the first install
      directory recorded for it, under `<dir>/subworkflows`. */
  function PipelineDir(ctx: Ctx, installed: seq<(string, string)>, name: string): string
    requires name in Names(installed)
  {
    JoinPath(JoinPath(SubworkflowsDir(ctx.dir), installed[FirstIndexOf(installed, name)].0), name)
  }

  function LocalYaml(ctx: Ctx, name: string): (r: Result<LocalLoad, Error>)
    // The only failures: a pipeline whose index has no entry for the remote,
    // which fails while iterating it; and a listing of a missing directory.
    ensures r.Err? <==>
              (ctx.repoType == Pipeline && ctx.registry.remoteUrl !in ctx.index)
              || (ctx.repoType != Pipeline && CloneBase(ctx.dir) !in ctx.fs.listings)
    ensures r.Err? && ctx.repoType == Pipeline ==> r.error == IndexEntryMissing(ctx.registry.remoteUrl)
    ensures r.Err? && ctx.repoType != Pipeline ==> r.error == DirectoryMissing(CloneBase(ctx.dir))
    // Whatever is found has a meta.yml on disk, and that file is what is loaded.
    ensures r.Ok? && r.value.FoundLocally? ==>
              var metaFn := JoinPath(r.value.path, "meta.yml");
              metaFn in ctx.fs.files && r.value.yaml == ctx.fs.files[metaFn]
    // Pipeline mode: the first install directory recorded for the name,
    // found exactly when its meta.yml exists.
    ensures r.Ok? && ctx.repoType == Pipeline ==>
              var installed := ctx.index[ctx.registry.remoteUrl];
              (r.value.FoundLocally? <==>
                 name in Names(installed) && JoinPath(PipelineDir(ctx, installed, name), "meta.yml") in ctx.fs.files)
              && (r.value.FoundLocally? ==> r.value.path == PipelineDir(ctx, installed, name))
    // Any other mode: `<dir>/subworkflows/nf-core/<name>`, found exactly when
    // the directory is listed and its meta.yml exists.
    ensures r.Ok? && ctx.repoType != Pipeline ==>
              var modDir := JoinPath(CloneBase(ctx.dir), name);
              (r.value.FoundLocally? <==>
                 name in ctx.fs.listings[CloneBase(ctx.dir)] && JoinPath(modDir, "meta.yml") in ctx.fs.files)
              && (r.value.FoundLocally? ==> r.value.path == modDir)
  {
    if ctx.repoType == Pipeline then
      if ctx.registry.remoteUrl !in ctx.index then Err(IndexEntryMissing(ctx.registry.remoteUrl))
      else
        var installed := ctx.index[ctx.registry.remoteUrl];
        if name in Names(installed) then
          var modDir := PipelineDir(ctx, installed, name);
          var metaFn := JoinPath(modDir, "meta.yml");
          if metaFn in ctx.fs.files then Ok(FoundLocally(modDir, ctx.fs.files[metaFn])) else Ok(NotFoundLocally)
        else Ok(NotFoundLocally)
    else
      var base := CloneBase(ctx.dir);
      if base !in ctx.fs.listings then Err(DirectoryMissing(base))
      else if name in ctx.fs.listings[base] then
        var modDir := JoinPath(base, name);
        var metaFn := JoinPath(modDir, "meta.yml");
        if metaFn in ctx.fs.files then Ok(FoundLocally(modDir, ctx.fs.files[metaFn])) else Ok(NotFoundLocally)
      else Ok(NotFoundLocally)
  }

  /** `get_remote_yaml`: Python `False`, or the location that served the
      descriptor and what it loads as. */
  datatype RemoteLoad = NotFoundRemotely | FoundRemotely(location: string, yaml: Yaml)

  function RemoteYaml(reg: Registry, name: string): (r: RemoteLoad)
    ensures r.FoundRemotely? <==> name in reg.available && name in reg.metaYml
    ensures r.FoundRemotely? ==> r.location == reg.remoteUrl && r.yaml == reg.metaYml[name]
  {
    if name !in reg.available then NotFoundRemotely
    else if name !in reg.metaYml then NotFoundRemotely
    else FoundRemotely(reg.remoteUrl, reg.metaYml[name])
  }

  /** The command's attributes after the lookup, plus which loaders were asked. */
  datatype State = State(
    meta: MetaValue,
    localPath: Option<string>,
    remoteLocation: Option<string>,
    askedLocal: bool,
    askedRemote: bool)

  /** What the local attempt leaves in `meta` and `local_path`. */
  function AfterLocal(load: LocalLoad): State {
    match load
    case NotFoundLocally => State(NoneValue, None, None, true, false)
    case FoundLocally(p, y) => State(FromYaml(y), Some(p), None, true, false)
  }

  /** True when the local loader produced a truthy descriptor. */
  predicate LocalSatisfies(ctx: Ctx, name: string) {
    var l := LocalYaml(ctx, name);
    l.Ok? && l.value.FoundLocally? && Truthy(FromYaml(l.value.yaml))
  }

  /** The first half of `get_subworkflow_info`: local loader only when
      `local`, remote loader whenever `meta` is still falsy. */
  function Fetch(ctx: Ctx, name: string, local: bool): (r: Result<State, Error>)
    ensures r.Err? <==> local && LocalYaml(ctx, name).Err?
    ensures r.Err? ==> r.error == LocalYaml(ctx, name).error
    ensures r.Ok? ==> r.value.askedLocal == local
    // `meta` holds exactly what the last loader asked returned.
    ensures r.Ok? && !r.value.askedRemote ==>
              LocalSatisfies(ctx, name) && r.value.meta == FromYaml(LocalYaml(ctx, name).value.yaml)
    ensures r.Ok? && r.value.askedRemote && RemoteYaml(ctx.registry, name).FoundRemotely? ==>
              r.value.meta == FromYaml(RemoteYaml(ctx.registry, name).yaml)
    ensures r.Ok? ==> (r.value.askedRemote <==> !(local && LocalSatisfies(ctx, name)))
    ensures r.Ok? ==> (r.value.meta == FalseValue <==>
                         r.value.askedRemote && RemoteYaml(ctx.registry, name).NotFoundRemotely?)
    ensures r.Ok? ==> (r.value.remoteLocation.Some? <==>
                         r.value.askedRemote && RemoteYaml(ctx.registry, name).FoundRemotely?)
    ensures r.Ok? && r.value.remoteLocation.Some? ==> r.value.remoteLocation.value == ctx.registry.remoteUrl
    ensures r.Ok? ==> (r.value.localPath.Some? <==>
                         local && LocalYaml(ctx, name).value.FoundLocally?)
    ensures r.Ok? && r.value.localPath.Some? ==> r.value.localPath.value == LocalYaml(ctx, name).value.path
  {
    var s :- if local then
               match LocalYaml(ctx, name)
               case Err(e) => Err(e)
               case Ok(load) => Ok(AfterLocal(load))
             else Ok(State(NoneValue, None, None, false, false));
    if Truthy(s.meta) then Ok(s)
    else
      match RemoteYaml(ctx.registry, name)
      case NotFoundRemotely => Ok(s.(meta := FalseValue, askedRemote := true))
      case FoundRemotely(loc, y) => Ok(s.(meta := FromYaml(y), remoteLocation := Some(loc), askedRemote := true))
  }

  /** `get_subworkflow_info`: fetch, fail with "not found" exactly when `meta`
      ended `False`, otherwise render (which fails on a `None` meta). */
  function GetInfo(ctx: Ctx, name: string, local: bool): (r: Result<seq<Block>, Error>)
    ensures r == Err(SubworkflowNotFound(name)) <==> Fetch(ctx, name, local).Ok? && Fetch(ctx, name, local).value.meta == FalseValue
    ensures r == Err(MetaNotMapping) <==> Fetch(ctx, name, local).Ok? && Fetch(ctx, name, local).value.meta == NoneValue
    ensures r.Ok? <==> Fetch(ctx, name, local).Ok? && Fetch(ctx, name, local).value.meta.Loaded?
    ensures Fetch(ctx, name, local).Err? ==> r == Err(Fetch(ctx, name, local).error)
    ensures r.Ok? ==>
              var s := Fetch(ctx, name, local).value;
              r.value == Help(s.meta.doc, s.localPath, s.remoteLocation, name)
  {
    var s :- Fetch(ctx, name, local);
    match s.meta
    case FalseValue => Err(SubworkflowNotFound(name))
    case NoneValue => Err(MetaNotMapping)
    case Loaded(d) => Ok(Help(d, s.localPath, s.remoteLocation, name))
  }

  /** The info command end to end: resolve the name, then look it up. A name
      given up front is looked up remotely only; a prompted name is the first
      answer that is a candidate, looked up locally first when the user said
      it is installed. */
  method Info(ctx: Ctx, name: Option<string>, prompts: Prompts) returns (r: Result<seq<Block>, Error>)
    requires WellFormed(ctx)
    ensures name.Some? ==> r == GetInfo(ctx, name.value, false)
    ensures name.Some? ==> r != Err(IndexEntryMissing(ctx.registry.remoteUrl)) && r != Err(PromptAborted)
    ensures name.None? && prompts.isLocal.None? ==> r == Err(PromptAborted)
    ensures name.None? && prompts.isLocal.Some? ==>
              var local := prompts.isLocal.value;
              var candidates := CandidateList(ctx, local);
              (candidates.Err? ==> r == Err(candidates.error))
              && (candidates.Ok? && NoValidAnswer(candidates.value, prompts.choices) ==> r == Err(PromptAborted))
              && (candidates.Ok? && !NoValidAnswer(candidates.value, prompts.choices) ==>
                    exists k :: FirstValidAnswer(candidates.value, prompts.choices, k)
                                && r == GetInfo(ctx, prompts.choices[k], local))
  {
    var resolved := InitName(ctx, name, prompts);
    if resolved.Err? {
      return Err(resolved.error);
    }
    r := GetInfo(ctx, resolved.value.name, resolved.value.local);
    if name.None? {
      var candidates := CandidateList(ctx, prompts.isLocal.value).value;
      var k :| FirstValidAnswer(candidates, prompts.choices, k) && resolved.value.name == prompts.choices[k];
      assert r == GetInfo(ctx, prompts.choices[k], prompts.isLocal.value);
    }
  }

  /** A subworkflow neither found locally nor listed by the remote fails
      with "not found", naming exactly that subworkflow. */
  lemma AbsentEverywhereIsNotFound(ctx: Ctx, name: string, local: bool)
    requires local ==> LocalYaml(ctx, name) == Ok(NotFoundLocally)
    requires name !in ctx.registry.available
    ensures GetInfo(ctx, name, local) == Err(SubworkflowNotFound(name))
  {
  }

  /** A subworkflow looked up remotely and served by the remote renders with
      the repository header and ends with the install command for it. */
  lemma RemoteHitInstallHint(ctx: Ctx, name: string)
    requires name in ctx.registry.available && name in ctx.registry.metaYml
    requires ctx.registry.metaYml[name].Doc? && ctx.registry.remoteUrl != ""
    ensures GetInfo(ctx, name, false).Ok?
    ensures var blocks := GetInfo(ctx, name, false).value;
      blocks[|blocks| - 1] == InstallLine(InstallCommand(ctx.registry.remoteUrl, name))
      && blocks[0].intro.header == Some(Repository(ctx.registry.remoteUrl, StartsWith(ctx.registry.remoteUrl, "http")))
  {
  }

  /** In a pipeline, a name missing from the installed index for the remote
      is not found locally, whatever is on disk. */
  lemma {:induction false} NotInstalledIsNotLocal(ctx: Ctx, name: string)
    requires ctx.repoType == Pipeline && ctx.registry.remoteUrl in ctx.index
    requires forall i :: 0 <= i < |ctx.index[ctx.registry.remoteUrl]| ==> ctx.index[ctx.registry.remoteUrl][i].1 != name
    ensures LocalYaml(ctx, name) == Ok(NotFoundLocally)
  {
    assert name !in Names(ctx.index[ctx.registry.remoteUrl]);
  }

  /** An installed subworkflow whose meta.yml loads as null keeps its local
      path, yet the lookup still falls through to the remote; when the remote
      serves it, both the local path and the remote location end up set, the
      intro shows the local location and the install command is still given. */
  lemma EmptyLocalMetaKeepsBothLocations(ctx: Ctx, name: string, path: string)
    requires LocalYaml(ctx, name) == Ok(FoundLocally(path, Null)) && path != ""
    requires name in ctx.registry.available && name in ctx.registry.metaYml
    requires ctx.registry.metaYml[name].Doc? && ctx.registry.remoteUrl != ""
    ensures Fetch(ctx, name, true).Ok?
    ensures Fetch(ctx, name, true).value.localPath == Some(path)
    ensures Fetch(ctx, name, true).value.remoteLocation == Some(ctx.registry.remoteUrl)
    ensures GetInfo(ctx, name, true).Ok?
    ensures var blocks := GetInfo(ctx, name, true).value;
      blocks[0].intro.header == Some(Location(path))
      && Command(blocks) == Some(InstallCommand(ctx.registry.remoteUrl, name))
  {
  }

  /** The install hint for the canonical remote carries no qualifier. */
  lemma CanonicalInstallCommandExample()
    ensures InstallCommand(NfCoreModulesRemote, "fastqc") == "nf-core subworkflows install fastqc"
  {
  }

  /** A pair installed under a directory other than `nf-core` is offered as
      `dir/name`, but the local loader compares the choice with the bare
      installed names, so that choice is never found locally. */
  lemma PrefixedChoiceNeverLocal(ctx: Ctx, dir: string, name: string)
    requires WellFormed(ctx) && ctx.repoType == Pipeline && ctx.registry.remoteUrl in ctx.index
    requires (dir, name) in ctx.index[ctx.registry.remoteUrl] && dir != "nf-core"
    requires forall i :: 0 <= i < |ctx.index[ctx.registry.remoteUrl]| ==>
               ctx.index[ctx.registry.remoteUrl][i].1 != dir + "/" + name
    ensures CandidateList(ctx, true).Ok? && DisplayName(dir, name) in CandidateList(ctx, true).value
    ensures LocalYaml(ctx, DisplayName(dir, name)) == Ok(NotFoundLocally)
  {
  }
}
