/** Making sure there is a subworkflow name: display names from the installed
    index, the walk of a modules clone, and the prompt loop. */
module Resolve {
  import opened Wrappers
  import opened Strings
  import opened Context

  /** An installed `(dir, name)` pair as offered to the user: the bare name
      for the `nf-core` directory, `dir/name` otherwise. */
  function DisplayName(dir: string, name: string): string {
    if dir == "nf-core" then name else dir + "/" + name
  }

  /** A display name ends with the subworkflow name, and is the bare name
      exactly when the pair was installed under `nf-core`. */
  lemma DisplayNameShape(dir: string, name: string)
    ensures EndsWith(DisplayName(dir, name), name)
    ensures DisplayName(dir, name) == name <==> dir == "nf-core"
    ensures dir != "nf-core" ==> StartsWith(DisplayName(dir, name), dir + "/")
  {
  }

  /** The candidate list for a pipeline: one display name per installed
      pair, in index order. */
  function Candidates(installed: seq<(string, string)>): (r: seq<string>)
    ensures |r| == |installed|
    ensures forall i :: 0 <= i < |installed| ==> r[i] == DisplayName(installed[i].0, installed[i].1)
    decreases |installed|
  {
    if |installed| == 0 then []
    else [DisplayName(installed[0].0, installed[0].1)] + Candidates(installed[1..])
  }

  /** Every subworkflow installed under `nf-core` is offered by its bare name. */
  lemma {:induction false} NfCoreInstallsOfferedBare(installed: seq<(string, string)>, name: string)
    requires ("nf-core", name) in installed
    ensures name in Candidates(installed)
  {
  }

  /** `Path(dir).relative_to(base)` for a directory the walk yielded. */
  function Relative(base: string, dir: string): string
    requires dir == base || StartsWith(dir, base + "/")
  {
    if dir == base then "." else dir[|base| + 1..]
  }

  /** Joining the relative name back under the base restores the walked
      directory. */
  lemma RelativeRestores(base: string, dir: string)
    requires StartsWith(dir, base + "/")
    ensures base + "/" + Relative(base, dir) == dir
  {
  }

  /** The subworkflows of a modules clone: the walked directories holding a
      `main.nf`, relative to the base. */
  function CloneSubworkflows(base: string, entries: seq<WalkEntry>): (r: seq<string>)
    requires WalkUnder(base, entries)
    ensures |r| <= |entries|
    ensures forall name :: name in r <==>
              exists i :: 0 <= i < |entries| && "main.nf" in entries[i].files && Relative(base, entries[i].dir) == name
    decreases |entries|
  {
    if |entries| == 0 then []
    else
      var rest := CloneSubworkflows(base, entries[1..]);
      assert forall i :: 1 <= i < |entries| ==> entries[i] == entries[1..][i - 1];
      if "main.nf" in entries[0].files then [Relative(base, entries[0].dir)] + rest else rest
  }

  /** The list the user chooses from, or the error raised while building it:
      the remote's listing when not local, the clone walk in a modules clone,
      and otherwise the installed index, which is absent outside a pipeline
      and may lack an entry for the remote. */
  function CandidateList(ctx: Ctx, local: bool): (r: Result<seq<string>, Error>)
    requires WellFormed(ctx)
    ensures r.Err? <==>
              local && ctx.repoType != ModulesClone
              && (ctx.repoType == NoRepo || ctx.registry.remoteUrl !in ctx.index)
    ensures r.Err? && ctx.repoType == NoRepo ==> r.error == NoIndex
    ensures r.Err? && ctx.repoType == Pipeline ==> r.error == IndexEntryMissing(ctx.registry.remoteUrl)
    ensures !local ==> r == Ok(ctx.registry.available)
    ensures r.Ok? && local && ctx.repoType == Pipeline ==>
              var installed := ctx.index[ctx.registry.remoteUrl];
              |r.value| == |installed|
              && forall i :: 0 <= i < |installed| ==> r.value[i] == DisplayName(installed[i].0, installed[i].1)
    ensures r.Ok? && local && ctx.repoType == ModulesClone ==>
              var base := CloneBase(ctx.dir);
              var entries := if base in ctx.fs.walks then ctx.fs.walks[base] else [];
              forall n :: n in r.value <==>
                exists i :: 0 <= i < |entries| && "main.nf" in entries[i].files && Relative(base, entries[i].dir) == n
  {
    if !local then Ok(ctx.registry.available)
    else if ctx.repoType == ModulesClone then
      var base := CloneBase(ctx.dir);
      Ok(if base in ctx.fs.walks then CloneSubworkflows(base, ctx.fs.walks[base]) else [])
    else if ctx.repoType == NoRepo then Err(NoIndex)
    else if ctx.registry.remoteUrl !in ctx.index then Err(IndexEntryMissing(ctx.registry.remoteUrl))
    else Ok(Candidates(ctx.index[ctx.registry.remoteUrl]))
  }

  /** `answers[k]` is the first answer that is a candidate. */
  predicate FirstValidAnswer(candidates: seq<string>, answers: seq<string>, k: int) {
    0 <= k < |answers| && answers[k] in candidates
    && forall j :: 0 <= j < k ==> answers[j] !in candidates
  }

  /** No answer is a candidate: the prompt never settles. */
  predicate NoValidAnswer(candidates: seq<string>, answers: seq<string>) {
    forall j :: 0 <= j < |answers| ==> answers[j] !in candidates
  }

  /** The autocomplete prompt, repeated until the answer is a candidate. The
      answers are consumed in order; `asked` counts the answers used. */
  method Select(candidates: seq<string>, answers: seq<string>) returns (choice: Option<string>, asked: nat)
    ensures asked <= |answers|
    ensures choice.Some? ==> 1 <= asked && choice.value == answers[asked - 1] && choice.value in candidates
    ensures choice.Some? ==> forall j :: 0 <= j < asked - 1 ==> answers[j] !in candidates
    ensures choice.None? <==> forall j :: 0 <= j < |answers| ==> answers[j] !in candidates
  {
    var i := 0;
    while i < |answers| && answers[i] !in candidates
      invariant 0 <= i <= |answers|
      invariant forall j :: 0 <= j < i ==> answers[j] !in candidates
    {
      i := i + 1;
    }
    if i == |answers| {
      return None, i;
    }
    return Some(answers[i]), i + 1;
  }

  /** The resolved name and whether the lookup should try the local install
      first (the `local` attribute, left `None`, so false, when a name is
      given). */
  datatype Resolved = Resolved(name: string, local: bool)

  /** `init_mod_name`: a given name is taken as is; otherwise the user says
      whether the subworkflow is installed and picks from the matching
      candidate list, the first answer that is a candidate being taken. */
  method InitName(ctx: Ctx, name: Option<string>, prompts: Prompts) returns (r: Result<Resolved, Error>)
    requires WellFormed(ctx)
    ensures name.Some? ==> r == Ok(Resolved(name.value, false))
    ensures name.None? && prompts.isLocal.None? ==> r == Err(PromptAborted)
    ensures name.None? && prompts.isLocal.Some? && CandidateList(ctx, prompts.isLocal.value).Err? ==>
              r == Err(CandidateList(ctx, prompts.isLocal.value).error)
    ensures name.None? && prompts.isLocal.Some? && CandidateList(ctx, prompts.isLocal.value).Ok? ==>
              var candidates := CandidateList(ctx, prompts.isLocal.value).value;
              (r.Ok? || r == Err(PromptAborted))
              && (r == Err(PromptAborted) <==> NoValidAnswer(candidates, prompts.choices))
              && (r.Ok? ==>
                    r.value.local == prompts.isLocal.value
                    && exists k :: FirstValidAnswer(candidates, prompts.choices, k) && r.value.name == prompts.choices[k])
  {
    if name.Some? {
      return Ok(Resolved(name.value, false));
    }
    if prompts.isLocal.None? {
      return Err(PromptAborted);
    }
    var local := prompts.isLocal.value;
    var candidates := CandidateList(ctx, local);
    if candidates.Err? {
      return Err(candidates.error);
    }
    var choice, asked := Select(candidates.value, prompts.choices);
    if choice.None? {
      return Err(PromptAborted);
    }
    assert FirstValidAnswer(candidates.value, prompts.choices, asked - 1);
    return Ok(Resolved(choice.value, local));
  }
}
