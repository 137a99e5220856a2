/** The help text generated from a loaded descriptor: an intro panel, an
    inputs table, an outputs table and an install command, as plain data.
    Of the Rich markup, the blocks carry only the panel title and the tool
    strings; the location/repository line and the tools line are computed
    from the intro's data by `HeaderMarkup` and `ToolsMarkup`. */
module Render {
  import opened Wrappers
  import opened Strings
  import opened Meta
  import opened Context

  /** The first intro line: where the subworkflow was found. `linked` says
      whether the repository text is wrapped in a link. */
  datatype Header = Location(path: string) | Repository(location: string, linked: bool)

  /** The intro panel's body; `None` is a line that is not shown. `tools`
      holds the per-tool markup strings, before joining. */
  datatype Intro = Intro(header: Option<Header>, tools: Option<seq<string>>, description: Option<string>)

  /** One table row: key, declared type, description and pattern. */
  datatype Row = Row(key: string, kind: string, description: string, pattern: string)

  datatype Block =
    | IntroPanel(title: string, intro: Intro)
    | FieldTable(heading: string, rows: seq<Row>)
    | InstallLine(command: string)

  const InputsHeading: string := ":inbox_tray: Inputs"
  const OutputsHeading: string := ":outbox_tray: Outputs"
  const CommandBase: string := "nf-core subworkflows"
  const ToolsPrefix: string := ":wrench: Tools: "
  const RepositoryPrefix: string := ":globe_with_meridians: Repository: "

  function Title(name: string): string {
    "[bold]Subworkflow: [green]" + name + "\n"
  }

  /** A tool's entry in the tools line: linked to its homepage when it has one. */
  function ToolMarkup(name: string, meta: ToolMeta): string {
    match meta.homepage
    case Some(h) => "[link=" + h + "]" + name + "[/link]"
    case None => name
  }

  /** A tool is shown as a link exactly when its entry has a homepage, and its
      name is always shown. */
  lemma ToolMarkupLinked(name: string, meta: ToolMeta)
    requires !StartsWith(name, "[link=")
    ensures StartsWith(ToolMarkup(name, meta), "[link=") <==> meta.homepage.Some?
    ensures meta.homepage.Some? ==> EndsWith(ToolMarkup(name, meta), name + "[/link]")
    ensures meta.homepage.None? ==> ToolMarkup(name, meta) == name
  {
  }

  /** A row of an inputs or outputs table: a missing pattern shows as "" and
      so does a null description. */
  function RowOf(key: string, info: FieldInfo): Row {
    Row(key, info.kind, info.description.GetOr(""), info.pattern.GetOr(""))
  }

  function Rows(entries: seq<Entry<FieldInfo>>): seq<Row> {
    Collect(entries, RowOf)
  }

  /** The rows are one per key across all entries, in order. */
  predicate RowsMatch(rows: seq<Row>, items: seq<(string, FieldInfo)>) {
    |rows| == |items| && forall i :: 0 <= i < |rows| ==> rows[i] == RowOf(items[i].0, items[i].1)
  }

  function ToolStrings(tools: seq<Entry<ToolMeta>>): seq<string> {
    Collect(tools, ToolMarkup)
  }

  /** The install command: the base gains a `--git-remote` qualifier when the
      remote is not the canonical one, and the command installs `name`. */
  function InstallCommand(remote: string, name: string): string {
    var base := if remote != NfCoreModulesRemote then CommandBase + " --git-remote " + remote else CommandBase;
    base + " install " + name
  }

  /** The command always starts with the base and ends installing `name`;
      what sits between is empty for the canonical remote and names the
      remote otherwise, so the remote can be read back from the command. */
  lemma InstallCommandShape(remote: string, name: string)
    ensures var cmd := InstallCommand(remote, name);
      StartsWith(cmd, CommandBase)
      && EndsWith(cmd, " install " + name)
      && |CommandBase| + |" install " + name| <= |cmd|
      && cmd[|CommandBase|..|cmd| - |" install " + name|]
         == (if remote == NfCoreModulesRemote then "" else " --git-remote " + remote)
  {
  }

  /** The intro panel: the location line when a local path is set, else the
      repository line when a remote location is set; then the tools line and
      the description line, each only when the descriptor has a truthy value. */
  function IntroFor(meta: Descriptor, localPath: Option<string>, remoteLocation: Option<string>): (r: Intro)
    ensures r.header.Some? <==> StringTruthy(localPath) || StringTruthy(remoteLocation)
    ensures StringTruthy(localPath) ==> r.header == Some(Location(localPath.value))
    ensures !StringTruthy(localPath) && StringTruthy(remoteLocation) ==>
              r.header == Some(Repository(remoteLocation.value, StartsWith(remoteLocation.value, "http")))
    ensures r.tools.Some? <==> ListTruthy(meta.tools)
    ensures r.tools.Some? ==>
              |r.tools.value| == |Flatten(meta.tools.value)|
              && forall i :: 0 <= i < |r.tools.value| ==>
                   r.tools.value[i] == ToolMarkup(Flatten(meta.tools.value)[i].0, Flatten(meta.tools.value)[i].1)
    ensures r.description.Some? <==> StringTruthy(meta.description)
    ensures r.description.Some? ==> r.description == meta.description
  {
    var header :=
      if StringTruthy(localPath) then Some(Location(localPath.value))
      else if StringTruthy(remoteLocation) then
        Some(Repository(remoteLocation.value, StartsWith(remoteLocation.value, "http")))
      else None;
    var tools :=
      if ListTruthy(meta.tools) then
        CollectPointwise(meta.tools.value, ToolMarkup);
        Some(ToolStrings(meta.tools.value))
      else None;
    var description := if StringTruthy(meta.description) then meta.description else None;
    Intro(header, tools, description)
  }

  /** The first table with the given heading in a list of blocks. */
  function TableRows(blocks: seq<Block>, heading: string): Option<seq<Row>>
    decreases |blocks|
  {
    if |blocks| == 0 then None
    else if blocks[0].FieldTable? && blocks[0].heading == heading then Some(blocks[0].rows)
    else TableRows(blocks[1..], heading)
  }

  /** The first install command in a list of blocks. */
  function Command(blocks: seq<Block>): Option<string>
    decreases |blocks|
  {
    if |blocks| == 0 then None
    else if blocks[0].InstallLine? then Some(blocks[0].command)
    else Command(blocks[1..])
  }

  lemma {:induction false} TableRowsConcat(a: seq<Block>, b: seq<Block>, heading: string)
    ensures TableRows(a + b, heading) == if TableRows(a, heading).Some? then TableRows(a, heading) else TableRows(b, heading)
    decreases |a|
  {
    if |a| > 0 {
      assert (a + b)[1..] == a[1..] + b;
      TableRowsConcat(a[1..], b, heading);
    } else {
      assert a + b == b;
    }
  }

  lemma {:induction false} CommandConcat(a: seq<Block>, b: seq<Block>)
    ensures Command(a + b) == if Command(a).Some? then Command(a) else Command(b)
    decreases |a|
  {
    if |a| > 0 {
      assert (a + b)[1..] == a[1..] + b;
      CommandConcat(a[1..], b);
    } else {
      assert a + b == b;
    }
  }

  /** The optional table block for one key of the descriptor. */
  function TableBlock(heading: string, entries: Option<seq<Entry<FieldInfo>>>): seq<Block> {
    if ListTruthy(entries) then [FieldTable(heading, Rows(entries.value))] else []
  }

  /** `generate_subworkflow_info_help`. */
  function Help(meta: Descriptor, localPath: Option<string>, remoteLocation: Option<string>, name: string): (r: seq<Block>)
    ensures |r| >= 1 && r[0] == IntroPanel(Title(name), IntroFor(meta, localPath, remoteLocation))
    ensures |r| == 1 + (if ListTruthy(meta.input) then 1 else 0) + (if ListTruthy(meta.output) then 1 else 0)
                     + (if StringTruthy(remoteLocation) then 1 else 0)
    ensures ListTruthy(meta.input) ==> r[1] == FieldTable(InputsHeading, Rows(meta.input.value))
    ensures ListTruthy(meta.output) ==>
              r[if ListTruthy(meta.input) then 2 else 1] == FieldTable(OutputsHeading, Rows(meta.output.value))
    ensures TableRows(r, InputsHeading).Some? <==> ListTruthy(meta.input)
    ensures ListTruthy(meta.input) ==> RowsMatch(TableRows(r, InputsHeading).value, Flatten(meta.input.value))
    ensures TableRows(r, OutputsHeading).Some? <==> ListTruthy(meta.output)
    ensures ListTruthy(meta.output) ==> RowsMatch(TableRows(r, OutputsHeading).value, Flatten(meta.output.value))
    ensures Command(r).Some? <==> StringTruthy(remoteLocation)
    ensures StringTruthy(remoteLocation) ==> Command(r) == Some(InstallCommand(remoteLocation.value, name))
    ensures StringTruthy(remoteLocation) ==> r[|r| - 1] == InstallLine(InstallCommand(remoteLocation.value, name))
  {
    var intro := [IntroPanel(Title(name), IntroFor(meta, localPath, remoteLocation))];
    var inputs := TableBlock(InputsHeading, meta.input);
    var outputs := TableBlock(OutputsHeading, meta.output);
    var install := if StringTruthy(remoteLocation) then [InstallLine(InstallCommand(remoteLocation.value, name))] else [];
    HelpFacts(intro, inputs, outputs, install, meta);
    intro + inputs + outputs + install
  }

  lemma HelpFacts(intro: seq<Block>, inputs: seq<Block>, outputs: seq<Block>, install: seq<Block>, meta: Descriptor)
    requires |intro| == 1 && intro[0].IntroPanel?
    requires inputs == TableBlock(InputsHeading, meta.input)
    requires outputs == TableBlock(OutputsHeading, meta.output)
    requires forall i :: 0 <= i < |install| ==> install[i].InstallLine?
    ensures TableRows(intro + inputs + outputs + install, InputsHeading) == if ListTruthy(meta.input) then Some(Rows(meta.input.value)) else None
    ensures TableRows(intro + inputs + outputs + install, OutputsHeading) == if ListTruthy(meta.output) then Some(Rows(meta.output.value)) else None
    ensures Command(intro + inputs + outputs + install) == Command(install)
    ensures ListTruthy(meta.input) ==> RowsMatch(Rows(meta.input.value), Flatten(meta.input.value))
    ensures ListTruthy(meta.output) ==> RowsMatch(Rows(meta.output.value), Flatten(meta.output.value))
  {
    var all := intro + inputs + outputs + install;
    assert all == intro + (inputs + (outputs + install));
    assert all == ((intro + inputs) + outputs) + install;
    TableRowsConcat(intro, inputs + (outputs + install), InputsHeading);
    TableRowsConcat(inputs, outputs + install, InputsHeading);
    TableRowsConcat(outputs, install, InputsHeading);
    TableRowsConcat(intro, inputs + (outputs + install), OutputsHeading);
    TableRowsConcat(inputs, outputs + install, OutputsHeading);
    TableRowsConcat(outputs, install, OutputsHeading);
    TableRowsNone(install, InputsHeading);
    TableRowsNone(install, OutputsHeading);
    CommandConcat(intro + inputs + outputs, install);
    CommandConcat(intro + inputs, outputs);
    CommandConcat(intro, inputs);
    if ListTruthy(meta.input) {
      CollectPointwise(meta.input.value, RowOf);
    }
    if ListTruthy(meta.output) {
      CollectPointwise(meta.output.value, RowOf);
    }
  }

  lemma {:induction false} TableRowsNone(blocks: seq<Block>, heading: string)
    requires forall i :: 0 <= i < |blocks| ==> blocks[i].InstallLine?
    ensures TableRows(blocks, heading) == None
    decreases |blocks|
  {
    if |blocks| > 0 {
      TableRowsNone(blocks[1..], heading);
    }
  }

  /** The markup of the first intro line, as the source formats it. */
  function HeaderMarkup(h: Header): string {
    match h
    case Location(p) => "Location: [blue]" + p + "\n"
    case Repository(loc, linked) =>
      RepositoryPrefix + (if linked then "[link=" + loc + "]" else "") + loc + (if linked then "[/link]" else "") + "\n"
  }

  /** The markup of the tools line: the tool strings joined by ", ". */
  function ToolsMarkup(tools: seq<string>): string {
    ToolsPrefix + Join(", ", tools) + "\n"
  }

  /** The repository text is link-wrapped exactly when the location starts
      with "http" (for a location that is not itself link markup). */
  lemma RepositoryLinkedIffHttp(loc: string)
    requires !StartsWith(loc, "[link=")
    ensures var line := HeaderMarkup(Repository(loc, StartsWith(loc, "http")));
      StartsWith(line, RepositoryPrefix + "[link=") <==> StartsWith(loc, "http")
  {
    var line := HeaderMarkup(Repository(loc, StartsWith(loc, "http")));
    var p := RepositoryPrefix + "[link=";
    if StartsWith(loc, "http") {
      assert line[..|p|] == p;
    } else {
      assert line == RepositoryPrefix + (loc + "\n");
      if |loc| >= 6 {
        assert line[|RepositoryPrefix|..|p|] == loc[..6];
      } else {
        assert line[|RepositoryPrefix| + |loc|] == '\n';
      }
    }
  }

  /** The tools line lists every tool string in order: splitting its body at
      ", " gives them back (when no tool string contains a comma). */
  lemma {:induction false} ToolsLineListsEveryTool(tools: seq<string>)
    requires |tools| > 0
    requires forall i :: 0 <= i < |tools| ==> ',' !in tools[i]
    ensures var line := ToolsMarkup(tools);
      StartsWith(line, ToolsPrefix)
      && |ToolsPrefix| < |line|
      && Split(line[|ToolsPrefix|..|line| - 1], ", ") == tools
  {
    var line := ToolsMarkup(tools);
    var body := Join(", ", tools);
    assert line[..|ToolsPrefix|] == ToolsPrefix;
    assert line[|ToolsPrefix|..|line| - 1] == body;
    SplitJoin(tools, ", ");
  }
}
