/** The collaborators of the build-information engine, as values: options,
    tools, configurations and targets, the project natures a tool is filtered
    by, and the project resource that owns the build information. */
module BuildModel {
  import opened Seqs

  /** The value type of a tool option; only the first four are read by the engine. */
  datatype OptionKind = PreprocessorSymbols | IncludePath | Libraries | Objects | OtherKind

  /** An option of a tool: its kind, the values the tool definition builds in,
      the values the user entered, and the command prefix put before each
      library. */
  datatype ToolOption = ToolOption(
    kind: OptionKind,
    builtIns: seq<string>,
    userValues: seq<string>,
    command: string)

  /** The natures a tool is meant for: `FILTER_C`, `FILTER_CC` and
      `FILTER_BOTH`; `FilterOther` is any other value of the integer filter. */
  datatype NatureFilter = FilterC | FilterCC | FilterBoth | FilterOther

  /** What the project answers when asked whether it has the C nature and
      whether it has the C++ nature; `None` stands for a question that raises
      a `CoreException`. */
  datatype Natures = Natures(hasC: Option<bool>, hasCC: Option<bool>)

  /** A tool of a configuration. `flags` is `None` when computing the tool's
      flags raises a `BuildException`; `outputExtensionMap` gives, per input
      extension, the extension of the file the tool makes from it. */
  datatype Tool = Tool(
    filter: NatureFilter,
    inputExtensions: set<string>,
    outputExtensions: set<string>,
    headerExtensions: set<string>,
    flags: Option<string>,
    command: string,
    outputFlag: string,
    outputPrefix: string,
    outputExtensionMap: map<string, string>,
    options: seq<ToolOption>)

  /** A configuration; `targetId` is the identity of the target that owns it. */
  datatype Configuration = Configuration(
    id: string,
    name: string,
    tools: seq<Tool>,
    targetId: string)

  /** A build target; `artifactName` may be `null`. */
  datatype Target = Target(
    id: string,
    name: string,
    configurations: seq<Configuration>,
    makeCommand: string,
    cleanCommand: string,
    artifactName: Option<string>)

  /** The project resource: its handle (the workspace path, which is what
      `equals` compares), and its location in the file system as read when
      the resource was handed over. */
  datatype Resource = Resource(path: string, location: string)

  /** Whether a tool is right for the project. `FILTER_BOTH` never asks the
      project, so it applies even when a nature question fails. `FILTER_CC`
      asks for the C++ nature. `FILTER_C` asks for the C nature and, only when
      that is present, for the C++ nature, which must be absent. A question
      that fails makes the scan skip the tool. The queries that return from
      inside the filter switch never return for an unknown filter, so for them
      such a tool is passed over. */
  predicate Applies(filter: NatureFilter, natures: Natures)
  {
    match filter
    case FilterBoth => true
    case FilterCC => natures.hasCC == Some(true)
    case FilterC => natures.hasC == Some(true) && natures.hasCC == Some(false)
    case FilterOther => false
  }

  /** Whether a scan that only skips unsuitable tools inside the filter switch
      and works on the tool after it (the aggregations, the output flag and
      the output prefix) keeps the tool: an unknown filter falls out of the
      switch unasked, so such a tool is kept. */
  predicate Admits(filter: NatureFilter, natures: Natures)
  {
    filter == FilterOther || Applies(filter, natures)
  }

  /** A C-only tool and a C++ tool are never both right for a project, and one
      of them is exactly when both questions succeed and either nature is present. */
  lemma FiltersExclusive(natures: Natures)
    ensures !(Applies(FilterC, natures) && Applies(FilterCC, natures))
    ensures Applies(FilterC, natures) || Applies(FilterCC, natures) <==>
            natures.hasCC == Some(true) || (natures.hasC == Some(true) && natures.hasCC == Some(false))
  {
  }

  /** `tool.getOutputExtension(ext)`: `None` when the tool makes nothing from `ext`. */
  function OutputExtensionOf(tool: Tool, ext: string): Option<string>
  {
    if ext in tool.outputExtensionMap then Some(tool.outputExtensionMap[ext]) else None
  }

  /** Selects the configuration with identity `id`. */
  function ConfigWithId(id: string): Configuration -> Option<Configuration>
  {
    (c: Configuration) => if c.id == id then Some(c) else None
  }

  /** `target.getConfiguration(id)`: the configuration of the target with that identity. */
  function ConfigurationById(target: Target, id: string): (r: Option<Configuration>)
    ensures r.Some? ==> r.value in target.configurations && r.value.id == id
    ensures r.None? <==> forall c :: c in target.configurations ==> c.id != id
  {
    FirstSomeNone(target.configurations, ConfigWithId(id));
    FirstSomeFound(target.configurations, ConfigWithId(id));
    FirstSome(target.configurations, ConfigWithId(id))
  }

  /** The identity map the engine keeps beside its list of targets: a later
      target with the same identity replaces an earlier one. */
  function IdIndex(targets: seq<Target>): map<string, Target>
  {
    if targets == [] then map[]
    else IdIndex(targets[..|targets| - 1])[targets[|targets| - 1].id := targets[|targets| - 1]]
  }

  /** Selects the target with identity `id`. */
  function TargetWithId(id: string): Target -> Option<Target>
  {
    (t: Target) => if t.id == id then Some(t) else None
  }

  /** The identity map holds exactly the identities in the list, each bound to
      the last target in the list that carries it. */
  lemma {:induction false} IdIndexLastWins(targets: seq<Target>, id: string)
    ensures id in IdIndex(targets) <==> exists i :: 0 <= i < |targets| && targets[i].id == id
    ensures id in IdIndex(targets) ==> Some(IdIndex(targets)[id]) == LastSome(targets, TargetWithId(id))
  {
    if targets != [] {
      var prefix := targets[..|targets| - 1];
      IdIndexLastWins(prefix, id);
      assert forall i :: 0 <= i < |prefix| ==> prefix[i] == targets[i];
    }
  }

  // ---- include-path resolution, on '/'-separated paths ----

  /** `IPath.isAbsolute` for a path with no device. */
  predicate IsAbsolute(path: string)
  {
    |path| > 0 && path[0] == '/'
  }

  /** `IPath.addTrailingSeparator`. */
  function AddTrailingSeparator(path: string): (r: string)
    ensures |r| > 0 && r[|r| - 1] == '/'
  {
    if |path| > 0 && path[|path| - 1] == '/' then path else path + "/"
  }

  /** `IPath.makeAbsolute`. */
  function MakeAbsolute(path: string): (r: string)
    ensures IsAbsolute(r)
    ensures IsAbsolute(path) ==> r == path
  {
    if IsAbsolute(path) then path else "/" + path
  }

  /** The directory relative include paths are resolved against: the project
      location followed by the configuration name. */
  function IncludeRoot(location: string, configName: string): string
  {
    AddTrailingSeparator(location) + configName
  }

  /** A user include path: kept when absolute, otherwise placed under `root`:
      the result is then the absolute form of `root` with a trailing separator,
      followed by the path. */
  function ResolveUserPath(root: string, path: string): (r: string)
    ensures IsAbsolute(r)
    ensures IsAbsolute(path) ==> r == path
    ensures !IsAbsolute(path) ==> r == MakeAbsolute(AddTrailingSeparator(root)) + path
    ensures !IsAbsolute(path) && IsAbsolute(root) ==> r == AddTrailingSeparator(root) + path
    ensures !IsAbsolute(path) ==> |path| < |r| && r[|r| - |path|..] == path
  {
    if IsAbsolute(path) then path
    else
      var dir := AddTrailingSeparator(root);
      var joined := dir + path;
      assert joined[|joined| - |path|..] == path;
      assert ("/" + joined)[|joined| + 1 - |path|..] == path;
      assert IsAbsolute(dir) ==> IsAbsolute(joined);
      assert !IsAbsolute(dir) ==> !IsAbsolute(joined) && "/" + joined == ("/" + dir) + path;
      MakeAbsolute(joined)
  }
}
