/** The build information of a managed project: its targets, the default
    target and the configuration chosen per target, and the queries a build
    driver asks of the active configuration. */
module ManagedBuild {
  import opened Seqs
  import opened BuildModel
  import ToolQueries
  import Aggregates
  import CommandLine
  import opened Selection
  import opened Persistence

  /** The record of `target.updateOwner(resource)` calls, one per target, in target order. */
  function OwnerNotices(targets: seq<Target>, resource: Resource): (r: seq<(string, Resource)>)
    ensures |r| == |targets|
    ensures forall i :: 0 <= i < |targets| ==> r[i] == (targets[i].id, resource)
  {
    seq(|targets|, i requires 0 <= i < |targets| => (targets[i].id, resource))
  }

  /** The names of the configurations, in order. */
  function ConfigurationNames(configs: seq<Configuration>): (r: seq<string>)
    ensures |r| == |configs|
    ensures forall i :: 0 <= i < |configs| ==> r[i] == configs[i].name
  {
    seq(|configs|, i requires 0 <= i < |configs| => configs[i].name)
  }

  class ManagedBuildInfo {
    var dirty: bool
    var owner: Resource
    var targetMap: map<string, Target>
    var targets: seq<Target>
    var defaultConfigurations: map<string, Configuration>
    var defaultTarget: Option<Target>
    /** The calls `updateOwner` has made on the targets. */
    ghost var ownerNotices: seq<(string, Resource)>

    /** The identity map indexes exactly the list of targets. */
    ghost predicate Valid()
      reads this`targetMap, this`targets
    {
      targetMap == IdIndex(targets)
    }

    /** The selection state the selection rules are stated over. */
    function State(): BuildState
      reads this`targets, this`defaultTarget, this`defaultConfigurations
    {
      BuildState(targets, defaultTarget, defaultConfigurations)
    }

    /** The queries can run: there is a default target and it has an active configuration. */
    predicate Ready()
      reads this`targets, this`defaultTarget, this`defaultConfigurations
    {
      HasDefault(State()) && ActiveConfiguration(State()).Some?
    }

    /** `ManagedBuildInfo(owner)`: no targets, no default, no choices. */
    constructor (owner: Resource)
      ensures Valid() && State() == BuildState([], None, map[])
      ensures this.owner == owner && !dirty && ownerNotices == []
    {
      dirty := false;
      this.owner := owner;
      targetMap := map[];
      targets := [];
      defaultConfigurations := map[];
      defaultTarget := None;
      ownerNotices := [];
    }

    /** `ManagedBuildInfo(owner, element)`: reads the saved nodes in order,
        adding each target and caching the identities, then looks up the
        default target and reconciles the cached configuration identities. */
    constructor Load(owner: Resource, nodes: seq<Node>)
      ensures Valid() && State() == Loaded(nodes)
      ensures this.owner == owner && !dirty && ownerNotices == []
    {
      dirty := false;
      this.owner := owner;
      targetMap := map[];
      targets := [];
      defaultConfigurations := map[];
      defaultTarget := None;
      ownerNotices := [];
      new;
      var configIds, defaultTargetId := ReadNodes(nodes);
      if defaultTargetId.Some? && defaultTargetId.value in targetMap {
        defaultTarget := Some(targetMap[defaultTargetId.value]);
      }
      Reconcile(configIds);
    }

    /** The first pass of loading: every target node adds its target, and the
        configuration identities and the default target identity are cached. */
    method ReadNodes(nodes: seq<Node>) returns (configIds: seq<string>, defaultTargetId: Option<string>)
      requires Valid() && targets == []
      modifies this`targetMap, this`targets
      ensures Valid() && targets == LoadedTargets(nodes)
      ensures configIds == CachedConfigIds(nodes)
      ensures defaultTargetId == CachedTargetId(nodes)
    {
      defaultTargetId := None;
      configIds := [];
      var i := 0;
      while i < |nodes|
        invariant 0 <= i <= |nodes|
        invariant Valid() && targets == LoadedTargets(nodes[..i])
        invariant configIds == CachedConfigIds(nodes[..i])
        invariant defaultTargetId == CachedTargetId(nodes[..i])
      {
        var child := nodes[i];
        TakeOneMore(nodes, i);
        FlattenSnoc(nodes[..i], child, TargetOf);
        FlattenSnoc(nodes[..i], child, ConfigIdOf);
        assert nodes[..i + 1][..i] == nodes[..i];
        match child {
          case TargetNode(t) => AddTarget(t);
          case DefaultConfigNode(id) => configIds := configIds + [id];
          case DefaultTargetNode(id) => defaultTargetId := Some(id);
          case OtherNode(_) =>
        }
        i := i + 1;
      }
      assert nodes[..|nodes|] == nodes;
    }

    /** The first target, in list order, with a configuration of identity
        `confId`, together with that configuration. */
    method FindOwner(confId: string) returns (owner: Option<(Target, Configuration)>)
      ensures owner == FirstSome(targets, OwnerOf(confId))
      ensures owner.Some? ==> owner.value.0 in targets && owner.value.1 in owner.value.0.configurations &&
                              owner.value.1.id == confId
    {
      FirstSomeFound(targets, OwnerOf(confId));
      for j := 0 to |targets|
        invariant FirstSome(targets, OwnerOf(confId)) == FirstSome(targets[j..], OwnerOf(confId))
      {
        var targ := targets[j];
        var conf := ConfigurationById(targ, confId);
        if conf.Some? {
          return Some((targ, conf.value));
        }
        assert targets[j..][1..] == targets[j + 1..];
      }
      return None;
    }

    /** The reconciliation pass of loading: each cached identity in turn is
        chosen for the first target that has it. */
    method Reconcile(configIds: seq<string>)
      requires defaultConfigurations == map[]
      modifies this`defaultConfigurations
      ensures defaultConfigurations == Reconciled(configIds, targets)
    {
      for k := 0 to |configIds|
        invariant defaultConfigurations == Reconciled(configIds[..k], targets)
      {
        var confId := configIds[k];
        TakeOneMore(configIds, k);
        ReconciledSnoc(configIds[..k], confId, targets);
        var found := FindOwner(confId);
        if found.Some? {
          defaultConfigurations := defaultConfigurations[found.value.0.id := found.value.1];
        }
      }
      assert configIds[..|configIds|] == configIds;
    }

    /** `addTarget`: the target is appended and indexed by its identity. */
    method AddTarget(target: Target)
      requires Valid()
      modifies this`targetMap, this`targets
      ensures Valid()
      ensures targets == old(targets) + [target]
      ensures targetMap == old(targetMap)[target.id := target]
    {
      targetMap := targetMap[target.id := target];
      targets := targets + [target];
      assert targets[..|targets| - 1] == old(targets);
    }

    /** `getTarget(id)`: the last added target with that identity, or `None`
        when no target has it. */
    method GetTarget(id: string) returns (target: Option<Target>)
      requires Valid()
      ensures target == LastSome(targets, TargetWithId(id))
      ensures target.None? <==> forall i :: 0 <= i < |targets| ==> targets[i].id != id
    {
      IdIndexLastWins(targets, id);
      LastSomeNone(targets, TargetWithId(id));
      if id in targetMap {
        target := Some(targetMap[id]);
      } else {
        target := None;
      }
    }

    /** `getDefaultTarget`: the default, set to the first target on first use. */
    method GetDefaultTarget() returns (target: Target)
      requires HasDefault(State())
      modifies this`defaultTarget
      ensures target == EffectiveDefaultTarget(old(State()))
      ensures State() == WithDefaultResolved(old(State()))
    {
      if defaultTarget.None? {
        defaultTarget := Some(targets[0]);
      }
      target := defaultTarget.value;
    }

    /** `setDefaultTarget`. */
    method SetDefaultTarget(target: Target)
      modifies this`defaultTarget
      ensures State() == Selection.SetDefaultTarget(old(State()), target)
    {
      if defaultTarget.Some? && defaultTarget.value.id == target.id {
        return;
      }
      defaultTarget := Some(target);
    }

    /** `getDefaultConfiguration(target)`; the fallback resolves the default target. */
    method GetDefaultConfiguration(target: Target) returns (config: Option<Configuration>)
      requires target.id in defaultConfigurations || HasDefault(State())
      modifies this`defaultTarget
      ensures config == DefaultConfigurationOf(old(State()), target)
      ensures State() == if target.id in old(defaultConfigurations) then old(State()) else WithDefaultResolved(old(State()))
    {
      config := if target.id in defaultConfigurations then Some(defaultConfigurations[target.id]) else None;
      if config.None? {
        var fallback := GetDefaultTarget();
        if |fallback.configurations| > 0 {
          config := Some(fallback.configurations[0]);
        }
      }
    }

    /** `setDefaultConfiguration(config)`, with `target` the configuration's target. */
    method SetDefaultConfiguration(config: Configuration, target: Target)
      requires target.id == config.targetId
      modifies this`defaultTarget, this`defaultConfigurations
      ensures State() == Selection.SetDefaultConfiguration(old(State()), config, target)
    {
      SetDefaultTarget(target);
      defaultConfigurations := defaultConfigurations[target.id := config];
    }

    /** `getDefaultConfiguration(getDefaultTarget())`, which every query starts with. */
    method ActiveConfig() returns (config: Configuration)
      requires Ready()
      modifies this`defaultTarget
      ensures Some(config) == ActiveConfiguration(old(State()))
      ensures State() == WithDefaultResolved(old(State()))
    {
      var target := GetDefaultTarget();
      ResolvingKeepsConfigurations(old(State()), target);
      DefaultTargetSticky(old(State()));
      var active := GetDefaultConfiguration(target);
      config := active.value;
    }

    // ---- the queries over the active configuration's tools ----

    /** `buildsFileType`. */
    method BuildsFileType(natures: Natures, ext: string) returns (builds: bool)
      requires Ready()
      modifies this`defaultTarget
      ensures builds == ToolQueries.BuildsFileType(ActiveConfiguration(old(State())).value.tools, natures, ext)
      ensures State() == WithDefaultResolved(old(State()))
    {
      var config := ActiveConfig();
      builds := ToolQueries.ScanBuildsFileType(config.tools, natures, ext);
    }

    /** `isHeaderFile`. */
    method IsHeaderFile(natures: Natures, ext: string) returns (header: bool)
      requires Ready()
      modifies this`defaultTarget
      ensures header == ToolQueries.IsHeaderFile(ActiveConfiguration(old(State())).value.tools, natures, ext)
      ensures State() == WithDefaultResolved(old(State()))
    {
      var config := ActiveConfig();
      header := ToolQueries.ScanIsHeaderFile(config.tools, natures, ext);
    }

    /** `getOutputExtension`. */
    method GetOutputExtension(natures: Natures, ext: string) returns (output: Option<string>)
      requires Ready()
      modifies this`defaultTarget
      ensures output == ToolQueries.OutputExtension(ActiveConfiguration(old(State())).value.tools, natures, ext)
      ensures State() == WithDefaultResolved(old(State()))
    {
      var config := ActiveConfig();
      output := ToolQueries.ScanOutputExtension(config.tools, natures, ext);
    }

    /** `getFlagsForSource`. */
    method GetFlagsForSource(natures: Natures, ext: string) returns (flags: Option<string>)
      requires Ready()
      modifies this`defaultTarget
      ensures flags == ToolQueries.FlagsForSource(ActiveConfiguration(old(State())).value.tools, natures, ext)
      ensures State() == WithDefaultResolved(old(State()))
    {
      var config := ActiveConfig();
      flags := ToolQueries.ScanFlagsForSource(config.tools, natures, ext);
    }

    /** `getFlagsForTarget`; a `null` extension is read as "". */
    method GetFlagsForTarget(natures: Natures, extension: Option<string>) returns (flags: Option<string>)
      requires Ready()
      modifies this`defaultTarget
      ensures flags == ToolQueries.FlagsForTarget(ActiveConfiguration(old(State())).value.tools, natures, ToolQueries.OrEmpty(extension))
      ensures State() == WithDefaultResolved(old(State()))
    {
      var ext := if extension.Some? then extension.value else "";
      var config := ActiveConfig();
      flags := ToolQueries.ScanFlagsForTarget(config.tools, natures, ext);
    }

    /** `getToolForSource`. */
    method GetToolForSource(natures: Natures, ext: string) returns (command: Option<string>)
      requires Ready()
      modifies this`defaultTarget
      ensures command == ToolQueries.ToolForSource(ActiveConfiguration(old(State())).value.tools, natures, ext)
      ensures State() == WithDefaultResolved(old(State()))
    {
      var config := ActiveConfig();
      command := ToolQueries.ScanToolForSource(config.tools, natures, ext);
    }

    /** `getToolForTarget`; a `null` extension is read as "". */
    method GetToolForTarget(natures: Natures, extension: Option<string>) returns (command: Option<string>)
      requires Ready()
      modifies this`defaultTarget
      ensures command == ToolQueries.ToolForTarget(ActiveConfiguration(old(State())).value.tools, natures, ToolQueries.OrEmpty(extension))
      ensures State() == WithDefaultResolved(old(State()))
    {
      var ext := if extension.Some? then extension.value else "";
      var config := ActiveConfig();
      command := ToolQueries.ScanToolForTarget(config.tools, natures, ext);
    }

    /** `getOutputFlag`; a `null` extension is read as "". */
    method GetOutputFlag(natures: Natures, extension: Option<string>) returns (flag: string)
      requires Ready()
      modifies this`defaultTarget
      ensures flag == ToolQueries.OutputFlag(ActiveConfiguration(old(State())).value.tools, natures, ToolQueries.OrEmpty(extension))
      ensures State() == WithDefaultResolved(old(State()))
    {
      var ext := if extension.Some? then extension.value else "";
      var config := ActiveConfig();
      flag := ToolQueries.ScanOutputFlag(config.tools, natures, ext);
    }

    /** `getOutputPrefix`; a `null` extension is read as "". */
    method GetOutputPrefix(natures: Natures, extension: Option<string>) returns (prefix: string)
      requires Ready()
      modifies this`defaultTarget
      ensures prefix == ToolQueries.OutputPrefix(ActiveConfiguration(old(State())).value.tools, natures, ToolQueries.OrEmpty(extension))
      ensures State() == WithDefaultResolved(old(State()))
    {
      var ext := if extension.Some? then extension.value else "";
      var config := ActiveConfig();
      prefix := ToolQueries.ScanOutputPrefix(config.tools, natures, ext);
    }

    // ---- the aggregations ----

    /** `getDefinedSymbols`. */
    method GetDefinedSymbols(natures: Natures) returns (symbols: map<string, string>)
      requires Ready()
      modifies this`defaultTarget
      ensures symbols == Aggregates.DefinedSymbols(ActiveConfiguration(old(State())).value.tools, natures)
      ensures State() == WithDefaultResolved(old(State()))
    {
      var config := ActiveConfig();
      symbols := Aggregates.ScanDefinedSymbols(config.tools, natures);
    }

    /** `getIncludePaths`: relative user paths are placed under the project
        location joined with the active configuration's name. */
    method GetIncludePaths(natures: Natures) returns (paths: seq<string>)
      requires Ready()
      modifies this`defaultTarget
      ensures paths == Aggregates.IncludePaths(ActiveConfiguration(old(State())).value.tools, natures,
                                               IncludeRoot(owner.location, ActiveConfiguration(old(State())).value.name))
      ensures State() == WithDefaultResolved(old(State()))
    {
      var config := ActiveConfig();
      var root := IncludeRoot(owner.location, config.name);
      paths := Aggregates.ScanIncludePaths(config.tools, natures, root);
    }

    /** `getLibsForTarget`. */
    method GetLibsForTarget(natures: Natures, ext: string) returns (libs: seq<string>)
      requires Ready()
      modifies this`defaultTarget
      ensures libs == Aggregates.LibsForTarget(ActiveConfiguration(old(State())).value.tools, natures, ext)
      ensures State() == WithDefaultResolved(old(State()))
    {
      var config := ActiveConfig();
      libs := Aggregates.ScanLibsForTarget(config.tools, natures, ext);
    }

    /** `getUserObjectsForTarget`. */
    method GetUserObjectsForTarget(natures: Natures, ext: string) returns (objs: seq<string>)
      requires Ready()
      modifies this`defaultTarget
      ensures objs == Aggregates.UserObjectsForTarget(ActiveConfiguration(old(State())).value.tools, natures, ext)
      ensures State() == WithDefaultResolved(old(State()))
    {
      var config := ActiveConfig();
      objs := Aggregates.ScanUserObjectsForTarget(config.tools, natures, ext);
    }

    // ---- what the default target says ----

    /** `getMakeCommand`. */
    method GetMakeCommand() returns (command: string)
      requires HasDefault(State())
      modifies this`defaultTarget
      ensures command == CommandLine.MakeCommandOf(EffectiveDefaultTarget(old(State())).makeCommand)
      ensures State() == WithDefaultResolved(old(State()))
    {
      var target := GetDefaultTarget();
      command := CommandLine.MakeCommandOf(target.makeCommand);
    }

    /** `getMakeArguments`. */
    method GetMakeArguments() returns (arguments: string)
      requires HasDefault(State())
      modifies this`defaultTarget
      ensures arguments == CommandLine.MakeArgumentsOf(EffectiveDefaultTarget(old(State())).makeCommand)
      ensures State() == WithDefaultResolved(old(State()))
    {
      var target := GetDefaultTarget();
      arguments := CommandLine.MakeArgumentsOf(target.makeCommand);
    }

    /** `getBuildArtifactName`: "" when the default target has no artifact name. */
    method GetBuildArtifactName() returns (name: string)
      requires HasDefault(State())
      modifies this`defaultTarget
      ensures EffectiveDefaultTarget(old(State())).artifactName.Some? ==>
                name == EffectiveDefaultTarget(old(State())).artifactName.value
      ensures EffectiveDefaultTarget(old(State())).artifactName.None? ==> name == ""
      ensures State() == WithDefaultResolved(old(State()))
    {
      var target := GetDefaultTarget();
      name := target.artifactName.GetOr("");
    }

    /** `getCleanCommand`. */
    method GetCleanCommand() returns (command: string)
      requires HasDefault(State())
      modifies this`defaultTarget
      ensures command == EffectiveDefaultTarget(old(State())).cleanCommand
      ensures State() == WithDefaultResolved(old(State()))
    {
      var target := GetDefaultTarget();
      command := target.cleanCommand;
    }

    /** `getConfigurationName`: the active configuration's name, or "" when there is none. */
    method GetConfigurationName() returns (name: string)
      requires HasDefault(State())
      modifies this`defaultTarget
      ensures ActiveConfiguration(old(State())).Some? ==> name == ActiveConfiguration(old(State())).value.name
      ensures ActiveConfiguration(old(State())).None? ==> name == ""
      ensures State() == WithDefaultResolved(old(State()))
    {
      var target := GetDefaultTarget();
      ResolvingKeepsConfigurations(old(State()), target);
      DefaultTargetSticky(old(State()));
      var config := GetDefaultConfiguration(target);
      name := if config.Some? then config.value.name else "";
    }

    /** `getConfigurationNames`: the names of the default target's configurations, in order. */
    method GetConfigurationNames() returns (names: seq<string>)
      requires HasDefault(State())
      modifies this`defaultTarget
      ensures names == ConfigurationNames(EffectiveDefaultTarget(old(State())).configurations)
      ensures State() == WithDefaultResolved(old(State()))
    {
      var target := GetDefaultTarget();
      var configs := target.configurations;
      names := [];
      for i := 0 to |configs|
        invariant names == ConfigurationNames(configs[..i])
      {
        names := names + [configs[i].name];
      }
      assert configs[..|configs|] == configs;
    }

    // ---- persistence, ownership and the dirty flag ----

    /** The nodes `serialize` writes for one target, in a state where the
        default target is either as in `s0` or already resolved from it. */
    method WriteTarget(target: Target, ghost s0: BuildState) returns (written: seq<Node>)
      requires HasDefault(s0) && (State() == s0 || State() == WithDefaultResolved(s0))
      modifies this`defaultTarget
      ensures written == TargetNodes(s0)(target)
      ensures State() == s0 || State() == WithDefaultResolved(s0)
    {
      DefaultTargetSticky(s0);
      ResolvingKeepsConfigurations(s0, target);
      written := [TargetNode(target)];
      var config := GetDefaultConfiguration(target);
      if config.Some? {
        written := written + [DefaultConfigNode(config.value.id)];
      }
    }

    /** `serialize`: writes each target with its default configuration's
        identity, then the default target's identity. */
    method Serialize() returns (nodes: seq<Node>)
      requires HasDefault(State())
      modifies this`defaultTarget
      ensures nodes == SerializedNodes(old(State()))
      ensures State() == WithDefaultResolved(old(State()))
    {
      ghost var s0 := State();
      nodes := [];
      for i := 0 to |targets|
        invariant targets == s0.targets
        invariant State() == s0 || State() == WithDefaultResolved(s0)
        invariant nodes == Flatten(targets[..i], TargetNodes(s0))
      {
        var target := targets[i];
        TakeOneMore(targets, i);
        FlattenSnoc(targets[..i], target, TargetNodes(s0));
        var written := WriteTarget(target, s0);
        nodes := nodes + written;
      }
      assert targets[..|targets|] == targets;
      DefaultTargetSticky(s0);
      var target := GetDefaultTarget();
      nodes := nodes + [DefaultTargetNode(target.id)];
    }

    /** `updateOwner(resource)`: an owner with a different handle is recorded
        and passed on to every target; `null`, or a resource with the handle
        of the current owner, changes nothing. */
    method UpdateOwner(resource: Option<Resource>)
      modifies this`owner, this`ownerNotices
      ensures resource.None? || resource.value.path == old(owner).path ==>
                owner == old(owner) && ownerNotices == old(ownerNotices)
      ensures resource.Some? && resource.value.path != old(owner).path ==>
                owner == resource.value && ownerNotices == old(ownerNotices) + OwnerNotices(targets, resource.value)
    {
      if resource.Some? {
        if owner.path != resource.value.path {
          owner := resource.value;
          for i := 0 to |targets|
            invariant ownerNotices == old(ownerNotices) + OwnerNotices(targets[..i], resource.value)
          {
            ownerNotices := ownerNotices + [(targets[i].id, resource.value)];
          }
          assert targets[..|targets|] == targets;
        }
      }
    }

    /** `setDirty`. */
    method SetDirty(isDirty: bool)
      modifies this`dirty
      ensures dirty == isDirty
    {
      dirty := isDirty;
    }

    /** `isDirty`. */
    method IsDirty() returns (isDirty: bool)
      ensures isDirty == dirty
    {
      isDirty := dirty;
    }
  }
}
