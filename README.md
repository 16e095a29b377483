# Managed build information, modelled in Dafny

This project models `ManagedBuildInfo`, the class at the centre of a managed
C/C++ build. It holds a project's build targets. It keeps the active
selection: a default target, which defaults lazily to the first target, and a
map from target identity to the configuration chosen for that target. It also
answers every question a build driver asks about the active configuration.
Those questions are scans over the configuration's tools, in tool order, and
only the tools whose nature filter suits the project take part (a tool with
an unknown filter is passed over by the first-match queries but kept by the
others):

- the first tool decides, for `buildsFileType`, `isHeaderFile` and
  `getOutputExtension`;
- the first matching tool decides, for the flags and the tool commands of a
  source or a target extension;
- the last matching tool decides, for the output flag and the output prefix;
- the answers of all matching tools are gathered in order, for the defined
  symbols, the include paths, the libraries and the user objects.

It also splits the make command into the command and its first flag. It
saves and loads the selection as a list of nodes. On load, configuration
identities are reconciled with the targets read back.

Modules, one concept each:

- `Seqs`: `Option` and the three scans every query is made of. `FirstSome`
  is the first answer, `LastSome` the last answer, and `Flatten` the ordered
  concatenation of contributions.
- `Strings`: `indexOf` of one character and `trim`.
- `BuildModel`: options, tools, configurations, targets and resources as
  values. It also holds the nature filter, the identity map, and include-path
  resolution.
- `ToolQueries`: the per-extension queries. Each is a specification function
  plus a loop method proved equal to it, and lemmas say what each query means.
- `Aggregates`: symbols, include paths, libraries and user objects. Each is a
  specification function plus nested-loop methods proved equal to it, and
  lemmas state membership, order and last-write-wins.
- `CommandLine`: `getMakeCommand` and `getMakeArguments`.
- `Selection`: the selection state, and the rules for the default target and
  the default configuration.
- `Persistence`: the saved node list, loading and reconciliation, and the
  round trip.
- `ManagedBuild`: the class `ManagedBuildInfo`. It has the source's mutable
  fields. Its methods are proved against the functions above.

Calls into code the model cannot see become parameters:

- The project's natures are a `Natures` value. It holds the answer to
  "has the C nature?" and to "has the C++ nature?". Each answer is `None`
  when asking raises a `CoreException`.
- The tool's `getToolFlags` result is `Option<string>`. It is `None` when
  computing the flags raises a `BuildException`.
- The node list stands for the XML element.
- `ManagedBuild.ManagedBuildInfo.SetDefaultConfiguration` takes the owning target as a second argument, standing for the source's `configuration.getTarget()` call. Only its identity is tied to the configuration (`target.id == config.targetId`); the model does not promise that it is the configuration's own target, as the source's call does, so a caller may pass another `Target` value with that identity.

The source paths in the table below are relative to the repository root.

## Model

| member | source | states |
|---|---|---|
| BuildModel.ConfigurationById | build/org.eclipse.cdt.managedbuilder.core/src/org/eclipse/cdt/managedbuilder/internal/core/ManagedBuildInfo.java:84-85 | `target.getConfiguration(id)`: the answer is a configuration of the target with that identity, and it is `None` exactly when the target has no configuration with that identity |
| BuildModel.IdIndexLastWins | build/org.eclipse.cdt.managedbuilder.core/src/org/eclipse/cdt/managedbuilder/internal/core/ManagedBuildInfo.java:96-99 | the identity map holds exactly the identities of the listed targets, each bound to the last listed target with that identity |
| BuildModel.ResolveUserPath | build/org.eclipse.cdt.managedbuilder.core/src/org/eclipse/cdt/managedbuilder/internal/core/ManagedBuildInfo.java:394-401 | an absolute user include path is kept verbatim; a relative one becomes the absolute form of the root with a trailing separator, followed by the path (exactly the root, its separator and the path when the root is absolute); the result is always absolute |
| BuildModel.FiltersExclusive | build/org.eclipse.cdt.managedbuilder.core/src/org/eclipse/cdt/managedbuilder/internal/core/ManagedBuildInfo.java:111-126 | a C-only and a C++ tool never both suit a project, and one of them does exactly when the C++ nature is present, or the C nature is present and the C++ nature is absent |
| Strings.IndexOf | build/org.eclipse.cdt.managedbuilder.core/src/org/eclipse/cdt/managedbuilder/internal/core/ManagedBuildInfo.java:253 | `indexOf`: -1 exactly when the character is absent, else the position of its first occurrence |
| Strings.TrimShape | build/org.eclipse.cdt.managedbuilder.core/src/org/eclipse/cdt/managedbuilder/internal/core/ManagedBuildInfo.java:255-258 | `trim` keeps a contiguous middle part of the string and drops only characters up to the space around it |
| Strings.TrimEnds | build/org.eclipse.cdt.managedbuilder.core/src/org/eclipse/cdt/managedbuilder/internal/core/ManagedBuildInfo.java:255-258 | a non-empty trimmed string starts and ends with a character above the space |
| Strings.TrimIdempotent | build/org.eclipse.cdt.managedbuilder.core/src/org/eclipse/cdt/managedbuilder/internal/core/ManagedBuildInfo.java:255-258 | trimming twice is trimming once |
| ToolQueries.ScanBuildsFileType | build/org.eclipse.cdt.managedbuilder.core/src/org/eclipse/cdt/managedbuilder/internal/core/ManagedBuildInfo.java:108-133 | the loop over the tools returns the answer of the first tool that suits the project, or false when none does |
| ToolQueries.ScanIsHeaderFile | build/org.eclipse.cdt.managedbuilder.core/src/org/eclipse/cdt/managedbuilder/internal/core/ManagedBuildInfo.java:787-811 | as `ScanBuildsFileType`, with the tool's header extensions |
| ToolQueries.ScanOutputExtension | build/org.eclipse.cdt.managedbuilder.core/src/org/eclipse/cdt/managedbuilder/internal/core/ManagedBuildInfo.java:523-547 | returns the first suitable tool's output extension, even when that is `null`; `null` when no tool suits |
| ToolQueries.ScanFlagsForSource | build/org.eclipse.cdt.managedbuilder.core/src/org/eclipse/cdt/managedbuilder/internal/core/ManagedBuildInfo.java:280-309 | returns the flags of the first suitable tool that builds the extension, passing over tools whose flags raise a `BuildException` |
| ToolQueries.ScanFlagsForTarget | build/org.eclipse.cdt.managedbuilder.core/src/org/eclipse/cdt/managedbuilder/internal/core/ManagedBuildInfo.java:320-350 | as `ScanFlagsForSource`, for a tool that produces the extension |
| ToolQueries.ScanToolForSource | build/org.eclipse.cdt.managedbuilder.core/src/org/eclipse/cdt/managedbuilder/internal/core/ManagedBuildInfo.java:656-682 | returns the command of the first suitable tool that builds the extension, else `null` |
| ToolQueries.ScanToolForTarget | build/org.eclipse.cdt.managedbuilder.core/src/org/eclipse/cdt/managedbuilder/internal/core/ManagedBuildInfo.java:694-720 | returns the command of the first suitable tool that produces the extension, else `null` |
| ToolQueries.ScanOutputFlag | build/org.eclipse.cdt.managedbuilder.core/src/org/eclipse/cdt/managedbuilder/internal/core/ManagedBuildInfo.java:559-588 | the loop keeps overwriting the flag, so it ends with the flag of the last tool the filter keeps (a suitable one, or one with an unknown filter) that produces the extension, or "" |
| ToolQueries.ScanOutputPrefix | build/org.eclipse.cdt.managedbuilder.core/src/org/eclipse/cdt/managedbuilder/internal/core/ManagedBuildInfo.java:600-628 | as `ScanOutputFlag`, for the output prefix |
| ToolQueries.FirstApplicableDecides | build/org.eclipse.cdt.managedbuilder.core/src/org/eclipse/cdt/managedbuilder/internal/core/ManagedBuildInfo.java:104-134 | the first suitable tool decides `buildsFileType`, `isHeaderFile` and `getOutputExtension`, even with a negative answer |
| ToolQueries.NoApplicableTool | build/org.eclipse.cdt.managedbuilder.core/src/org/eclipse/cdt/managedbuilder/internal/core/ManagedBuildInfo.java:783-812 | with no suitable tool these queries answer false, false and `null` |
| ToolQueries.NoConsumerNoBuild | build/org.eclipse.cdt.managedbuilder.core/src/org/eclipse/cdt/managedbuilder/internal/core/ManagedBuildInfo.java:276-310 | an extension that no tool takes as input is not built, and has no source flags and no source tool |
| ToolQueries.FlagsForSourceFirstMatch | build/org.eclipse.cdt.managedbuilder.core/src/org/eclipse/cdt/managedbuilder/internal/core/ManagedBuildInfo.java:276-310 | the source flags are `null` exactly when no suitable tool builds the extension with computable flags; otherwise they come from the first such tool |
| ToolQueries.FlagsForTargetFirstMatch | build/org.eclipse.cdt.managedbuilder.core/src/org/eclipse/cdt/managedbuilder/internal/core/ManagedBuildInfo.java:315-351 | the same for the produced extension |
| ToolQueries.ToolForSourceFirstMatch | build/org.eclipse.cdt.managedbuilder.core/src/org/eclipse/cdt/managedbuilder/internal/core/ManagedBuildInfo.java:652-683 | the source tool is `null` exactly when no suitable tool builds the extension; otherwise it is the first such tool's command (tool commands taken as non-null, see "Left out") |
| ToolQueries.ToolForTargetFirstMatch | build/org.eclipse.cdt.managedbuilder.core/src/org/eclipse/cdt/managedbuilder/internal/core/ManagedBuildInfo.java:688-721 | the same for the produced extension (tool commands taken as non-null, see "Left out") |
| ToolQueries.OutputFlagLastMatch | build/org.eclipse.cdt.managedbuilder.core/src/org/eclipse/cdt/managedbuilder/internal/core/ManagedBuildInfo.java:553-629 | the output flag and the output prefix are those of the last kept tool that produces the extension |
| ToolQueries.OutputFlagNoMatch | build/org.eclipse.cdt.managedbuilder.core/src/org/eclipse/cdt/managedbuilder/internal/core/ManagedBuildInfo.java:553-629 | with no such tool, both are "" |
| ToolQueries.UnknownFilterTool | build/org.eclipse.cdt.managedbuilder.core/src/org/eclipse/cdt/managedbuilder/internal/core/ManagedBuildInfo.java:104-134 | a tool with an unknown filter never answers `buildsFileType`, `isHeaderFile`, `getOutputExtension`, the flags or the tool commands, yet its output flag and prefix are taken |
| Aggregates.SplitSymbol | build/org.eclipse.cdt.managedbuilder.core/src/org/eclipse/cdt/managedbuilder/internal/core/ManagedBuildInfo.java:251-259 | a symbol without '=' is its trimmed self with the value ""; otherwise it splits at its first '=' into a trimmed key and a trimmed value; the key never holds '=' |
| Aggregates.SplitKeyValue | build/org.eclipse.cdt.managedbuilder.core/src/org/eclipse/cdt/managedbuilder/internal/core/ManagedBuildInfo.java:253-256 | `KEY=VALUE` with no '=' in the key splits into the trimmed key and the trimmed value |
| Aggregates.CollectLastWins | build/org.eclipse.cdt.managedbuilder.core/src/org/eclipse/cdt/managedbuilder/internal/core/ManagedBuildInfo.java:245-261 | a key is defined exactly when some non-empty symbol has it as its key, and its value is given by the last such symbol |
| Aggregates.LaterToolOverrides | build/org.eclipse.cdt.managedbuilder.core/src/org/eclipse/cdt/managedbuilder/internal/core/ManagedBuildInfo.java:215-269 | a built-in `KEY=first` of one tool followed by a user `KEY=second` of a later one defines KEY as `second` |
| Aggregates.RedefinedSymbol | build/org.eclipse.cdt.managedbuilder.core/src/org/eclipse/cdt/managedbuilder/internal/core/ManagedBuildInfo.java:245-261 | of two definitions of one key, the later is kept |
| Aggregates.DefineAll | build/org.eclipse.cdt.managedbuilder.core/src/org/eclipse/cdt/managedbuilder/internal/core/ManagedBuildInfo.java:245-261 | the symbol loop records the symbols in order and skips the empty ones |
| Aggregates.DefineToolSymbols | build/org.eclipse.cdt.managedbuilder.core/src/org/eclipse/cdt/managedbuilder/internal/core/ManagedBuildInfo.java:237-268 | the option loop records each preprocessor-symbols option's built-ins, then its user symbols |
| Aggregates.ScanDefinedSymbols | build/org.eclipse.cdt.managedbuilder.core/src/org/eclipse/cdt/managedbuilder/internal/core/ManagedBuildInfo.java:209-271 | `getDefinedSymbols` over a configuration's tools is the ordered collection of all symbols of the kept tools |
| Aggregates.IncludePathExample | build/org.eclipse.cdt.managedbuilder.core/src/org/eclipse/cdt/managedbuilder/internal/core/ManagedBuildInfo.java:362-401 | for the location "/proj" and the configuration "Debug", "inc" resolves to "/proj/Debug/inc" and "/usr/include" is kept |
| Aggregates.IncludePathOrigin | build/org.eclipse.cdt.managedbuilder.core/src/org/eclipse/cdt/managedbuilder/internal/core/ManagedBuildInfo.java:356-413 | every include path is a built-in of an include-path option of a kept tool, or a resolved user path of such an option |
| Aggregates.IncludePathListed | build/org.eclipse.cdt.managedbuilder.core/src/org/eclipse/cdt/managedbuilder/internal/core/ManagedBuildInfo.java:386-402 | conversely, every built-in and every resolved user path of an include-path option of a kept tool is listed |
| Aggregates.UnknownFilterContributes | build/org.eclipse.cdt.managedbuilder.core/src/org/eclipse/cdt/managedbuilder/internal/core/ManagedBuildInfo.java:219-236 | a tool with an unknown filter contributes its symbols, include paths, libraries and user objects whatever the natures |
| Aggregates.ResolveAll | build/org.eclipse.cdt.managedbuilder.core/src/org/eclipse/cdt/managedbuilder/internal/core/ManagedBuildInfo.java:394-402 | the user-path loop resolves every user path, in order |
| Aggregates.ToolPaths | build/org.eclipse.cdt.managedbuilder.core/src/org/eclipse/cdt/managedbuilder/internal/core/ManagedBuildInfo.java:386-408 | the option loop appends, per include-path option, its built-ins and then its resolved user paths |
| Aggregates.ScanIncludePaths | build/org.eclipse.cdt.managedbuilder.core/src/org/eclipse/cdt/managedbuilder/internal/core/ManagedBuildInfo.java:356-413 | `getIncludePaths` over the tools is the ordered concatenation of the kept tools' paths |
| Aggregates.LibsForTargetMember | build/org.eclipse.cdt.managedbuilder.core/src/org/eclipse/cdt/managedbuilder/internal/core/ManagedBuildInfo.java:418-469 | a library is listed exactly when it is `command + lib` for a library of a libraries option of a kept tool that produces the extension |
| Aggregates.UserObjectsMember | build/org.eclipse.cdt.managedbuilder.core/src/org/eclipse/cdt/managedbuilder/internal/core/ManagedBuildInfo.java:726-771 | an object is listed exactly when an objects option of a kept tool that produces the extension holds it |
| Aggregates.AggregationsFollowToolOrder | build/org.eclipse.cdt.managedbuilder.core/src/org/eclipse/cdt/managedbuilder/internal/core/ManagedBuildInfo.java:209-469 | the gathered lists of two runs of tools are the lists of each run concatenated in order; the second run's symbols are recorded over the first's |
| Aggregates.CollectAppend | build/org.eclipse.cdt.managedbuilder.core/src/org/eclipse/cdt/managedbuilder/internal/core/ManagedBuildInfo.java:245-261 | recording two lists of symbols is recording the first, then the second |
| Aggregates.PrefixAll | build/org.eclipse.cdt.managedbuilder.core/src/org/eclipse/cdt/managedbuilder/internal/core/ManagedBuildInfo.java:454-459 | the library loop appends `command + lib` for every library, in order |
| Aggregates.ToolLibraries | build/org.eclipse.cdt.managedbuilder.core/src/org/eclipse/cdt/managedbuilder/internal/core/ManagedBuildInfo.java:446-464 | the option loop appends the prefixed libraries of every libraries option |
| Aggregates.ScanLibsForTarget | build/org.eclipse.cdt.managedbuilder.core/src/org/eclipse/cdt/managedbuilder/internal/core/ManagedBuildInfo.java:418-469 | `getLibsForTarget` over the tools is the ordered concatenation, over kept tools producing the extension, of their prefixed libraries |
| Aggregates.ToolUserObjects | build/org.eclipse.cdt.managedbuilder.core/src/org/eclipse/cdt/managedbuilder/internal/core/ManagedBuildInfo.java:754-766 | the option loop appends every objects option's user objects verbatim |
| Aggregates.ScanUserObjectsForTarget | build/org.eclipse.cdt.managedbuilder.core/src/org/eclipse/cdt/managedbuilder/internal/core/ManagedBuildInfo.java:726-771 | `getUserObjectsForTarget` over the tools is the ordered concatenation of the user objects of kept tools producing the extension |
| CommandLine.MakeCommandOf | build/org.eclipse.cdt.managedbuilder.core/src/org/eclipse/cdt/managedbuilder/internal/core/ManagedBuildInfo.java:502-515 | the command holds no '-'; it is the trimmed text before the first '-', or the whole trimmed command when there is no '-' |
| CommandLine.MakeArgumentsOf | build/org.eclipse.cdt.managedbuilder.core/src/org/eclipse/cdt/managedbuilder/internal/core/ManagedBuildInfo.java:474-497 | "" when the command has no '-'; the result is always empty or a single flag word that starts with '-' and holds no space |
| CommandLine.FlagEnd | build/org.eclipse.cdt.managedbuilder.core/src/org/eclipse/cdt/managedbuilder/internal/core/ManagedBuildInfo.java:485-488 | the flag that starts at the first '-' ends at the next space, or at the end of the command |
| CommandLine.MakeArgumentsWord | build/org.eclipse.cdt.managedbuilder.core/src/org/eclipse/cdt/managedbuilder/internal/core/ManagedBuildInfo.java:474-497 | with a '-', the arguments are the trimmed text from the first '-' to the next space or the end |
| CommandLine.ArgumentsAtFirstFlag | build/org.eclipse.cdt.managedbuilder.core/src/org/eclipse/cdt/managedbuilder/internal/core/ManagedBuildInfo.java:481-494 | any first '-' and first space after it determine the arguments |
| CommandLine.CommandAtFirstDash | build/org.eclipse.cdt.managedbuilder.core/src/org/eclipse/cdt/managedbuilder/internal/core/ManagedBuildInfo.java:502-515 | any first '-' determines the command |
| CommandLine.MakeCommandExample | build/org.eclipse.cdt.managedbuilder.core/src/org/eclipse/cdt/managedbuilder/internal/core/ManagedBuildInfo.java:502-515 | the command of "make -j4 all" is "make" |
| CommandLine.MakeArgumentsExample | build/org.eclipse.cdt.managedbuilder.core/src/org/eclipse/cdt/managedbuilder/internal/core/ManagedBuildInfo.java:474-497 | the arguments of "make -j4 all" are "-j4" |
| CommandLine.OnlyFirstFlagIsArguments | build/org.eclipse.cdt.managedbuilder.core/src/org/eclipse/cdt/managedbuilder/internal/core/ManagedBuildInfo.java:474-497 | the arguments of "make -j4 -k all" are only "-j4" |
| Selection.EffectiveDefaultTarget | build/org.eclipse.cdt.managedbuilder.core/src/org/eclipse/cdt/managedbuilder/internal/core/ManagedBuildInfo.java:199-204 | the default target is the one set, or else the first target |
| Selection.DefaultTargetSticky | build/org.eclipse.cdt.managedbuilder.core/src/org/eclipse/cdt/managedbuilder/internal/core/ManagedBuildInfo.java:199-204 | resolving the default stores the answer and changes nothing else; a second resolution changes nothing and answers the same |
| Selection.ResolvingKeepsConfigurations | build/org.eclipse.cdt.managedbuilder.core/src/org/eclipse/cdt/managedbuilder/internal/core/ManagedBuildInfo.java:182-204 | resolving the default target changes no configuration answer and not the active configuration |
| Selection.SetDefaultTargetSelects | build/org.eclipse.cdt.managedbuilder.core/src/org/eclipse/cdt/managedbuilder/internal/core/ManagedBuildInfo.java:856-861 | afterwards the default has the target's identity; the field is unchanged exactly when the old default had that identity, and is the target otherwise |
| Selection.SetDefaultConfigurationSelects | build/org.eclipse.cdt.managedbuilder.core/src/org/eclipse/cdt/managedbuilder/internal/core/ManagedBuildInfo.java:845-851 | afterwards the default target has the configuration's target identity, the configuration is that target's and the active one, and every other target's choice is unchanged |
| Selection.UnchosenFallsBack | build/org.eclipse.cdt.managedbuilder.core/src/org/eclipse/cdt/managedbuilder/internal/core/ManagedBuildInfo.java:182-194 | every target without a choice gets the same answer: the first configuration of the default target, or `null` when it has none |
| Selection.FallbackFromAnotherTarget | build/org.eclipse.cdt.managedbuilder.core/src/org/eclipse/cdt/managedbuilder/internal/core/ManagedBuildInfo.java:186-191 | the fallback can hand a target a configuration that is not its own |
| Persistence.ReconciledSnoc | build/org.eclipse.cdt.managedbuilder.core/src/org/eclipse/cdt/managedbuilder/internal/core/ManagedBuildInfo.java:78-89 | each cached identity in turn goes to the first target that has it, over earlier choices |
| Persistence.OwnerFound | build/org.eclipse.cdt.managedbuilder.core/src/org/eclipse/cdt/managedbuilder/internal/core/ManagedBuildInfo.java:81-88 | with unique configuration identities, the search finds a configuration's own target |
| Persistence.ReconciledRebuilds | build/org.eclipse.cdt.managedbuilder.core/src/org/eclipse/cdt/managedbuilder/internal/core/ManagedBuildInfo.java:78-89 | reconciling the written identities rebuilds the choices |
| Persistence.DefaultTargetSurvives | build/org.eclipse.cdt.managedbuilder.core/src/org/eclipse/cdt/managedbuilder/internal/core/ManagedBuildInfo.java:76 | with unique target identities, looking up the saved identity finds the default target |
| Persistence.TargetsSurvive | build/org.eclipse.cdt.managedbuilder.core/src/org/eclipse/cdt/managedbuilder/internal/core/ManagedBuildInfo.java:63-67 | reading back the written nodes gives the targets in order |
| Persistence.ConfigIdsSurvive | build/org.eclipse.cdt.managedbuilder.core/src/org/eclipse/cdt/managedbuilder/internal/core/ManagedBuildInfo.java:68-70 | reading back the written nodes gives the chosen identities in target order |
| Persistence.RoundTrip | build/org.eclipse.cdt.managedbuilder.core/src/org/eclipse/cdt/managedbuilder/internal/core/ManagedBuildInfo.java:57-91 | saving then loading gives back the targets, the default target and every choice, under the preconditions listed under "Left out" |
| Persistence.ChoiceLostWithoutChoiceForEveryTarget | build/org.eclipse.cdt.managedbuilder.core/src/org/eclipse/cdt/managedbuilder/internal/core/ManagedBuildInfo.java:821-840 | when a target has no choice, saving writes the fallback, which loading can pin on the default target over its own choice |
| ManagedBuild.ConfigurationNames | build/org.eclipse.cdt.managedbuilder.core/src/org/eclipse/cdt/managedbuilder/internal/core/ManagedBuildInfo.java:168-177 | one name per configuration, in order |
| ManagedBuild.OwnerNotices | build/org.eclipse.cdt.managedbuilder.core/src/org/eclipse/cdt/managedbuilder/internal/core/ManagedBuildInfo.java:882-886 | one `updateOwner` notice per target, in order |
| ManagedBuild.ManagedBuildInfo.constructor | build/org.eclipse.cdt.managedbuilder.core/src/org/eclipse/cdt/managedbuilder/internal/core/ManagedBuildInfo.java:50-55 | no targets, no default, no choices, the given owner, not dirty |
| ManagedBuild.ManagedBuildInfo.Load | build/org.eclipse.cdt.managedbuilder.core/src/org/eclipse/cdt/managedbuilder/internal/core/ManagedBuildInfo.java:57-91 | the state is the one `Loaded` computes from the nodes, and the identity map indexes the targets |
| ManagedBuild.ManagedBuildInfo.ReadNodes | build/org.eclipse.cdt.managedbuilder.core/src/org/eclipse/cdt/managedbuilder/internal/core/ManagedBuildInfo.java:63-74 | the node loop adds the targets in order and caches the identities |
| ManagedBuild.ManagedBuildInfo.FindOwner | build/org.eclipse.cdt.managedbuilder.core/src/org/eclipse/cdt/managedbuilder/internal/core/ManagedBuildInfo.java:81-88 | the first target in list order with a configuration of that identity, with that configuration |
| ManagedBuild.ManagedBuildInfo.Reconcile | build/org.eclipse.cdt.managedbuilder.core/src/org/eclipse/cdt/managedbuilder/internal/core/ManagedBuildInfo.java:78-89 | the choices are the reconciliation of the cached identities |
| ManagedBuild.ManagedBuildInfo.AddTarget | build/org.eclipse.cdt.managedbuilder.core/src/org/eclipse/cdt/managedbuilder/internal/core/ManagedBuildInfo.java:96-99 | appends the target and indexes it by identity, keeping the map an index of the list |
| ManagedBuild.ManagedBuildInfo.GetTarget | build/org.eclipse.cdt.managedbuilder.core/src/org/eclipse/cdt/managedbuilder/internal/core/ManagedBuildInfo.java:638-640 | the last added target with the identity; `null` exactly when no target has it |
| ManagedBuild.ManagedBuildInfo.GetDefaultTarget | build/org.eclipse.cdt.managedbuilder.core/src/org/eclipse/cdt/managedbuilder/internal/core/ManagedBuildInfo.java:199-204 | answers the effective default and stores it |
| ManagedBuild.ManagedBuildInfo.SetDefaultTarget | build/org.eclipse.cdt.managedbuilder.core/src/org/eclipse/cdt/managedbuilder/internal/core/ManagedBuildInfo.java:856-861 | the new state is `Selection.SetDefaultTarget` of the old |
| ManagedBuild.ManagedBuildInfo.GetDefaultConfiguration | build/org.eclipse.cdt.managedbuilder.core/src/org/eclipse/cdt/managedbuilder/internal/core/ManagedBuildInfo.java:182-194 | answers `DefaultConfigurationOf`; only the fallback resolves the default target |
| ManagedBuild.ManagedBuildInfo.SetDefaultConfiguration | build/org.eclipse.cdt.managedbuilder.core/src/org/eclipse/cdt/managedbuilder/internal/core/ManagedBuildInfo.java:845-851 | the new state is `Selection.SetDefaultConfiguration` of the old |
| ManagedBuild.ManagedBuildInfo.ActiveConfig | build/org.eclipse.cdt.managedbuilder.core/src/org/eclipse/cdt/managedbuilder/internal/core/ManagedBuildInfo.java:109 | `getDefaultConfiguration(getDefaultTarget())` is the active configuration, with the default resolved |
| ManagedBuild.ManagedBuildInfo.BuildsFileType | build/org.eclipse.cdt.managedbuilder.core/src/org/eclipse/cdt/managedbuilder/internal/core/ManagedBuildInfo.java:104-134 | answers `buildsFileType` over the active configuration's tools |
| ManagedBuild.ManagedBuildInfo.IsHeaderFile | build/org.eclipse.cdt.managedbuilder.core/src/org/eclipse/cdt/managedbuilder/internal/core/ManagedBuildInfo.java:783-812 | answers `isHeaderFile` over the active configuration's tools |
| ManagedBuild.ManagedBuildInfo.GetOutputExtension | build/org.eclipse.cdt.managedbuilder.core/src/org/eclipse/cdt/managedbuilder/internal/core/ManagedBuildInfo.java:520-548 | answers `getOutputExtension` over the active configuration's tools |
| ManagedBuild.ManagedBuildInfo.GetFlagsForSource | build/org.eclipse.cdt.managedbuilder.core/src/org/eclipse/cdt/managedbuilder/internal/core/ManagedBuildInfo.java:276-310 | answers `getFlagsForSource` over the active configuration's tools |
| ManagedBuild.ManagedBuildInfo.GetFlagsForTarget | build/org.eclipse.cdt.managedbuilder.core/src/org/eclipse/cdt/managedbuilder/internal/core/ManagedBuildInfo.java:315-351 | the same, reading a `null` extension as "" |
| ManagedBuild.ManagedBuildInfo.GetToolForSource | build/org.eclipse.cdt.managedbuilder.core/src/org/eclipse/cdt/managedbuilder/internal/core/ManagedBuildInfo.java:652-683 | answers `getToolForSource` over the active configuration's tools |
| ManagedBuild.ManagedBuildInfo.GetToolForTarget | build/org.eclipse.cdt.managedbuilder.core/src/org/eclipse/cdt/managedbuilder/internal/core/ManagedBuildInfo.java:688-721 | the same, reading a `null` extension as "" |
| ManagedBuild.ManagedBuildInfo.GetOutputFlag | build/org.eclipse.cdt.managedbuilder.core/src/org/eclipse/cdt/managedbuilder/internal/core/ManagedBuildInfo.java:553-589 | answers `getOutputFlag`, reading a `null` extension as "" |
| ManagedBuild.ManagedBuildInfo.GetOutputPrefix | build/org.eclipse.cdt.managedbuilder.core/src/org/eclipse/cdt/managedbuilder/internal/core/ManagedBuildInfo.java:594-629 | answers `getOutputPrefix`, reading a `null` extension as "" |
| ManagedBuild.ManagedBuildInfo.GetDefinedSymbols | build/org.eclipse.cdt.managedbuilder.core/src/org/eclipse/cdt/managedbuilder/internal/core/ManagedBuildInfo.java:209-271 | answers `getDefinedSymbols` over the active configuration's tools |
| ManagedBuild.ManagedBuildInfo.GetIncludePaths | build/org.eclipse.cdt.managedbuilder.core/src/org/eclipse/cdt/managedbuilder/internal/core/ManagedBuildInfo.java:356-413 | answers `getIncludePaths`, under the owner's location joined with the active configuration's name |
| ManagedBuild.ManagedBuildInfo.GetLibsForTarget | build/org.eclipse.cdt.managedbuilder.core/src/org/eclipse/cdt/managedbuilder/internal/core/ManagedBuildInfo.java:418-469 | answers `getLibsForTarget` over the active configuration's tools |
| ManagedBuild.ManagedBuildInfo.GetUserObjectsForTarget | build/org.eclipse.cdt.managedbuilder.core/src/org/eclipse/cdt/managedbuilder/internal/core/ManagedBuildInfo.java:726-771 | answers `getUserObjectsForTarget` over the active configuration's tools |
| ManagedBuild.ManagedBuildInfo.GetMakeCommand | build/org.eclipse.cdt.managedbuilder.core/src/org/eclipse/cdt/managedbuilder/internal/core/ManagedBuildInfo.java:502-515 | the command part of the default target's make command |
| ManagedBuild.ManagedBuildInfo.GetMakeArguments | build/org.eclipse.cdt.managedbuilder.core/src/org/eclipse/cdt/managedbuilder/internal/core/ManagedBuildInfo.java:474-497 | the first flag of the default target's make command |
| ManagedBuild.ManagedBuildInfo.GetBuildArtifactName | build/org.eclipse.cdt.managedbuilder.core/src/org/eclipse/cdt/managedbuilder/internal/core/ManagedBuildInfo.java:139-143 | the default target's artifact name, or "" when it has none |
| ManagedBuild.ManagedBuildInfo.GetCleanCommand | build/org.eclipse.cdt.managedbuilder.core/src/org/eclipse/cdt/managedbuilder/internal/core/ManagedBuildInfo.java:148-154 | the default target's clean command |
| ManagedBuild.ManagedBuildInfo.GetConfigurationName | build/org.eclipse.cdt.managedbuilder.core/src/org/eclipse/cdt/managedbuilder/internal/core/ManagedBuildInfo.java:159-163 | the active configuration's name, or "" when there is no active configuration |
| ManagedBuild.ManagedBuildInfo.GetConfigurationNames | build/org.eclipse.cdt.managedbuilder.core/src/org/eclipse/cdt/managedbuilder/internal/core/ManagedBuildInfo.java:168-177 | the names of the default target's configurations, in order |
| ManagedBuild.ManagedBuildInfo.WriteTarget | build/org.eclipse.cdt.managedbuilder.core/src/org/eclipse/cdt/managedbuilder/internal/core/ManagedBuildInfo.java:824-832 | the nodes of one target: the target, then its default configuration's identity when it has one |
| ManagedBuild.ManagedBuildInfo.Serialize | build/org.eclipse.cdt.managedbuilder.core/src/org/eclipse/cdt/managedbuilder/internal/core/ManagedBuildInfo.java:821-840 | the nodes are `SerializedNodes` of the state, and the default target ends up resolved |
| ManagedBuild.ManagedBuildInfo.UpdateOwner | build/org.eclipse.cdt.managedbuilder.core/src/org/eclipse/cdt/managedbuilder/internal/core/ManagedBuildInfo.java:876-889 | a non-null owner with a different handle is stored and passed to every target in order; `null` or the same handle changes nothing |
| ManagedBuild.ManagedBuildInfo.SetDirty | build/org.eclipse.cdt.managedbuilder.core/src/org/eclipse/cdt/managedbuilder/internal/core/ManagedBuildInfo.java:866-868 | the flag is the given value |
| ManagedBuild.ManagedBuildInfo.IsDirty | build/org.eclipse.cdt.managedbuilder.core/src/org/eclipse/cdt/managedbuilder/internal/core/ManagedBuildInfo.java:776-778 | answers the flag |

## Left out

- XML: the element, the document and the DOM calls are replaced by a list of `Node` values. The element a target writes of itself is a `TargetNode` carrying the target. `Target.serialize` and the `Target(this, element)` constructor are not part of this model. The constructor's only effect here is its `addTarget` call.
- `ManagedBuild.ManagedBuildInfo.UpdateOwner`: owners are compared by handle (`Resource.path`). The owner's location is a snapshot taken when the owner is handed over; the source asks the live resource each time, which the model does not capture.
- `Target.updateOwner`: targets are values here, so the call is recorded in the ghost field `ownerNotices`. Its effect on the target, its configurations and its tools is not modelled.
- `IPath`: paths are `/`-separated strings. `isAbsolute` means "starts with '/'". There are no devices or drive letters, no `toOSString` conversion, and no normalisation of `.`, `..` or doubled separators.
- Tool getters: `getToolFlags` (when it does not throw), `getToolCommand`, `getOutputFlag` and `getOutputPrefix` are assumed to return non-null strings; `ITool` is not part of this model. In the source a `null` command or flag would be returned as is, so `getToolForSource` and `getToolForTarget` could also answer `null` for a suitable tool; the model's `None` arises only when no suitable tool builds or produces the extension, and its flags are `None` only for that case or a `BuildException`.
- `BuildException` from the option getters (`getBuiltIns`, `getDefinedSymbols`, `getIncludePaths`, `getLibraries`, `getUserObjects`, `getCommand`): the model assumes these getters do not throw, since each call is guarded by the matching value-type check. Only two handlers carry a comment saying they are never reached: ManagedBuildInfo.java:264 in `getDefinedSymbols` and ManagedBuildInfo.java:405 in `getIncludePaths`; the handlers in `getLibsForTarget` (ManagedBuildInfo.java:460-462) and `getUserObjectsForTarget` (ManagedBuildInfo.java:762-764) just `continue` without comment. `Option` is not part of this model, so the assumption is not checked, and the path that skips the rest of the option is not modelled.
- Nature filters: the source switches on an integer; every value other than the three constants is one enumeration value, `FilterOther`. The first-match queries pass over such a tool; the other scans fall out of the switch and keep it without asking the natures (`BuildModel.Admits`).
- Natures are one snapshot per query. A project whose natures change between two tools of one scan is not modelled.
- `getOwner` and `getTargets` are plain field reads and have no member of their own; `targets` and `owner` are fields of the class.
- `Persistence.RoundTrip`: stated under preconditions the source does not check. Target identities must be unique, and configuration identities unique across all targets. The default target, when set, must be one of the listed targets. Each listed target, and no other identity, must have one of its own configurations chosen. Without the last condition the round trip fails: `Persistence.ChoiceLostWithoutChoiceForEveryTarget` shows a choice being lost.
- Queries: the source throws a `NullPointerException` when there is no active configuration, and `IndexOutOfBoundsException` when there is neither a default nor a target. The model states these as preconditions (`Ready`, `HasDefault`) rather than as an error result. The error paths of the query methods are therefore not modelled.
- `Serialize`: with no targets and no default set, the source throws from `getDefaultTarget`, so `HasDefault` is a precondition. When no target exists but a default was set, the default-target node is still written.

Behaviour worth noting:

- A `FILTER_BOTH` tool applies even when the nature questions fail, because the code never asks them for such a tool.
- `getDefaultConfiguration` falls back to the first configuration of the *default* target, not of the target asked about (`Selection.FallbackFromAnotherTarget`).
- The code raises an exception rather than returning an empty answer when there is no configuration for a query to work on.
