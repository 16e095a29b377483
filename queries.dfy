/** The per-extension queries of the build information: each walks the tools
    of the active configuration in order and answers from the first (or, for
    the output flag and prefix, the last) tool that is right for the project
    and handles the extension. */
module ToolQueries {
  import opened Seqs
  import opened BuildModel

  // ---- what one tool answers, or None when the scan moves on past it ----

  /** `buildsFileType`: the first tool right for the project answers, whatever
      the extension. */
  function BuildsAnswer(natures: Natures, ext: string): Tool -> Option<bool>
  {
    (t: Tool) => if Applies(t.filter, natures) then Some(ext in t.inputExtensions) else None
  }

  /** `isHeaderFile`: the first tool right for the project answers. */
  function HeaderAnswer(natures: Natures, ext: string): Tool -> Option<bool>
  {
    (t: Tool) => if Applies(t.filter, natures) then Some(ext in t.headerExtensions) else None
  }

  /** `getOutputExtension`: the first tool right for the project answers, even
      when its answer is `null`. */
  function OutputExtensionAnswer(natures: Natures, ext: string): Tool -> Option<Option<string>>
  {
    (t: Tool) => if Applies(t.filter, natures) then Some(OutputExtensionOf(t, ext)) else None
  }

  /** `getFlagsForSource`: a tool that builds the extension and is right for the
      project, unless computing its flags fails. */
  function SourceFlagsAnswer(natures: Natures, ext: string): Tool -> Option<string>
  {
    (t: Tool) => if ext in t.inputExtensions && Applies(t.filter, natures) then t.flags else None
  }

  /** `getFlagsForTarget`: a tool that produces the extension and is right for
      the project, unless computing its flags fails. */
  function TargetFlagsAnswer(natures: Natures, ext: string): Tool -> Option<string>
  {
    (t: Tool) => if ext in t.outputExtensions && Applies(t.filter, natures) then t.flags else None
  }

  /** `getToolForSource`: the command of a tool that builds the extension. */
  function SourceToolAnswer(natures: Natures, ext: string): Tool -> Option<string>
  {
    (t: Tool) => if ext in t.inputExtensions && Applies(t.filter, natures) then Some(t.command) else None
  }

  /** `getToolForTarget`: the command of a tool that produces the extension. */
  function TargetToolAnswer(natures: Natures, ext: string): Tool -> Option<string>
  {
    (t: Tool) => if ext in t.outputExtensions && Applies(t.filter, natures) then Some(t.command) else None
  }

  /** `getOutputFlag`: the output flag of a tool that produces the extension. */
  function OutputFlagAnswer(natures: Natures, ext: string): Tool -> Option<string>
  {
    (t: Tool) => if Admits(t.filter, natures) && ext in t.outputExtensions then Some(t.outputFlag) else None
  }

  /** `getOutputPrefix`: the output prefix of a tool that produces the extension. */
  function OutputPrefixAnswer(natures: Natures, ext: string): Tool -> Option<string>
  {
    (t: Tool) => if Admits(t.filter, natures) && ext in t.outputExtensions then Some(t.outputPrefix) else None
  }

  // ---- the queries, as functions of the active configuration's tools ----

  function BuildsFileType(tools: seq<Tool>, natures: Natures, ext: string): bool
  {
    FirstSome(tools, BuildsAnswer(natures, ext)).GetOr(false)
  }

  function IsHeaderFile(tools: seq<Tool>, natures: Natures, ext: string): bool
  {
    FirstSome(tools, HeaderAnswer(natures, ext)).GetOr(false)
  }

  function OutputExtension(tools: seq<Tool>, natures: Natures, ext: string): Option<string>
  {
    FirstSome(tools, OutputExtensionAnswer(natures, ext)).GetOr(None)
  }

  function FlagsForSource(tools: seq<Tool>, natures: Natures, ext: string): Option<string>
  {
    FirstSome(tools, SourceFlagsAnswer(natures, ext))
  }

  function FlagsForTarget(tools: seq<Tool>, natures: Natures, ext: string): Option<string>
  {
    FirstSome(tools, TargetFlagsAnswer(natures, ext))
  }

  function ToolForSource(tools: seq<Tool>, natures: Natures, ext: string): Option<string>
  {
    FirstSome(tools, SourceToolAnswer(natures, ext))
  }

  function ToolForTarget(tools: seq<Tool>, natures: Natures, ext: string): Option<string>
  {
    FirstSome(tools, TargetToolAnswer(natures, ext))
  }

  function OutputFlag(tools: seq<Tool>, natures: Natures, ext: string): string
  {
    LastSome(tools, OutputFlagAnswer(natures, ext)).GetOr("")
  }

  function OutputPrefix(tools: seq<Tool>, natures: Natures, ext: string): string
  {
    LastSome(tools, OutputPrefixAnswer(natures, ext)).GetOr("")
  }

  /** `null` extensions are read as the empty string. */
  function OrEmpty(ext: Option<string>): string
  {
    ext.GetOr("")
  }

  // ---- the scans ----

  method ScanBuildsFileType(tools: seq<Tool>, natures: Natures, ext: string) returns (builds: bool)
    ensures builds == BuildsFileType(tools, natures, ext)
  {
    for index := 0 to |tools|
      invariant FirstSome(tools, BuildsAnswer(natures, ext)) == FirstSome(tools[index..], BuildsAnswer(natures, ext))
    {
      var tool := tools[index];
      if Applies(tool.filter, natures) {
        return ext in tool.inputExtensions;
      }
    }
    return false;
  }

  method ScanIsHeaderFile(tools: seq<Tool>, natures: Natures, ext: string) returns (header: bool)
    ensures header == IsHeaderFile(tools, natures, ext)
  {
    for index := 0 to |tools|
      invariant FirstSome(tools, HeaderAnswer(natures, ext)) == FirstSome(tools[index..], HeaderAnswer(natures, ext))
    {
      var tool := tools[index];
      if Applies(tool.filter, natures) {
        return ext in tool.headerExtensions;
      }
    }
    return false;
  }

  method ScanOutputExtension(tools: seq<Tool>, natures: Natures, ext: string) returns (output: Option<string>)
    ensures output == OutputExtension(tools, natures, ext)
  {
    for index := 0 to |tools|
      invariant FirstSome(tools, OutputExtensionAnswer(natures, ext)) ==
                FirstSome(tools[index..], OutputExtensionAnswer(natures, ext))
    {
      var tool := tools[index];
      if Applies(tool.filter, natures) {
        return OutputExtensionOf(tool, ext);
      }
    }
    return None;
  }

  method ScanFlagsForSource(tools: seq<Tool>, natures: Natures, ext: string) returns (flags: Option<string>)
    ensures flags == FlagsForSource(tools, natures, ext)
  {
    for index := 0 to |tools|
      invariant FirstSome(tools, SourceFlagsAnswer(natures, ext)) == FirstSome(tools[index..], SourceFlagsAnswer(natures, ext))
    {
      var tool := tools[index];
      if ext in tool.inputExtensions && Applies(tool.filter, natures) {
        match tool.flags
        case Some(f) => return Some(f);
        case None =>  // the flags raised a BuildException: try the next tool
      }
    }
    return None;
  }

  method ScanFlagsForTarget(tools: seq<Tool>, natures: Natures, ext: string) returns (flags: Option<string>)
    ensures flags == FlagsForTarget(tools, natures, ext)
  {
    for index := 0 to |tools|
      invariant FirstSome(tools, TargetFlagsAnswer(natures, ext)) == FirstSome(tools[index..], TargetFlagsAnswer(natures, ext))
    {
      var tool := tools[index];
      if ext in tool.outputExtensions && Applies(tool.filter, natures) {
        match tool.flags
        case Some(f) => return Some(f);
        case None =>  // the flags raised a BuildException: try the next tool
      }
    }
    return None;
  }

  method ScanToolForSource(tools: seq<Tool>, natures: Natures, ext: string) returns (command: Option<string>)
    ensures command == ToolForSource(tools, natures, ext)
  {
    for index := 0 to |tools|
      invariant FirstSome(tools, SourceToolAnswer(natures, ext)) == FirstSome(tools[index..], SourceToolAnswer(natures, ext))
    {
      var tool := tools[index];
      if ext in tool.inputExtensions && Applies(tool.filter, natures) {
        return Some(tool.command);
      }
    }
    return None;
  }

  method ScanToolForTarget(tools: seq<Tool>, natures: Natures, ext: string) returns (command: Option<string>)
    ensures command == ToolForTarget(tools, natures, ext)
  {
    for index := 0 to |tools|
      invariant FirstSome(tools, TargetToolAnswer(natures, ext)) == FirstSome(tools[index..], TargetToolAnswer(natures, ext))
    {
      var tool := tools[index];
      if ext in tool.outputExtensions && Applies(tool.filter, natures) {
        return Some(tool.command);
      }
    }
    return None;
  }

  method ScanOutputFlag(tools: seq<Tool>, natures: Natures, ext: string) returns (flag: string)
    ensures flag == OutputFlag(tools, natures, ext)
  {
    flag := "";
    for index := 0 to |tools|
      invariant flag == LastSome(tools[..index], OutputFlagAnswer(natures, ext)).GetOr("")
    {
      var tool := tools[index];
      assert tools[..index + 1][..index] == tools[..index];
      if !Admits(tool.filter, natures) {
        continue;
      }
      if ext in tool.outputExtensions {
        flag := tool.outputFlag;
      }
    }
    assert tools[..|tools|] == tools;
  }

  method ScanOutputPrefix(tools: seq<Tool>, natures: Natures, ext: string) returns (prefix: string)
    ensures prefix == OutputPrefix(tools, natures, ext)
  {
    prefix := "";
    for index := 0 to |tools|
      invariant prefix == LastSome(tools[..index], OutputPrefixAnswer(natures, ext)).GetOr("")
    {
      var tool := tools[index];
      assert tools[..index + 1][..index] == tools[..index];
      if !Admits(tool.filter, natures) {
        continue;
      }
      if ext in tool.outputExtensions {
        prefix := tool.outputPrefix;
      }
    }
    assert tools[..|tools|] == tools;
  }

  // ---- what the queries mean ----

  /** Tool `i` is the first tool of the configuration that is right for the project. */
  ghost predicate FirstApplicable(tools: seq<Tool>, natures: Natures, i: nat)
  {
    i < |tools| && Applies(tools[i].filter, natures) &&
    forall j :: 0 <= j < i ==> !Applies(tools[j].filter, natures)
  }

  /** `buildsFileType`, `isHeaderFile` and `getOutputExtension` take the answer
      of the first tool right for the project, even a negative one: a later
      tool that would build the extension is never consulted. */
  lemma FirstApplicableDecides(tools: seq<Tool>, natures: Natures, ext: string, i: nat)
    requires FirstApplicable(tools, natures, i)
    ensures BuildsFileType(tools, natures, ext) == (ext in tools[i].inputExtensions)
    ensures IsHeaderFile(tools, natures, ext) == (ext in tools[i].headerExtensions)
    ensures OutputExtension(tools, natures, ext) == OutputExtensionOf(tools[i], ext)
  {
    FirstSomeAt(tools, BuildsAnswer(natures, ext), i);
    FirstSomeAt(tools, HeaderAnswer(natures, ext), i);
    FirstSomeAt(tools, OutputExtensionAnswer(natures, ext), i);
  }

  /** With no tool right for the project, those three queries give false and `null`. */
  lemma NoApplicableTool(tools: seq<Tool>, natures: Natures, ext: string)
    requires forall j :: 0 <= j < |tools| ==> !Applies(tools[j].filter, natures)
    ensures !BuildsFileType(tools, natures, ext) && !IsHeaderFile(tools, natures, ext)
    ensures OutputExtension(tools, natures, ext).None?
  {
    FirstSomeNone(tools, BuildsAnswer(natures, ext));
    FirstSomeNone(tools, HeaderAnswer(natures, ext));
    FirstSomeNone(tools, OutputExtensionAnswer(natures, ext));
  }

  /** No configuration builds an extension that none of its tools takes as
      input, whatever the nature filters say. */
  lemma {:induction false} NoConsumerNoBuild(tools: seq<Tool>, natures: Natures, ext: string)
    requires forall j :: 0 <= j < |tools| ==> ext !in tools[j].inputExtensions
    ensures !BuildsFileType(tools, natures, ext)
    ensures FlagsForSource(tools, natures, ext).None? && ToolForSource(tools, natures, ext).None?
  {
    if tools != [] {
      NoConsumerNoBuild(tools[1..], natures, ext);
    }
  }

  /** `getFlagsForSource` answers with the flags of the first tool that builds
      the extension, is right for the project and can compute its flags; it is
      `null` exactly when there is no such tool. */
  lemma FlagsForSourceFirstMatch(tools: seq<Tool>, natures: Natures, ext: string)
    ensures FlagsForSource(tools, natures, ext).None? <==>
            forall j :: 0 <= j < |tools| ==>
              !(ext in tools[j].inputExtensions && Applies(tools[j].filter, natures) && tools[j].flags.Some?)
    ensures FlagsForSource(tools, natures, ext).Some? ==>
            exists i :: 0 <= i < |tools| && ext in tools[i].inputExtensions && Applies(tools[i].filter, natures) &&
              tools[i].flags == FlagsForSource(tools, natures, ext) &&
              forall j :: 0 <= j < i ==>
                !(ext in tools[j].inputExtensions && Applies(tools[j].filter, natures) && tools[j].flags.Some?)
  {
    var pick := SourceFlagsAnswer(natures, ext);
    FirstSomeNone(tools, pick);
    if FirstSome(tools, pick).Some? {
      var i := FirstSomeWitness(tools, pick);
    }
  }

  /** `getToolForTarget` answers with the command of the first tool that
      produces the extension and is right for the project; `null` exactly when
      there is none. */
  lemma ToolForTargetFirstMatch(tools: seq<Tool>, natures: Natures, ext: string)
    ensures ToolForTarget(tools, natures, ext).None? <==>
            forall j :: 0 <= j < |tools| ==> !(ext in tools[j].outputExtensions && Applies(tools[j].filter, natures))
    ensures ToolForTarget(tools, natures, ext).Some? ==>
            exists i :: 0 <= i < |tools| && ext in tools[i].outputExtensions && Applies(tools[i].filter, natures) &&
              ToolForTarget(tools, natures, ext) == Some(tools[i].command) &&
              forall j :: 0 <= j < i ==> !(ext in tools[j].outputExtensions && Applies(tools[j].filter, natures))
  {
    var pick := TargetToolAnswer(natures, ext);
    FirstSomeNone(tools, pick);
    if FirstSome(tools, pick).Some? {
      var i := FirstSomeWitness(tools, pick);
    }
  }

  /** `getFlagsForTarget` answers with the flags of the first tool that
      produces the extension, is right for the project and can compute its
      flags; it is `null` exactly when there is no such tool. */
  lemma FlagsForTargetFirstMatch(tools: seq<Tool>, natures: Natures, ext: string)
    ensures FlagsForTarget(tools, natures, ext).None? <==>
            forall j :: 0 <= j < |tools| ==>
              !(ext in tools[j].outputExtensions && Applies(tools[j].filter, natures) && tools[j].flags.Some?)
    ensures FlagsForTarget(tools, natures, ext).Some? ==>
            exists i :: 0 <= i < |tools| && ext in tools[i].outputExtensions && Applies(tools[i].filter, natures) &&
              tools[i].flags == FlagsForTarget(tools, natures, ext) &&
              forall j :: 0 <= j < i ==>
                !(ext in tools[j].outputExtensions && Applies(tools[j].filter, natures) && tools[j].flags.Some?)
  {
    var pick := TargetFlagsAnswer(natures, ext);
    FirstSomeNone(tools, pick);
    if FirstSome(tools, pick).Some? {
      var i := FirstSomeWitness(tools, pick);
    }
  }

  /** `getToolForSource` answers with the command of the first tool that
      builds the extension and is right for the project; `null` exactly when
      there is none. */
  lemma ToolForSourceFirstMatch(tools: seq<Tool>, natures: Natures, ext: string)
    ensures ToolForSource(tools, natures, ext).None? <==>
            forall j :: 0 <= j < |tools| ==> !(ext in tools[j].inputExtensions && Applies(tools[j].filter, natures))
    ensures ToolForSource(tools, natures, ext).Some? ==>
            exists i :: 0 <= i < |tools| && ext in tools[i].inputExtensions && Applies(tools[i].filter, natures) &&
              ToolForSource(tools, natures, ext) == Some(tools[i].command) &&
              forall j :: 0 <= j < i ==> !(ext in tools[j].inputExtensions && Applies(tools[j].filter, natures))
  {
    var pick := SourceToolAnswer(natures, ext);
    FirstSomeNone(tools, pick);
    if FirstSome(tools, pick).Some? {
      var i := FirstSomeWitness(tools, pick);
    }
  }

  /** `getOutputFlag` keeps the flag of the last tool that is right for the
      project and produces the extension, and is "" when there is none. */
  lemma OutputFlagLastMatch(tools: seq<Tool>, natures: Natures, ext: string, i: nat)
    requires i < |tools| && Admits(tools[i].filter, natures) && ext in tools[i].outputExtensions
    requires forall j :: i < j < |tools| ==> !(Admits(tools[j].filter, natures) && ext in tools[j].outputExtensions)
    ensures OutputFlag(tools, natures, ext) == tools[i].outputFlag
    ensures OutputPrefix(tools, natures, ext) == tools[i].outputPrefix
  {
    LastSomeAt(tools, OutputFlagAnswer(natures, ext), i);
    LastSomeAt(tools, OutputPrefixAnswer(natures, ext), i);
  }

  /** With no tool right for the project that produces the extension, the
      output flag and prefix are both "". */
  lemma OutputFlagNoMatch(tools: seq<Tool>, natures: Natures, ext: string)
    requires forall j :: 0 <= j < |tools| ==> !(Admits(tools[j].filter, natures) && ext in tools[j].outputExtensions)
    ensures OutputFlag(tools, natures, ext) == "" && OutputPrefix(tools, natures, ext) == ""
  {
    LastSomeNone(tools, OutputFlagAnswer(natures, ext));
    LastSomeNone(tools, OutputPrefixAnswer(natures, ext));
  }

  /** A tool with an unknown nature filter is passed over by the queries that
      answer from inside the filter switch, but its output flag and prefix are
      still taken, whatever the project's natures. */
  lemma UnknownFilterTool(t: Tool, natures: Natures, ext: string)
    requires t.filter == FilterOther
    ensures !BuildsFileType([t], natures, ext) && !IsHeaderFile([t], natures, ext)
    ensures OutputExtension([t], natures, ext).None?
    ensures FlagsForSource([t], natures, ext).None? && FlagsForTarget([t], natures, ext).None?
    ensures ToolForSource([t], natures, ext).None? && ToolForTarget([t], natures, ext).None?
    ensures ext in t.outputExtensions ==>
              OutputFlag([t], natures, ext) == t.outputFlag && OutputPrefix([t], natures, ext) == t.outputPrefix
  {
    assert [t][..0] == [];
    FirstSomeNone([t], BuildsAnswer(natures, ext));
    FirstSomeNone([t], HeaderAnswer(natures, ext));
    FirstSomeNone([t], OutputExtensionAnswer(natures, ext));
    FirstSomeNone([t], SourceFlagsAnswer(natures, ext));
    FirstSomeNone([t], TargetFlagsAnswer(natures, ext));
    FirstSomeNone([t], SourceToolAnswer(natures, ext));
    FirstSomeNone([t], TargetToolAnswer(natures, ext));
  }
}
