/** The queries that read all tools of the active configuration that are
    right for the project, and gather from their options: the preprocessor
    symbols, the include paths, and the libraries and user objects for an
    output extension. */
module Aggregates {
  import opened Seqs
  import opened Strings
  import opened BuildModel

  // ---- preprocessor symbols ----

  /** Splits a `KEY=VALUE` symbol at its first '=' into a trimmed key and a
      trimmed value; a symbol without '=' is a trimmed key with the value "". */
  function SplitSymbol(symbol: string): (r: (string, string))
    ensures '=' !in r.0
    ensures '=' !in symbol ==> r == (Trim(symbol), "")
    ensures '=' in symbol ==>
              exists p :: 0 <= p < |symbol| && symbol[p] == '=' && '=' !in symbol[..p] &&
                          r == (Trim(symbol[..p]), Trim(symbol[p + 1..]))
  {
    var index := IndexOf(symbol, '=');
    if index != -1 then
      TrimKeeps(symbol[..index]);
      (Trim(symbol[..index]), Trim(symbol[index + 1..]))
    else
      TrimKeeps(symbol);
      (Trim(symbol), "")
  }

  /** Records one symbol in the table; the empty symbol is skipped and a
      repeated key takes the new value. */
  function Define(table: map<string, string>, symbol: string): map<string, string>
  {
    if symbol == "" then table else table[SplitSymbol(symbol).0 := SplitSymbol(symbol).1]
  }

  /** Records the symbols in order. */
  function Collect(table: map<string, string>, symbols: seq<string>): map<string, string>
  {
    if symbols == [] then table
    else Define(Collect(table, symbols[..|symbols| - 1]), symbols[|symbols| - 1])
  }

  /** The symbols one option contributes: built-ins first, then the user's. */
  function OptionSymbols(option: ToolOption): seq<string>
  {
    if option.kind == PreprocessorSymbols then option.builtIns + option.userValues else []
  }

  /** The symbols one tool contributes, if it is right for the project. */
  function ToolSymbols(natures: Natures): Tool -> seq<string>
  {
    (t: Tool) => if Admits(t.filter, natures) then Flatten(t.options, OptionSymbols) else []
  }

  /** Every symbol the configuration's tools define, in tool and option order. */
  function RawSymbols(tools: seq<Tool>, natures: Natures): seq<string>
  {
    Flatten(tools, ToolSymbols(natures))
  }

  /** `getDefinedSymbols`. */
  function DefinedSymbols(tools: seq<Tool>, natures: Natures): map<string, string>
  {
    Collect(map[], RawSymbols(tools, natures))
  }

  lemma CollectSnoc(table: map<string, string>, symbols: seq<string>, symbol: string)
    ensures Collect(table, symbols + [symbol]) == Define(Collect(table, symbols), symbol)
  {
    assert (symbols + [symbol])[..|symbols|] == symbols;
  }

  /** Selects the value a symbol gives `key`. */
  function DefinitionOf(key: string): string -> Option<string>
  {
    (s: string) => if s != "" && SplitSymbol(s).0 == key then Some(SplitSymbol(s).1) else None
  }

  /** Last write wins: a key is defined exactly when some non-empty symbol has
      it as its key, and its value is the one the last such symbol gives. */
  lemma {:induction false} CollectLastWins(symbols: seq<string>, key: string)
    ensures (if key in Collect(map[], symbols) then Some(Collect(map[], symbols)[key]) else None) ==
            LastSome(symbols, DefinitionOf(key))
  {
    if symbols != [] {
      CollectLastWins(symbols[..|symbols| - 1], key);
    }
  }

  /** A symbol whose key has no '=' splits at the '=' after the key. */
  lemma SplitKeyValue(key: string, value: string)
    requires '=' !in key
    ensures SplitSymbol(key + "=" + value) == (Trim(key), Trim(value))
  {
    var s := key + "=" + value;
    assert s[|key|] == '=' && s[..|key|] == key && s[|key| + 1..] == value;
  }

  /** A sequence of one element contributes that element's contribution. */
  lemma FlattenSingle<E, U>(x: E, f: E -> seq<U>)
    ensures Flatten([x], f) == f(x)
  {
    FlattenSnoc([], x, f);
    assert [] + [x] == [x];
  }

  /** A tool with an unknown nature filter contributes its symbols, include
      paths, libraries and user objects whatever the project's natures. */
  lemma UnknownFilterContributes(t: Tool, natures: Natures, root: string, ext: string)
    requires t.filter == FilterOther
    ensures RawSymbols([t], natures) == Flatten(t.options, OptionSymbols)
    ensures IncludePaths([t], natures, root) == Flatten(t.options, OptionIncludePaths(root))
    ensures ext in t.outputExtensions ==> LibsForTarget([t], natures, ext) == Flatten(t.options, LibEntries)
    ensures ext in t.outputExtensions ==> UserObjectsForTarget([t], natures, ext) == Flatten(t.options, ObjectEntries)
  {
    FlattenSingle(t, ToolSymbols(natures));
    FlattenSingle(t, ToolIncludePaths(natures, root));
    FlattenSingle(t, ToolLibs(natures, ext));
    FlattenSingle(t, ToolObjects(natures, ext));
  }

  /** Two tools that each have one option define that option's symbols in order. */
  lemma TwoToolSymbols(ta: Tool, tb: Tool, natures: Natures)
    requires ta.filter == FilterBoth && |ta.options| == 1
    requires tb.filter == FilterBoth && |tb.options| == 1
    ensures RawSymbols([ta, tb], natures) == OptionSymbols(ta.options[0]) + OptionSymbols(tb.options[0])
  {
    assert ta.options == [ta.options[0]] && tb.options == [tb.options[0]];
    FlattenSingle(ta.options[0], OptionSymbols);
    FlattenSingle(tb.options[0], OptionSymbols);
    FlattenSingle(ta, ToolSymbols(natures));
    FlattenSnoc([ta], tb, ToolSymbols(natures));
    assert [ta] + [tb] == [ta, tb];
  }

  /** Of two definitions of the same key, the later one is kept. */
  lemma RedefinedSymbol(key: string, first: string, second: string)
    requires '=' !in key
    ensures Collect(map[], [key + "=" + first, key + "=" + second]) == map[Trim(key) := Trim(second)]
  {
    var s1, s2 := key + "=" + first, key + "=" + second;
    CollectSnoc(map[], [], s1);
    CollectSnoc(map[], [s1], s2);
    assert [] + [s1] == [s1] && [s1] + [s2] == [s1, s2];
    SplitKeyValue(key, first);
    SplitKeyValue(key, second);
    assert s1[|key|] == '=' && s2[|key|] == '=';
    var m1 := Define(map[], s1);
    assert m1 == map[Trim(key) := Trim(first)];
    assert Collect(map[], [s1]) == m1;
    assert Define(m1, s2) == m1[Trim(key) := Trim(second)];
    assert Collect(map[], [s1, s2]) == Define(m1, s2);
    Overwrite(Trim(key), Trim(first), Trim(second));
  }

  lemma Overwrite<K, V>(k: K, v1: V, v2: V)
    ensures map[k := v1][k := v2] == map[k := v2]
  {
    assert map[k := v1][k := v2].Keys == {k};
  }

  /** For any key: a built-in `KEY=first` of one tool then
      a user `KEY=second` of a later one leaves KEY defined as `second`. */
  lemma LaterToolOverrides(ta: Tool, tb: Tool, natures: Natures, key: string, first: string, second: string)
    requires '=' !in key
    requires ta.filter == FilterBoth && ta.options == [ToolOption(PreprocessorSymbols, [key + "=" + first], [], "")]
    requires tb.filter == FilterBoth && tb.options == [ToolOption(PreprocessorSymbols, [], [key + "=" + second], "")]
    ensures DefinedSymbols([ta, tb], natures) == map[Trim(key) := Trim(second)]
  {
    TwoToolSymbols(ta, tb, natures);
    assert RawSymbols([ta, tb], natures) == [key + "=" + first, key + "=" + second];
    RedefinedSymbol(key, first, second);
  }

  /** Records a list of symbols one after the other, as the innermost loop of
      `getDefinedSymbols` does. */
  method DefineAll(table: map<string, string>, symbolList: seq<string>) returns (symbols: map<string, string>)
    ensures symbols == Collect(table, symbolList)
  {
    symbols := table;
    for k := 0 to |symbolList|
      invariant symbols == Collect(table, symbolList[..k])
    {
      var symbol := symbolList[k];
      TakeOneMore(symbolList, k);
      CollectSnoc(table, symbolList[..k], symbol);
      if |symbol| == 0 {
        continue;
      }
      var (key, value) := SplitSymbol(symbol);
      symbols := symbols[key := value];
    }
    assert symbolList[..|symbolList|] == symbolList;
  }

  /** Records the symbols of every preprocessor-symbols option of one tool. */
  method DefineToolSymbols(table: map<string, string>, opts: seq<ToolOption>) returns (symbols: map<string, string>)
    ensures symbols == Collect(table, Flatten(opts, OptionSymbols))
  {
    symbols := table;
    for j := 0 to |opts|
      invariant symbols == Collect(table, Flatten(opts[..j], OptionSymbols))
    {
      var option := opts[j];
      TakeOneMore(opts, j);
      FlattenSnoc(opts[..j], option, OptionSymbols);
      CollectAppend(table, Flatten(opts[..j], OptionSymbols), OptionSymbols(option));
      if option.kind == PreprocessorSymbols {
        symbols := DefineAll(symbols, option.builtIns + option.userValues);
      }
    }
    assert opts[..|opts|] == opts;
  }

  /** `getDefinedSymbols` scans the symbols once, in tool/option/entry order. */
  method ScanDefinedSymbols(tools: seq<Tool>, natures: Natures) returns (symbols: map<string, string>)
    ensures symbols == DefinedSymbols(tools, natures)
  {
    symbols := map[];
    for i := 0 to |tools|
      invariant symbols == DefinedSymbols(tools[..i], natures)
    {
      var tool := tools[i];
      TakeOneMore(tools, i);
      FlattenSnoc(tools[..i], tool, ToolSymbols(natures));
      CollectAppend(map[], RawSymbols(tools[..i], natures), ToolSymbols(natures)(tool));
      if !Admits(tool.filter, natures) {
        continue;
      }
      symbols := DefineToolSymbols(symbols, tool.options);
    }
    assert tools[..|tools|] == tools;
  }

  // ---- include paths ----

  /** The user include paths of an option, each resolved against `root`. */
  function ResolvedPaths(root: string, paths: seq<string>): (r: seq<string>)
    ensures |r| == |paths|
    ensures forall k :: 0 <= k < |paths| ==> r[k] == ResolveUserPath(root, paths[k])
  {
    seq(|paths|, k requires 0 <= k < |paths| => ResolveUserPath(root, paths[k]))
  }

  /** The include paths one option contributes: built-ins verbatim, then the
      user's resolved. */
  function OptionIncludePaths(root: string): ToolOption -> seq<string>
  {
    (o: ToolOption) => if o.kind == IncludePath then o.builtIns + ResolvedPaths(root, o.userValues) else []
  }

  function ToolIncludePaths(natures: Natures, root: string): Tool -> seq<string>
  {
    (t: Tool) => if Admits(t.filter, natures) then Flatten(t.options, OptionIncludePaths(root)) else []
  }

  /** `getIncludePaths`, with `root` the project location joined with the
      configuration name. */
  function IncludePaths(tools: seq<Tool>, natures: Natures, root: string): seq<string>
  {
    Flatten(tools, ToolIncludePaths(natures, root))
  }

  /** Example: under the project "/proj" and the configuration
      "Debug", the user path "inc" is "/proj/Debug/inc" and "/usr/include" is
      kept. */
  lemma IncludePathExample()
    ensures ResolveUserPath(IncludeRoot("/proj", "Debug"), "inc") == "/proj/Debug/inc"
    ensures ResolveUserPath(IncludeRoot("/proj", "Debug"), "/usr/include") == "/usr/include"
  {
    assert IncludeRoot("/proj", "Debug") == "/proj/Debug";
    assert AddTrailingSeparator("/proj/Debug") == "/proj/Debug/";
  }

  /** Every listed path is a built-in path of an include-path option of a
      tool the scan keeps, or a user path of such an option, resolved. */
  lemma IncludePathOrigin(tools: seq<Tool>, natures: Natures, root: string, path: string)
    requires path in IncludePaths(tools, natures, root)
    ensures exists i, j :: 0 <= i < |tools| && Admits(tools[i].filter, natures) &&
              0 <= j < |tools[i].options| && tools[i].options[j].kind == IncludePath &&
              (path in tools[i].options[j].builtIns ||
               exists k :: 0 <= k < |tools[i].options[j].userValues| &&
                           path == ResolveUserPath(root, tools[i].options[j].userValues[k]))
  {
    FlattenMember(tools, ToolIncludePaths(natures, root), path);
    var i :| 0 <= i < |tools| && path in ToolIncludePaths(natures, root)(tools[i]);
    FlattenMember(tools[i].options, OptionIncludePaths(root), path);
    var j :| 0 <= j < |tools[i].options| && path in OptionIncludePaths(root)(tools[i].options[j]);
    var o := tools[i].options[j];
    if path !in o.builtIns {
      var k :| 0 <= k < |o.userValues| && ResolvedPaths(root, o.userValues)[k] == path;
    }
  }

  /** Every built-in path of an include-path option of a tool the scan keeps,
      and every user path of such an option, resolved, is listed. */
  lemma IncludePathListed(tools: seq<Tool>, natures: Natures, root: string, i: nat, j: nat, path: string)
    requires i < |tools| && Admits(tools[i].filter, natures)
    requires j < |tools[i].options| && tools[i].options[j].kind == IncludePath
    requires path in tools[i].options[j].builtIns ||
             exists k :: 0 <= k < |tools[i].options[j].userValues| &&
                         path == ResolveUserPath(root, tools[i].options[j].userValues[k])
    ensures path in IncludePaths(tools, natures, root)
  {
    var o := tools[i].options[j];
    if path !in o.builtIns {
      var k :| 0 <= k < |o.userValues| && path == ResolveUserPath(root, o.userValues[k]);
      assert ResolvedPaths(root, o.userValues)[k] == path;
    }
    assert path in OptionIncludePaths(root)(o);
    FlattenMember(tools[i].options, OptionIncludePaths(root), path);
    FlattenMember(tools, ToolIncludePaths(natures, root), path);
  }

  /** The user paths of one option, resolved in order. */
  method ResolveAll(root: string, userPaths: seq<string>) returns (paths: seq<string>)
    ensures paths == ResolvedPaths(root, userPaths)
  {
    paths := [];
    for k := 0 to |userPaths|
      invariant paths == ResolvedPaths(root, userPaths[..k])
    {
      assert ResolvedPaths(root, userPaths[..k + 1]) ==
             ResolvedPaths(root, userPaths[..k]) + [ResolveUserPath(root, userPaths[k])];
      if IsAbsolute(userPaths[k]) {
        paths := paths + [userPaths[k]];
      } else {
        paths := paths + [MakeAbsolute(AddTrailingSeparator(root) + userPaths[k])];
      }
    }
    assert userPaths[..|userPaths|] == userPaths;
  }

  /** The include paths of every include-path option of one tool. */
  method ToolPaths(opts: seq<ToolOption>, root: string) returns (paths: seq<string>)
    ensures paths == Flatten(opts, OptionIncludePaths(root))
  {
    paths := [];
    for j := 0 to |opts|
      invariant paths == Flatten(opts[..j], OptionIncludePaths(root))
    {
      var option := opts[j];
      TakeOneMore(opts, j);
      FlattenSnoc(opts[..j], option, OptionIncludePaths(root));
      if option.kind == IncludePath {
        var resolved := ResolveAll(root, option.userValues);
        paths := paths + option.builtIns + resolved;
      }
    }
    assert opts[..|opts|] == opts;
  }

  /** `getIncludePaths` appends the paths in tool/option/entry order. */
  method ScanIncludePaths(tools: seq<Tool>, natures: Natures, root: string) returns (paths: seq<string>)
    ensures paths == IncludePaths(tools, natures, root)
  {
    paths := [];
    for i := 0 to |tools|
      invariant paths == IncludePaths(tools[..i], natures, root)
    {
      var tool := tools[i];
      TakeOneMore(tools, i);
      FlattenSnoc(tools[..i], tool, ToolIncludePaths(natures, root));
      if !Admits(tool.filter, natures) {
        continue;
      }
      var toolPaths := ToolPaths(tool.options, root);
      paths := paths + toolPaths;
    }
    assert tools[..|tools|] == tools;
  }

  // ---- libraries and user objects for an output extension ----

  /** The libraries of an option, each after the option's command prefix. */
  function LibEntries(option: ToolOption): seq<string>
  {
    if option.kind == Libraries then Prefixed(option.command, option.userValues) else []
  }

  /** Each library after the command prefix. */
  function Prefixed(command: string, libs: seq<string>): (r: seq<string>)
    ensures |r| == |libs|
    ensures forall k :: 0 <= k < |libs| ==> r[k] == command + libs[k]
  {
    seq(|libs|, k requires 0 <= k < |libs| => command + libs[k])
  }

  /** The user objects of an objects option, verbatim. */
  function ObjectEntries(option: ToolOption): seq<string>
  {
    if option.kind == Objects then option.userValues else []
  }

  function ToolLibs(natures: Natures, ext: string): Tool -> seq<string>
  {
    (t: Tool) => if Admits(t.filter, natures) && ext in t.outputExtensions then Flatten(t.options, LibEntries) else []
  }

  function ToolObjects(natures: Natures, ext: string): Tool -> seq<string>
  {
    (t: Tool) => if Admits(t.filter, natures) && ext in t.outputExtensions then Flatten(t.options, ObjectEntries) else []
  }

  /** `getLibsForTarget`. */
  function LibsForTarget(tools: seq<Tool>, natures: Natures, ext: string): seq<string>
  {
    Flatten(tools, ToolLibs(natures, ext))
  }

  /** `getUserObjectsForTarget`. */
  function UserObjectsForTarget(tools: seq<Tool>, natures: Natures, ext: string): seq<string>
  {
    Flatten(tools, ToolObjects(natures, ext))
  }

  /** A library is listed exactly when some libraries option of a tool right for
      the project and producing the extension names it after its prefix. */
  lemma LibsForTargetMember(tools: seq<Tool>, natures: Natures, ext: string, lib: string)
    ensures lib in LibsForTarget(tools, natures, ext) <==>
            exists i, j, k :: 0 <= i < |tools| && Admits(tools[i].filter, natures) && ext in tools[i].outputExtensions &&
              0 <= j < |tools[i].options| && tools[i].options[j].kind == Libraries &&
              0 <= k < |tools[i].options[j].userValues| &&
              lib == tools[i].options[j].command + tools[i].options[j].userValues[k]
  {
    FlattenMember(tools, ToolLibs(natures, ext), lib);
    forall i | 0 <= i < |tools| {
      FlattenMember(tools[i].options, LibEntries, lib);
    }
    if lib in LibsForTarget(tools, natures, ext) {
      var i :| 0 <= i < |tools| && lib in ToolLibs(natures, ext)(tools[i]);
      var j :| 0 <= j < |tools[i].options| && lib in LibEntries(tools[i].options[j]);
      var k :| 0 <= k < |LibEntries(tools[i].options[j])| && LibEntries(tools[i].options[j])[k] == lib;
    }
  }

  /** A user object is listed exactly when some objects option of a tool right
      for the project and producing the extension holds it. */
  lemma UserObjectsMember(tools: seq<Tool>, natures: Natures, ext: string, obj: string)
    ensures obj in UserObjectsForTarget(tools, natures, ext) <==>
            exists i, j :: 0 <= i < |tools| && Admits(tools[i].filter, natures) && ext in tools[i].outputExtensions &&
              0 <= j < |tools[i].options| && tools[i].options[j].kind == Objects &&
              obj in tools[i].options[j].userValues
  {
    FlattenMember(tools, ToolObjects(natures, ext), obj);
    forall i | 0 <= i < |tools| {
      FlattenMember(tools[i].options, ObjectEntries, obj);
    }
  }

  /** The gathered lists follow tool order: the tools of `a` contribute before
      those of `b`, and symbols defined by `b` override those of `a`. */
  lemma AggregationsFollowToolOrder(a: seq<Tool>, b: seq<Tool>, natures: Natures, root: string, ext: string)
    ensures IncludePaths(a + b, natures, root) == IncludePaths(a, natures, root) + IncludePaths(b, natures, root)
    ensures LibsForTarget(a + b, natures, ext) == LibsForTarget(a, natures, ext) + LibsForTarget(b, natures, ext)
    ensures UserObjectsForTarget(a + b, natures, ext) ==
            UserObjectsForTarget(a, natures, ext) + UserObjectsForTarget(b, natures, ext)
    ensures DefinedSymbols(a + b, natures) == Collect(DefinedSymbols(a, natures), RawSymbols(b, natures))
  {
    FlattenAppend(a, b, ToolIncludePaths(natures, root));
    FlattenAppend(a, b, ToolLibs(natures, ext));
    FlattenAppend(a, b, ToolObjects(natures, ext));
    FlattenAppend(a, b, ToolSymbols(natures));
    CollectAppend(map[], RawSymbols(a, natures), RawSymbols(b, natures));
  }

  lemma {:induction false} CollectAppend(table: map<string, string>, s: seq<string>, t: seq<string>)
    ensures Collect(table, s + t) == Collect(Collect(table, s), t)
  {
    if t == [] {
      assert s + t == s;
    } else {
      var t' := t[..|t| - 1];
      assert s + t == (s + t') + [t[|t| - 1]];
      CollectAppend(table, s, t');
      CollectSnoc(table, s + t', t[|t| - 1]);
    }
  }

  /** The libraries of one option, each after the option's command prefix. */
  method PrefixAll(command: string, allLibs: seq<string>) returns (libs: seq<string>)
    ensures libs == Prefixed(command, allLibs)
  {
    libs := [];
    for j := 0 to |allLibs|
      invariant libs == Prefixed(command, allLibs[..j])
    {
      assert Prefixed(command, allLibs[..j + 1]) == Prefixed(command, allLibs[..j]) + [command + allLibs[j]];
      libs := libs + [command + allLibs[j]];
    }
    assert allLibs[..|allLibs|] == allLibs;
  }

  /** The libraries of every libraries option of one tool. */
  method ToolLibraries(opts: seq<ToolOption>) returns (libs: seq<string>)
    ensures libs == Flatten(opts, LibEntries)
  {
    libs := [];
    for i := 0 to |opts|
      invariant libs == Flatten(opts[..i], LibEntries)
    {
      var option := opts[i];
      TakeOneMore(opts, i);
      FlattenSnoc(opts[..i], option, LibEntries);
      if option.kind == Libraries {
        var prefixed := PrefixAll(option.command, option.userValues);
        libs := libs + prefixed;
      }
    }
    assert opts[..|opts|] == opts;
  }

  /** `getLibsForTarget` appends the prefixed libraries in tool/option/entry order. */
  method ScanLibsForTarget(tools: seq<Tool>, natures: Natures, ext: string) returns (libs: seq<string>)
    ensures libs == LibsForTarget(tools, natures, ext)
  {
    libs := [];
    for index := 0 to |tools|
      invariant libs == LibsForTarget(tools[..index], natures, ext)
    {
      var tool := tools[index];
      TakeOneMore(tools, index);
      FlattenSnoc(tools[..index], tool, ToolLibs(natures, ext));
      if !Admits(tool.filter, natures) {
        continue;
      }
      if ext in tool.outputExtensions {
        var toolLibs := ToolLibraries(tool.options);
        libs := libs + toolLibs;
      }
    }
    assert tools[..|tools|] == tools;
  }

  /** The user objects of every objects option of one tool. */
  method ToolUserObjects(opts: seq<ToolOption>) returns (objs: seq<string>)
    ensures objs == Flatten(opts, ObjectEntries)
  {
    objs := [];
    for i := 0 to |opts|
      invariant objs == Flatten(opts[..i], ObjectEntries)
    {
      var option := opts[i];
      TakeOneMore(opts, i);
      FlattenSnoc(opts[..i], option, ObjectEntries);
      if option.kind == Objects {
        objs := objs + option.userValues;
      }
    }
    assert opts[..|opts|] == opts;
  }

  /** `getUserObjectsForTarget` appends the user objects in tool/option order. */
  method ScanUserObjectsForTarget(tools: seq<Tool>, natures: Natures, ext: string) returns (objs: seq<string>)
    ensures objs == UserObjectsForTarget(tools, natures, ext)
  {
    objs := [];
    for index := 0 to |tools|
      invariant objs == UserObjectsForTarget(tools[..index], natures, ext)
    {
      var tool := tools[index];
      TakeOneMore(tools, index);
      FlattenSnoc(tools[..index], tool, ToolObjects(natures, ext));
      if !Admits(tool.filter, natures) {
        continue;
      }
      if ext in tool.outputExtensions {
        var toolObjs := ToolUserObjects(tool.options);
        objs := objs + toolObjs;
      }
    }
    assert tools[..|tools|] == tools;
  }
}
