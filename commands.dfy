/** Splitting a target's make command into the command proper and its first
    flag, as `getMakeCommand` and `getMakeArguments` do. */
module CommandLine {
  import opened Strings

  /** `getMakeCommand`: the trimmed text before the first '-', or the whole
      trimmed command when it has no '-'. */
  function MakeCommandOf(command: string): (r: string)
    ensures '-' !in r
    ensures '-' !in command ==> r == Trim(command)
    ensures exists p :: 0 <= p <= |command| && '-' !in command[..p] &&
                        (p == |command| || command[p] == '-') && r == Trim(command[..p])
  {
    var dash := IndexOf(command, '-');
    var p := if dash == -1 then |command| else dash;
    assert command[..|command|] == command;
    TrimKeeps(command[..p]);
    Trim(command[..p])
  }

  /** Where `argsAndTargs.indexOf(' ')` ends the flag that starts at `dash`:
      at the first space after it, or at the end of the command. */
  function FlagEnd(command: string, dash: nat): (q: nat)
    requires dash < |command| && command[dash] == '-'
    ensures dash < q <= |command|
    ensures ' ' !in command[dash..q]
    ensures q == |command| || command[q] == ' '
  {
    var rest := command[dash..];
    var space := IndexOf(rest, ' ');
    if space == -1 then
      assert command[dash..|command|] == rest;
      |command|
    else
      assert command[dash..dash + space] == rest[..space];
      dash + space
  }

  /** Trimming a flag word leaves a flag word, or nothing. */
  lemma FlagWordTrimmed(word: string)
    requires |word| > 0 && word[0] == '-' && ' ' !in word
    ensures Trim(word) == [] || (Trim(word)[0] == '-' && ' ' !in Trim(word))
  {
    assert TrimStart(word) == word;
    TrimKeeps(word);
  }

  /** `getMakeArguments`: the trimmed word that starts at the first '-' and
      runs up to the next space, or "" when the command has no '-'; it is
      empty or a single flag word. */
  function MakeArgumentsOf(command: string): (r: string)
    ensures '-' !in command ==> r == ""
    ensures r == [] || (r[0] == '-' && ' ' !in r)
  {
    var dash := IndexOf(command, '-');
    if dash == -1 then ""
    else
      var q := FlagEnd(command, dash);
      FlagWordTrimmed(command[dash..q]);
      Trim(command[dash..q])
  }

  /** With a '-' in the command, the arguments are the trimmed text from the
      first '-' up to the next space or the end. */
  lemma MakeArgumentsWord(command: string)
    requires '-' in command
    ensures exists p, q :: 0 <= p < q <= |command| && command[p] == '-' && '-' !in command[..p] &&
                           ' ' !in command[p..q] && (q == |command| || command[q] == ' ') &&
                           MakeArgumentsOf(command) == Trim(command[p..q])
  {
    var p := IndexOf(command, '-');
    var q := FlagEnd(command, p);
    assert MakeArgumentsOf(command) == Trim(command[p..q]);
  }

  /** The command part is fixed by the position of the first '-'. */
  lemma CommandAtFirstDash(command: string, p: nat)
    requires p < |command| && command[p] == '-' && '-' !in command[..p]
    ensures MakeCommandOf(command) == Trim(command[..p])
  {
    IndexOfFirst(command, '-', p);
  }

  /** The flag that starts at `dash` ends at the first space after it. */
  lemma FlagEndFirst(command: string, dash: nat, q: nat)
    requires dash < q <= |command| && command[dash] == '-'
    requires ' ' !in command[dash..q] && (q == |command| || command[q] == ' ')
    ensures FlagEnd(command, dash) == q
  {

  }

  /** The arguments are fixed by the first '-' and the first space after it. */
  lemma ArgumentsAtFirstFlag(command: string, p: nat, q: nat)
    requires p < q <= |command| && command[p] == '-' && '-' !in command[..p]
    requires ' ' !in command[p..q] && (q == |command| || command[q] == ' ')
    ensures MakeArgumentsOf(command) == Trim(command[p..q])
  {
    IndexOfFirst(command, '-', p);
    FlagEndFirst(command, p, q);
  }

  /** The trimmed pieces of "make -j4 all". */
  lemma TrimPieces()
    ensures Trim("make ") == "make"
    ensures Trim("-j4") == "-j4"
  {
    assert TrimStart("make ") == "make ";
    assert "make "[..4] == "make";
    assert TrimEnd("make ") == TrimEnd("make") == "make";
    assert TrimStart("-j4") == "-j4" && TrimEnd("-j4") == "-j4";
  }

  /** Example: the command of "make -j4 all" is "make". */
  lemma MakeCommandExample()
    ensures MakeCommandOf("make -j4 all") == "make"
  {
    var s := "make -j4 all";
    assert s[5] == '-' && s[..5] == "make ";
    CommandAtFirstDash(s, 5);
    TrimPieces();
  }

  /** Example: the arguments of "make -j4 all" are "-j4". */
  lemma MakeArgumentsExample()
    ensures MakeArgumentsOf("make -j4 all") == "-j4"
  {
    var s := "make -j4 all";
    assert s[5] == '-' && s[..5] == "make ";
    assert s[5..8] == "-j4" && s[8] == ' ';
    ArgumentsAtFirstFlag(s, 5, 8);
    TrimPieces();
  }

  /** Only the first flag is reported: "make -j4 -k all" has the arguments "-j4". */
  lemma OnlyFirstFlagIsArguments()
    ensures MakeArgumentsOf("make -j4 -k all") == "-j4"
  {
    var s := "make -j4 -k all";
    assert s[5] == '-' && s[..5] == "make ";
    assert s[5..8] == "-j4" && s[8] == ' ';
    ArgumentsAtFirstFlag(s, 5, 8);
    TrimPieces();
  }
}
