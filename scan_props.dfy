/** What the argument scanner guarantees: bundled letters, exclusive edit
    modes, bounded command lists, `+` and `--` handling, option values and
    window options. */
module ScanProps {
  import opened CharUtil
  import opened MainTypes
  import opened NumberArgs
  import opened ScanSpec

  // ---------------------------------------------------------------------
  // Invariants kept by every pass of the loop

  /** At most MAX_ARG_CMDS commands of each kind, and files exactly when the
      edit type is "file list". */
  predicate ScanInv(s: Scanner)
  {
    && |s.parm.commands| <= MAX_ARG_CMDS
    && |s.parm.preCommands| <= MAX_ARG_CMDS
    && (s.parm.editType == EditFile <==> |s.files| > 0)
  }

  lemma ConsumeKeepsInv(c: char, tok: string, before: seq<string>, s: Scanner, fs: FileSystem)
    requires s.idx == -1 && (|s.rest| == 0 ==> c == 'S') && |before| == |s.rest| + 1
    requires ScanInv(s)
    ensures Consume(c, tok, before, s, fs).Next? ==>
      var t := Consume(c, tok, before, s, fs).s;
      ScanInv(t) && t.parm.editType == s.parm.editType && t.files == s.files
  {
  }

  lemma LetterKeepsInv(s: Scanner)
    requires Live(s) && CharAt(s.rest[0], 0) == '-' && (s.idx == 1 || s.idx < |s.rest[0]|)
    requires AllNoNul(s.rest) && ScanInv(s)
    ensures Letter(s).Go? ==> ScanInv(Letter(s).s)
    ensures Letter(s).Go? && s.parm.editType != EditNone ==> Letter(s).s.parm.editType == s.parm.editType
  {
  }

  /** One pass keeps the invariant, and never changes an edit type once chosen. */
  lemma StepKeepsInv(s: Scanner, fs: FileSystem)
    requires Live(s) && (s.idx == 1 || s.idx < |s.rest[0]|) && AllNoNul(s.rest)
    requires ScanInv(s)
    ensures Step(s, fs).Next? ==> ScanInv(Step(s, fs).s)
    ensures Step(s, fs).Next? && s.parm.editType != EditNone ==>
      Step(s, fs).s.parm.editType == s.parm.editType
  {
    var tok := s.rest[0];
    if CharAt(tok, 0) == '-' && !s.hadMinMin {
      LetterKeepsInv(s);
      match Letter(s)
      case Quit(_) =>
      case Go(s1, want) =>
        if want && CharAt(tok, s1.idx) == NUL && !(|s1.rest| - 1 < 1 && CharAt(tok, s.idx) != 'S') {
          ConsumeKeepsInv(CharAt(tok, s.idx), tok, s1.rest, s1.(rest := s1.rest[1..], idx := -1), fs);
        }
    }
  }

  /** What a successful scan delivers: bounded command lists, files exactly
      for the file-list edit type, and `v:swapcommand` set from the first command. */
  predicate GoodResult(o: Outcome)
  {
    o.Ok? ==>
      && |o.params.commands| <= MAX_ARG_CMDS
      && |o.params.preCommands| <= MAX_ARG_CMDS
      && (o.params.editType == EditFile <==> |o.files| > 0)
      && (|o.params.commands| > 0 ==> o.globals.swapCommand == Some(":" + o.params.commands[0] + "\r"))
  }

  /** A successful scan from state `s` delivers a good result, and keeps the
      edit type of `s` when one was already chosen. */
  lemma {:induction false} RunResult(s: Scanner, fs: FileSystem)
    requires Cursor(s) && ScanInv(s)
    ensures GoodResult(Run(s, fs))
    ensures Run(s, fs).Ok? && s.parm.editType != EditNone ==> Run(s, fs).params.editType == s.parm.editType
    decreases |s.rest|, Rem(s)
  {
    if |s.rest| == 0 {
      FinishGood(s);
    } else {
      StepKeepsInv(s, fs);
      match Step(s, fs)
      case Done(_) =>
      case Next(t) =>
        assert Run(s, fs) == Run(t, fs);
        RunResult(t, fs);
    }
  }

  lemma FinishGood(s: Scanner)
    requires ScanInv(s)
    ensures GoodResult(Finish(s)) && Finish(s).params == s.parm
  {
  }

  /** The edit modes are exclusive and the command lists never overflow:
      in a successful scan there are at most ten `+`/`-c`/`-S` commands and
      at most ten `--cmd` commands, file names were given exactly when the edit
      type is the file list, and `v:swapcommand` is `":" + commands[0] + "\r"`. */
  lemma ScanResult(args: seq<string>, g0: Globals, fs: FileSystem)
    requires AllNoNul(args)
    ensures Scan(args, g0, fs).Ok? ==>
      var o := Scan(args, g0, fs);
      && |o.params.commands| <= MAX_ARG_CMDS
      && |o.params.preCommands| <= MAX_ARG_CMDS
      && (o.params.editType == EditFile <==> |o.files| > 0)
      && (|o.params.commands| > 0 ==> o.globals.swapCommand == Some(":" + o.params.commands[0] + "\r"))
  {
    RunResult(Start(args, g0), fs);
  }

  // ---------------------------------------------------------------------
  // Bundled option letters

  predicate FlagsOnly(letters: string)
  {
    forall i :: 0 <= i < |letters| ==> IsFlagLetter(letters[i])
  }

  /** The effect of a run of flag letters, applied left to right. */
  function ApplyFlags(letters: string, p: Params, g: Globals): (Params, Globals)
    requires FlagsOnly(letters)
  {
    if letters == [] then (p, g)
    else
      var pg := FlagLetter(letters[0], p, g);
      ApplyFlags(letters[1..], pg.value.0, pg.value.1)
  }

  lemma FlagLetterGoes(c: char, tok: string, s: Scanner)
    requires IsFlagLetter(c) && 1 <= s.idx <= |tok|
    ensures !IsNumericLetter(c) && FlagLetter(c, s.parm, s.g).Some?
    ensures TableLetter(c, tok, s) == Go(s.(parm := FlagLetter(c, s.parm, s.g).value.0, g := FlagLetter(c, s.parm, s.g).value.1), false)
  {
    assert c != NUL && c != '-' && c != 'q' && c != 't';
    assert c != 'g' && c != 'h' && c != 's' && c != 'c' && !IsValueLetter(c);
  }

  /** One flag letter of a bundle: the scanner moves to the next letter, or
      to the next argument after the last letter. */
  lemma FlagStep(s: Scanner, fs: FileSystem)
    requires Cursor(s) && |s.rest| > 0 && !s.hadMinMin
    requires CharAt(s.rest[0], 0) == '-' && 1 <= s.idx < |s.rest[0]|
    requires IsFlagLetter(s.rest[0][s.idx])
    ensures var pg := FlagLetter(s.rest[0][s.idx], s.parm, s.g).value;
      var s1 := s.(idx := s.idx + 1, parm := pg.0, g := pg.1);
      Step(s, fs) == Next(if s.idx + 1 == |s.rest[0]| then s1.(rest := s.rest[1..], idx := 1) else s1)
  {
    FlagOptionStep(s, fs);
    assert Step(s, fs) == OptionStep(s, fs);
  }

  lemma FlagOptionStep(s: Scanner, fs: FileSystem)
    requires Cursor(s) && |s.rest| > 0
    requires CharAt(s.rest[0], 0) == '-' && 1 <= s.idx < |s.rest[0]|
    requires IsFlagLetter(s.rest[0][s.idx])
    ensures var pg := FlagLetter(s.rest[0][s.idx], s.parm, s.g).value;
      var s1 := s.(idx := s.idx + 1, parm := pg.0, g := pg.1);
      OptionStep(s, fs) == Next(if s.idx + 1 == |s.rest[0]| then s1.(rest := s.rest[1..], idx := 1) else s1)
  {
    FlagLetterStep(s);
    assert CharAt(s.rest[0], s.idx + 1) == NUL <==> s.idx + 1 == |s.rest[0]| by {
      assert NoNul(s.rest[0]);
    }
  }

  lemma FlagLetterStep(s: Scanner)
    requires Cursor(s) && |s.rest| > 0
    requires CharAt(s.rest[0], 0) == '-' && 1 <= s.idx < |s.rest[0]|
    requires IsFlagLetter(s.rest[0][s.idx])
    ensures var pg := FlagLetter(s.rest[0][s.idx], s.parm, s.g).value;
      Letter(s) == Go(s.(idx := s.idx + 1, parm := pg.0, g := pg.1), false)
  {
    FlagLetterGoes(s.rest[0][s.idx], s.rest[0], s.(idx := s.idx + 1));
  }

  /** Every letter of a bundle such as `-nR` is processed: the scanner stays on
      the argument until its letters are used up, then goes to the next one. */
  lemma {:induction false} BundleAppliesEveryLetter(s: Scanner, fs: FileSystem)
    requires Cursor(s) && |s.rest| > 0 && !s.hadMinMin
    requires CharAt(s.rest[0], 0) == '-' && 1 <= s.idx < |s.rest[0]|
    requires FlagsOnly(s.rest[0][s.idx..])
    ensures var pg := ApplyFlags(s.rest[0][s.idx..], s.parm, s.g);
      Run(s, fs) == Run(s.(rest := s.rest[1..], idx := 1, parm := pg.0, g := pg.1), fs)
    decreases |s.rest[0]| - s.idx
  {
    var tok := s.rest[0];
    assert tok[s.idx] == tok[s.idx..][0];
    assert tok[s.idx..][1..] == tok[s.idx + 1..];
    FlagStep(s, fs);
    if s.idx + 1 < |tok| {
      var pg1 := FlagLetter(tok[s.idx], s.parm, s.g).value;
      BundleAppliesEveryLetter(s.(idx := s.idx + 1, parm := pg1.0, g := pg1.1), fs);
    }
  }

  // ---------------------------------------------------------------------
  // Edit modes

  /** A second `-` (outside Ex mode), `-q` or `-t` fails with "Too many edit
      arguments" once an edit type is chosen, wherever the letter stands in its argument. */
  lemma SecondEditModeFails(s: Scanner, fs: FileSystem)
    requires Cursor(s) && |s.rest| > 0 && !s.hadMinMin && CharAt(s.rest[0], 0) == '-'
    requires s.parm.editType != EditNone
    requires CharAt(s.rest[0], s.idx) == 'q' || CharAt(s.rest[0], s.idx) == 't' || (s.rest[0] == "-" && s.g.exmodeActive == ExOff)
    ensures Step(s, fs) == Done(Error(TooManyArgs, Some(s.rest[0])))
  {
  }

  /** A file name fails only when the edit type is already something other
      than none or the file list, so several file names are accepted and
      appended in order. */
  lemma FileArgument(s: Scanner, fs: FileSystem)
    requires Cursor(s) && |s.rest| > 0 && s.idx == 1
    requires s.hadMinMin || CharAt(s.rest[0], 0) !in "+-"
    ensures Step(s, fs).Done? <==> s.parm.editType !in {EditNone, EditFile}
    ensures Step(s, fs).Done? ==> Step(s, fs).o == Error(TooManyArgs, Some(s.rest[0]))
    ensures Step(s, fs).Next? ==>
      Step(s, fs).s == s.(rest := s.rest[1..], parm := s.parm.(editType := EditFile), files := s.files + [s.rest[0]])
  {
  }

  // ---------------------------------------------------------------------
  // "+" commands, "--" and long options

  /** A bare `+` records the command `$`, `+X` records `X`; an eleventh
      command is the "Too many ..." error, never a silent drop. */
  lemma PlusArgument(s: Scanner, fs: FileSystem)
    requires Cursor(s) && |s.rest| > 0 && s.idx == 1 && !s.hadMinMin && CharAt(s.rest[0], 0) == '+'
    ensures |s.parm.commands| >= MAX_ARG_CMDS ==> Step(s, fs) == Done(Error(ExtraCmd, None))
    ensures |s.parm.commands| < MAX_ARG_CMDS ==>
      Step(s, fs) == Next(s.(rest := s.rest[1..], parm := s.parm.(commands :=
        s.parm.commands + [if s.rest[0] == "+" then "$" else s.rest[0][1..]])))
  {
    if |s.parm.commands| < MAX_ARG_CMDS && s.rest[0] != "+" {
      assert |s.rest[0]| > 1;
    }
  }

  /** After a bare `--` every argument, including ones starting with `-` or
      `+`, is appended to the file list in order. */
  lemma {:induction false} AfterMinMinAllFiles(s: Scanner, fs: FileSystem)
    requires Cursor(s) && s.idx == 1 && s.hadMinMin
    requires s.parm.editType in {EditNone, EditFile}
    ensures Run(s, fs) == Finish(s.(rest := [], files := s.files + s.rest,
      parm := if s.rest == [] then s.parm else s.parm.(editType := EditFile)))
    decreases |s.rest|
  {
    if s.rest != [] {
      var t := s.(rest := s.rest[1..], parm := s.parm.(editType := EditFile), files := s.files + [s.rest[0]]);
      FileArgument(s, fs);
      AfterMinMinAllFiles(t, fs);
      assert t.files + t.rest == s.files + s.rest;
    }
  }

  /** `--` ends option parsing: `nvim -- -notreallyanoption +x` edits the two files named. */
  lemma MinMinThenFiles(rest: seq<string>, g0: Globals, fs: FileSystem)
    requires AllNoNul(rest) && |rest| > 0
    ensures Scan(["--"] + rest, g0, fs) == Ok(InitParams().(editType := EditFile), rest, g0)
  {
    var s := Start(["--"] + rest, g0);
    var t := s.(rest := rest, hadMinMin := true);
    assert Letter(s) == Go(s.(hadMinMin := true, idx := -1), false);
    assert Step(s, fs) == Next(t);
    AfterMinMinAllFiles(t, fs);
  }

  /** The long option names the scanner knows, as it matches them. */
  predicate KnownLong(w: string): (r: bool)
    ensures r ==> w != []
  {
    || EqualsIgnoreCase(w, "help") || EqualsIgnoreCase(w, "version") || EqualsIgnoreCase(w, "api-info")
    || EqualsIgnoreCase(w, "headless") || EqualsIgnoreCase(w, "embed")
    || HasPrefixIgnoreCase(w, "literal") || HasPrefixIgnoreCase(w, "nofork")
    || HasPrefixIgnoreCase(w, "noplugin") || HasPrefixIgnoreCase(w, "cmd")
    || HasPrefixIgnoreCase(w, "startuptime")
  }

  /** An unrecognised `--word` is "Unknown option argument"; only a `-` letter with nothing after it
      (a bare `--`, or a bundle ending in `-` such as `-n-`) stops option parsing. */
  lemma UnknownLongOption(s: Scanner, fs: FileSystem, w: string)
    requires Cursor(s) && |s.rest| > 0 && s.idx == 1 && !s.hadMinMin
    requires s.rest[0] == "--" + w
    ensures w != [] && !KnownLong(w) ==> Step(s, fs) == Done(Error(UnknownOption, Some(s.rest[0])))
    ensures w == [] ==> Step(s, fs) == Next(s.(rest := s.rest[1..], hadMinMin := true))
  {
    assert s.rest[0][2..] == w;
  }

  // ---------------------------------------------------------------------
  // Options that take a value

  /** Where the name of an option that wants the next argument as its value
      ends in the first argument, when such an option is at the cursor: a
      value letter (`-S -i -T -u -U -W`), `-s` outside Ex mode, `-w` not
      followed by a digit, `--cmd` or `--startuptime`. */
  function ValueOptionEnd(s: Scanner): (r: Option<nat>)
    requires |s.rest| > 0 && s.idx >= 1
    ensures r.Some? ==> s.idx < r.value <= |s.rest[0]| + 1
  {
    var tok := s.rest[0];
    var c := CharAt(tok, s.idx);
    if s.idx == 1 && |tok| >= 5 && tok[..5] == "--cmd" then Some(5)
    else if s.idx == 1 && |tok| >= 13 && tok[..13] == "--startuptime" then Some(13)
    else if IsValueLetter(c) || (c == 's' && s.g.exmodeActive == ExOff) || (c == 'w' && !IsDigit(CharAt(tok, s.idx + 1))) then
      Some(s.idx + 1)
    else None
  }

  /** `--cmd` and `--startuptime` want a value whatever follows the name. */
  lemma LongValueOption(tok: string, s: Scanner, name: string)
    requires s.idx == 2 && (name == "cmd" || name == "startuptime")
    requires |tok| >= 2 + |name| && tok[2..2 + |name|] == name
    ensures LongOption(tok, s) == Go(s.(idx := 2 + |name|), true)
  {
    var arg := tok[2..];
    assert arg[..|name|] == name;
    assert arg[0] == name[0] && Lower(name[0]) == name[0];
    assert HasPrefixIgnoreCase(arg, name);
    assert !HasPrefixIgnoreCase(arg, "cmd") || name == "cmd";
  }

  /** The option at the cursor wants a value, and the scanner is just past its name. */
  lemma ValueOptionWants(s: Scanner)
    requires Cursor(s) && |s.rest| > 0 && CharAt(s.rest[0], 0) == '-' && ValueOptionEnd(s).Some?
    ensures Live(s) && (s.idx == 1 || s.idx < |s.rest[0]|)
    ensures Letter(s) == Go(s.(idx := ValueOptionEnd(s).value), true)
  {
    var tok := s.rest[0];
    if s.idx == 1 && |tok| >= 5 && tok[..5] == "--cmd" {
      assert CharAt(tok, 1) == '-';
      LongValueOption(tok, s.(idx := 2), "cmd");
    } else if s.idx == 1 && |tok| >= 13 && tok[..13] == "--startuptime" {
      assert CharAt(tok, 1) == '-';
      LongValueOption(tok, s.(idx := 2), "startuptime");
    }
  }

  /** Letters after an option that wants the next argument are "Garbage after option argument". */
  lemma GarbageAfterOption(s: Scanner, fs: FileSystem)
    requires Cursor(s) && |s.rest| > 0 && !s.hadMinMin && CharAt(s.rest[0], 0) == '-'
    requires ValueOptionEnd(s).Some? && ValueOptionEnd(s).value < |s.rest[0]|
    ensures Step(s, fs) == Done(Error(Garbage, Some(s.rest[0])))
  {
    ValueOptionWants(s);
    assert NoNul(s.rest[0]);
    assert CharAt(s.rest[0], ValueOptionEnd(s).value) != NUL;
  }

  /** An option that wants a value at the end of the argument vector is
      "Argument missing after" — except `-S`, which then records
      `so Session.vim` (or is "Too many ..." with a full command list) and ends the scan. */
  lemma ArgumentMissing(s: Scanner, fs: FileSystem)
    requires Cursor(s) && |s.rest| == 1 && !s.hadMinMin && CharAt(s.rest[0], 0) == '-'
    requires || (ValueOptionEnd(s).Some? && ValueOptionEnd(s).value == |s.rest[0]|)
             || ((CharAt(s.rest[0], s.idx) == 'c' || CharAt(s.rest[0], s.idx) == 't') && s.idx + 1 == |s.rest[0]|)
    requires CharAt(s.rest[0], s.idx) == 't' ==> s.parm.editType == EditNone
    ensures CharAt(s.rest[0], s.idx) != 'S' ==> Step(s, fs) == Done(Error(ArgMissing, Some(s.rest[0])))
    ensures CharAt(s.rest[0], s.idx) == 'S' && |s.parm.commands| >= MAX_ARG_CMDS ==> Step(s, fs) == Done(Error(ExtraCmd, None))
    ensures CharAt(s.rest[0], s.idx) == 'S' && |s.parm.commands| < MAX_ARG_CMDS ==>
      Step(s, fs) == Next(s.(rest := [], idx := 1, parm := s.parm.(commands := s.parm.commands + ["so " + SESSION_FILE])))
  {
    var tok := s.rest[0];
    if ValueOptionEnd(s).Some? && ValueOptionEnd(s).value == |tok| {
      ValueOptionWants(s);
    } else {
      assert !IsNumericLetter(CharAt(tok, s.idx));
    }
    assert s.rest[1..] == [];
  }

  /** `-S` followed by an option records `so Session.vim` and leaves that option for the next pass;
      with a full command list it is "Too many ...". */
  lemma SessionBeforeOption(s: Scanner, fs: FileSystem)
    requires Cursor(s) && |s.rest| > 1 && !s.hadMinMin && s.rest[0] == "-S"
    requires s.idx == 1 && CharAt(s.rest[1], 0) == '-'
    ensures |s.parm.commands| >= MAX_ARG_CMDS ==> Step(s, fs) == Done(Error(ExtraCmd, None))
    ensures |s.parm.commands| < MAX_ARG_CMDS ==> Step(s, fs) == Next(s.(rest := s.rest[1..], parm := s.parm.(commands := s.parm.commands + ["so " + SESSION_FILE])))
  {
    assert CharAt(s.rest[0], 1) == 'S';
    assert Letter(s) == Go(s.(idx := 2), true);
  }

  /** `-c {cmd}` and `-S {file}` consume the next argument as the command / session file. */
  lemma CommandArgument(s: Scanner, fs: FileSystem)
    requires Cursor(s) && |s.rest| > 1 && !s.hadMinMin && s.idx == 1
    requires s.rest[0] == "-c" || (s.rest[0] == "-S" && CharAt(s.rest[1], 0) != '-')
    ensures |s.parm.commands| >= MAX_ARG_CMDS ==> Step(s, fs) == Done(Error(ExtraCmd, None))
    ensures |s.parm.commands| < MAX_ARG_CMDS ==>
      Step(s, fs) == Next(s.(rest := s.rest[2..], parm := s.parm.(commands := s.parm.commands +
        [if s.rest[0] == "-c" then s.rest[1] else "so " + s.rest[1]])))
  {
    assert CharAt(s.rest[0], 1) == 'c' || CharAt(s.rest[0], 1) == 'S';
    assert Letter(s) == Go(s.(idx := 2), true);
  }

  /** `-c{cmd}`, `-t{tag}` and `-q{file}` take their value from the rest of
      the argument and leave the next argument alone. */
  lemma InlineValue(s: Scanner, fs: FileSystem, v: string)
    requires Cursor(s) && |s.rest| > 0 && !s.hadMinMin && s.idx == 1
    requires |s.rest[0]| == 2 + |v| && v != [] && s.rest[0][..2] in ["-c", "-t", "-q"] && s.rest[0][2..] == v
    requires s.rest[0][1] == 'c' ==> |s.parm.commands| < MAX_ARG_CMDS
    requires s.rest[0][1] != 'c' ==> s.parm.editType == EditNone
    ensures Step(s, fs).Next? && Step(s, fs).s.rest == s.rest[1..]
    ensures s.rest[0][1] == 'c' ==> Step(s, fs).s.parm.commands == s.parm.commands + [v]
    ensures s.rest[0][1] == 't' ==> Step(s, fs).s.parm.tagname == Some(v) && Step(s, fs).s.parm.editType == EditTag
    ensures s.rest[0][1] == 'q' ==> Step(s, fs).s.parm.useEf == Some(v) && Step(s, fs).s.parm.editType == EditQf
  {
    var tok := s.rest[0];
    assert tok[1] == tok[..2][1];
    assert CharAt(tok, 1) == tok[1];
    assert CharAt(tok, 2) == v[0];
  }

  /** An inline `-c{cmd}` past the capacity is "Too many ...", never a silent drop. */
  lemma InlineCAtCapacity(s: Scanner, fs: FileSystem)
    requires Cursor(s) && |s.rest| > 0 && !s.hadMinMin && s.idx == 1
    requires |s.rest[0]| > 2 && s.rest[0][..2] == "-c" && |s.parm.commands| >= MAX_ARG_CMDS
    ensures Step(s, fs) == Done(Error(ExtraCmd, None))
  {
    assert CharAt(s.rest[0], 1) == s.rest[0][..2][1];
    assert CharAt(s.rest[0], 2) != NUL by { assert NoNul(s.rest[0]); }
  }

  /** `--cmd {cmd}` adds to the pre-commands; an eleventh is "Too many ...". */
  lemma PreCommandArgument(s: Scanner, fs: FileSystem)
    requires Cursor(s) && |s.rest| > 1 && !s.hadMinMin && s.idx == 1 && s.rest[0] == "--cmd"
    ensures |s.parm.preCommands| >= MAX_ARG_CMDS ==> Step(s, fs) == Done(Error(ExtraCmd, None))
    ensures |s.parm.preCommands| < MAX_ARG_CMDS ==>
      Step(s, fs) == Next(s.(rest := s.rest[2..], parm := s.parm.(preCommands := s.parm.preCommands + [s.rest[1]])))
  {
    ValueOptionWants(s);
  }

  /** Repeating `-c cmd` more than MAX_ARG_CMDS times is the "Too many ..." error. */
  function Repeat(opt: string, v: string, n: nat): (r: seq<string>)
    ensures |r| == 2 * n
  {
    if n == 0 then [] else [opt, v] + Repeat(opt, v, n - 1)
  }

  lemma {:induction false} RepeatNoNul(opt: string, v: string, n: nat, tail: seq<string>)
    requires NoNul(opt) && NoNul(v) && AllNoNul(tail)
    ensures AllNoNul(Repeat(opt, v, n) + tail)
    decreases n
  {
    if n > 0 {
      RepeatNoNul(opt, v, n - 1, tail);
      var r := Repeat(opt, v, n) + tail;
      assert r == [opt, v] + (Repeat(opt, v, n - 1) + tail);
      forall i | 0 <= i < |r| ensures NoNul(r[i]) {
        if i >= 2 { assert r[i] == (Repeat(opt, v, n - 1) + tail)[i - 2]; }
      }
    }
  }

  lemma {:induction false} TooManyDashC(s: Scanner, fs: FileSystem, cmd: string, n: nat, tail: seq<string>)
    requires NoNul(cmd) && AllNoNul(tail) && s.idx == 1 && !s.hadMinMin
    requires s.rest == Repeat("-c", cmd, n) + tail
    requires |s.parm.commands| <= MAX_ARG_CMDS < |s.parm.commands| + n
    ensures Cursor(s) && Run(s, fs) == Error(ExtraCmd, None)
    decreases n
  {
    var r := Repeat("-c", cmd, n) + tail;
    assert r[0] == "-c" && r[1] == cmd && r[2..] == Repeat("-c", cmd, n - 1) + tail;
    RepeatNoNul("-c", cmd, n, tail);
    CommandArgument(s, fs);
    if |s.parm.commands| < MAX_ARG_CMDS {
      TooManyDashC(s.(rest := r[2..], parm := s.parm.(commands := s.parm.commands + [cmd])), fs, cmd, n - 1, tail);
    }
  }

  /** Any vector of more than ten `-c cmd` pairs fails with "Too many ...". */
  lemma ElevenDashC(cmd: string, n: nat, g0: Globals, fs: FileSystem)
    requires NoNul(cmd) && n > MAX_ARG_CMDS
    ensures AllNoNul(Repeat("-c", cmd, n)) && Scan(Repeat("-c", cmd, n), g0, fs) == Error(ExtraCmd, None)
  {
    assert Repeat("-c", cmd, n) + [] == Repeat("-c", cmd, n);
    TooManyDashC(Start(Repeat("-c", cmd, n), g0), fs, cmd, n, []);
  }

  // ---------------------------------------------------------------------
  // Window options

  /** `-oN`, `-ON` and `-pN` set the window count to N (0 without digits) and
      the layout to horizontal, vertical or tab pages. */
  lemma WindowOption(s: Scanner, fs: FileSystem, c: char, digits: string)
    requires Cursor(s) && |s.rest| > 0 && !s.hadMinMin && s.idx == 1
    requires (c == 'o' || c == 'O' || c == 'p') && AllDigits(digits) && s.rest[0] == ['-', c] + digits
    ensures Step(s, fs) == Next(s.(rest := s.rest[1..], parm := s.parm.(
      windowCount := if digits == [] then 0 else Decimal(digits),
      windowLayout := if c == 'o' then WinHor else if c == 'O' then WinVer else WinTabs)))
  {
    var tok := s.rest[0];
    assert CharAt(tok, 1) == c;
    var n := NumberArg(tok, 2, 0);
    if digits != [] {
      assert IsDigit(CharAt(tok, 2)) by { assert tok[2] == digits[0]; }
      assert forall k :: 2 <= k < |tok| ==> IsDigit(tok[k]) by {
        forall k | 2 <= k < |tok| ensures IsDigit(tok[k]) { assert tok[k] == digits[k - 2]; }
      }
      assert n.next == |tok|;
      assert tok[2..|tok|] == digits;
    }
  }

  /** `nvim -p3 file1 file2 file3`: three tab pages for three files. */
  lemma TabsExample(g0: Globals, fs: FileSystem)
    ensures Scan(["-p3", "file1", "file2", "file3"], g0, fs)
      == Ok(InitParams().(windowCount := 3, windowLayout := WinTabs, editType := EditFile),
            ["file1", "file2", "file3"], g0)
  {
    var args := ["-p3", "file1", "file2", "file3"];
    var s := Start(args, g0);
    assert Decimal("3") == 3;
    WindowOption(s, fs, 'p', "3");
    var p := InitParams().(windowCount := 3, windowLayout := WinTabs);
    var t := Scanner(args[1..], 1, false, p, [], g0);
    assert Run(s, fs) == Run(t, fs);
    FilesOnly(t, fs);
    assert t.files + t.rest == ["file1", "file2", "file3"];
  }

  /** An argument that is neither an option nor a `+` command. */
  predicate NoOption(a: string)
  {
    CharAt(a, 0) != '-' && CharAt(a, 0) != '+'
  }

  predicate NoOptions(rest: seq<string>)
  {
    forall i :: 0 <= i < |rest| ==> NoOption(rest[i])
  }

  /** Names that are neither options nor `+` commands are all edited, in order. */
  lemma {:induction false} FilesOnly(s: Scanner, fs: FileSystem)
    requires Cursor(s) && s.idx == 1 && !s.hadMinMin && s.parm.editType in {EditNone, EditFile}
    requires NoOptions(s.rest)
    ensures Run(s, fs) == Finish(s.(rest := [], files := s.files + s.rest,
      parm := if s.rest == [] then s.parm else s.parm.(editType := EditFile)))
    decreases |s.rest|
  {
    if s.rest != [] {
      var t := s.(rest := s.rest[1..], parm := s.parm.(editType := EditFile), files := s.files + [s.rest[0]]);
      FileArgument(s, fs);
      assert Run(s, fs) == Run(t, fs);
      assert NoOptions(t.rest) by {
        forall i | 0 <= i < |t.rest| ensures NoOption(t.rest[i]) { assert t.rest[i] == s.rest[i + 1]; }
      }
      FilesOnly(t, fs);
      assert t.files + t.rest == s.files + s.rest;
    }
  }

  // ---------------------------------------------------------------------
  // Help and version

  /** `-h`, `--help` and `--version` end the scan with exit code 0 before any
      later argument is looked at. */
  lemma HelpAndVersionExit(opt: string, rest: seq<string>, g0: Globals, fs: FileSystem)
    requires AllNoNul(rest) && opt in ["-h", "--help", "--version"]
    ensures AllNoNul([opt] + rest)
    ensures Scan([opt] + rest, g0, fs).Exit? && ExitCode(Scan([opt] + rest, g0, fs)) == 0
  {
    var args := [opt] + rest;
    assert AllNoNul(args) by {
      forall i | 0 <= i < |args| ensures NoNul(args[i]) {
        if i > 0 { assert args[i] == rest[i - 1]; }
      }
    }
    var s := Start(args, g0);
    if opt == "-h" {
      assert Letter(s) == Quit(Exit(Help));
    } else if opt == "--help" {
      assert opt[2..] == "help";
      assert Letter(s) == Quit(Exit(Help));
    } else {
      assert opt[2..] == "version";
      assert !EqualsIgnoreCase("version", "help");
      assert Letter(s) == Quit(Exit(Version));
    }
  }
}
