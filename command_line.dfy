/** `command_line_scan`: the imperative argument scanner, proved to compute
    the specification `ScanSpec.Scan`. */
module CommandLine {
  import opened CharUtil
  import opened MainTypes
  import opened NumberArgs
  import opened ScanSpec

  /** Scan the arguments after the program name. The cursor is the pair
      (`argv`, `argvIdx`); the globals start as `g0`; `fs` says which script
      files can be opened. */
  method CommandLineScan(args: seq<string>, g0: Globals, fs: FileSystem) returns (o: Outcome)
    requires AllNoNul(args)
    ensures o == Scan(args, g0, fs)
  {
    var argv := args;
    var argvIdx := 1;
    var hadMinMin := false;
    var parm := InitParams();
    var files: seq<string> := [];
    var g := g0;
    while |argv| > 0
      invariant Cursor(Scanner(argv, argvIdx, hadMinMin, parm, files, g))
      invariant Run(Scanner(argv, argvIdx, hadMinMin, parm, files, g), fs) == Scan(args, g0, fs)
      decreases |argv|, Rem(Scanner(argv, argvIdx, hadMinMin, parm, files, g))
    {
      var s := Scanner(argv, argvIdx, hadMinMin, parm, files, g);
      var tok := argv[0];
      if CharAt(tok, 0) == '+' && !hadMinMin {
        // "+", "+{number}", "+/{pat}" or "+{command}"
        if |parm.commands| >= MAX_ARG_CMDS {
          return Error(ExtraCmd, None);
        }
        argvIdx := -1;
        parm := parm.(commands := parm.commands + [PlusCommand(tok)]);
      } else if CharAt(tok, 0) == '-' && !hadMinMin {
        var c := CharAt(tok, argvIdx);
        var a := OptionLetter(s);
        match a
        case Quit(out) =>
          return out;
        case Go(t, want) =>
          if want {
            var r := OptionValue(c, tok, t, fs);
            match r
            case Done(out) =>
              return out;
            case Next(u) =>
              argv, argvIdx, hadMinMin, parm, files, g := u.rest, u.idx, u.hadMinMin, u.parm, u.files, u.g;
            assert Step(s, fs) == r;
            continue;
          }
          argvIdx, hadMinMin, parm, g := t.idx, t.hadMinMin, t.parm, t.g;
      } else {
        // a file name argument
        argvIdx := -1;
        if parm.editType != EditNone && parm.editType != EditFile {
          return Error(TooManyArgs, Some(tok));
        }
        parm := parm.(editType := EditFile);
        files := files + [tok];
      }

      // go to the next argument when this one is used up
      if argvIdx <= 0 || CharAt(argv[0], argvIdx) == NUL {
        argv := Drop1(argv);
        argvIdx := 1;
      }
      assert Step(s, fs) == Next(Scanner(argv, argvIdx, hadMinMin, parm, files, g));
    }
    o := Finish(Scanner(argv, argvIdx, hadMinMin, parm, files, g));
  }

  /** The `switch` on the option letter at the cursor of a `-` argument. Only
      the letters that read a number are written out here, with `GetNumberArg`;
      every other letter is the specification's `TableLetter` itself. */
  method OptionLetter(s: Scanner) returns (a: Act)
    requires Live(s) && CharAt(s.rest[0], 0) == '-' && (s.idx == 1 || s.idx < |s.rest[0]|)
    requires AllNoNul(s.rest)
    ensures a == Letter(s)
  {
    var tok := s.rest[0];
    var c := CharAt(tok, s.idx);
    var argvIdx := s.idx + 1;
    if c == 'V' {
      var n, next := GetNumberArg(tok, argvIdx, 10);
      var g := s.g.(verbose := n);
      argvIdx := next;
      if CharAt(tok, argvIdx) != NUL {
        g := g.(verboseFile := Some(tok[argvIdx..]));
        argvIdx := |tok|;
      }
      a := Go(s.(g := g, idx := argvIdx), false);
    } else if c == 'w' {
      if IsDigit(CharAt(tok, argvIdx)) {
        var n, next := GetNumberArg(tok, argvIdx, 10);
        a := Go(s.(g := s.g.(window := Some(n)), idx := next), false);
      } else {
        a := Go(s.(idx := argvIdx), true);
      }
    } else if c == 'p' || c == 'o' || c == 'O' {
      var n, next := GetNumberArg(tok, argvIdx, 0);
      a := Go(s.(parm := s.parm.(windowCount := n, windowLayout := LayoutFor(c)), idx := next), false);
    } else {
      a := TableLetter(c, tok, s.(idx := argvIdx));
    }
  }

  /** Take the value of option `c` (from argument `tok`) from the next
      argument; `s` is the state after the option letter, still at `tok`. */
  method OptionValue(c: char, tok: string, s: Scanner, fs: FileSystem) returns (r: StepResult)
    requires |s.rest| > 0 && s.idx > 0 && AllNoNul(s.rest)
    ensures r == TakeArgument(c, tok, s, fs)
  {
    if CharAt(tok, s.idx) != NUL {
      return Done(Error(Garbage, Some(tok)));
    }
    var argv := s.rest[1..];
    if |argv| < 1 && c != 'S' {
      return Done(Error(ArgMissing, Some(tok)));
    }
    var parm, g := s.parm, s.g;
    if c == 'c' || c == 'S' {
      if |parm.commands| >= MAX_ARG_CMDS {
        return Done(Error(ExtraCmd, None));
      }
      if c == 'S' {
        var a;
        if |argv| < 1 {
          a := SESSION_FILE;
        } else if CharAt(argv[0], 0) == '-' {
          // the next argument is an option: leave it for the next pass
          a := SESSION_FILE;
          argv := s.rest;
        } else {
          a := argv[0];
        }
        parm := parm.(commands := parm.commands + ["so " + a]);
      } else {
        parm := parm.(commands := parm.commands + [argv[0]]);
      }
    } else if c == '-' {
      if CharAt(tok, 2) == 'c' {
        if |parm.preCommands| >= MAX_ARG_CMDS {
          return Done(Error(ExtraCmd, None));
        }
        parm := parm.(preCommands := parm.preCommands + [argv[0]]);
      }
    } else if c == 'q' {
      parm := parm.(useEf := Some(argv[0]));
    } else if c == 'i' {
      g := g.(viminfoFile := Some(argv[0]));
    } else if c == 's' {
      if g.scriptin.Some? {
        return Done(Exit(ScriptAgain(tok, argv[0])));
      }
      if argv[0] !in fs.readable {
        return Done(Exit(CannotRead(argv[0])));
      }
      g := g.(scriptin := Some(argv[0]));
    } else if c == 't' {
      parm := parm.(tagname := Some(argv[0]));
    } else if c == 'T' {
      parm := parm.(term := Some(argv[0]));
    } else if c == 'u' {
      parm := parm.(useVimrc := Some(argv[0]));
    } else if c == 'w' && IsDigit(CharAt(argv[0], 0)) {
      var n, _ := GetNumberArg(argv[0], 0, 10);
      g := g.(window := Some(n));
    } else if c == 'w' || c == 'W' {
      if g.scriptout.Some? {
        return Done(Exit(ScriptAgain(tok, argv[0])));
      }
      if argv[0] !in fs.writable {
        return Done(Exit(CannotWrite(argv[0])));
      }
      g := g.(scriptout := Some(argv[0]), scriptoutAppend := c == 'w');
    }
    // the value argument is used up: go on after it
    r := Next(s.(rest := Drop1(argv), idx := 1, parm := parm, g := g));
  }
}
