/** The argument scanner `command_line_scan` as a step function over its
    cursor state, iterated by `Run`. The method in module CommandLine is
    proved to compute `Scan`. */
module ScanSpec {
  import opened CharUtil
  import opened MainTypes
  import opened NumberArgs

  /** The scanner's state: the arguments not yet consumed (`argv`, `argc`),
      the offset of the active option letter in `rest[0]` (`argv_idx`; a value
      <= 0 marks the argument as done), the `had_minmin` flag, the parameter
      record, the global argument list and the globals set so far. */
  datatype Scanner = Scanner(
    rest: seq<string>,
    idx: int,
    hadMinMin: bool,
    parm: Params,
    files: seq<string>,
    g: Globals)

  /** Result of one option letter: stop with an outcome, or go on, possibly
      wanting the next argument as the option's value. */
  datatype Act = Quit(o: Outcome) | Go(s: Scanner, want: bool)

  datatype StepResult = Done(o: Outcome) | Next(s: Scanner)

  /** A state in the middle of the loop: an argument is left, and the offset is that of a letter. */
  predicate Live(s: Scanner)
  {
    |s.rest| > 0 && s.idx >= 1
  }

  function Drop1(a: seq<string>): seq<string>
  {
    if |a| == 0 then [] else a[1..]
  }

  /** Letters left in the active argument: the second component of the loop's measure. */
  function Rem(s: Scanner): nat
  {
    if |s.rest| == 0 || s.idx >= |s.rest[0]| then 0 else |s.rest[0]| - s.idx
  }

  /** The end of the loop body: go to the next argument when the current one
      was marked done or has no letters left; otherwise stay on it. */
  function Advance(s: Scanner): Scanner
    requires s.idx > 0 ==> |s.rest| > 0
  {
    if s.idx <= 0 || CharAt(s.rest[0], s.idx) == NUL then s.(rest := Drop1(s.rest), idx := 1)
    else s
  }

  /** The command recorded for a `+` argument: `$` for a bare `+`, else the text after it. */
  function PlusCommand(tok: string): (r: string)
    ensures |tok| > 1 ==> [tok[0]] + r == tok
    ensures |tok| <= 1 ==> r == "$"
  {
    if |tok| <= 1 then "$" else tok[1..]
  }

  function LayoutFor(c: char): Layout
  {
    if c == 'p' then WinTabs else if c == 'o' then WinHor else WinVer
  }

  /** An outcome that stops the scan early: an exit, or `mainerr(n, str)`
      given the argument at fault (none for too many commands). */
  predicate Abort(o: Outcome, tok: string)
  {
    !o.Ok? && (o.Error? ==> o.arg == if o.err == ExtraCmd then None else Some(tok))
  }

  /** Option letters that take no value and only set a flag. None: not such a letter. */
  function FlagLetter(c: char, p: Params, g: Globals): (r: Option<(Params, Globals)>)
    ensures r.Some? <==> IsFlagLetter(c)
    ensures r.Some? ==> r.value.0.commands == p.commands && r.value.0.preCommands == p.preCommands
    ensures r.Some? ==> r.value.0.editType == p.editType && r.value.0.windowCount == p.windowCount
  {
    match c
    case 'A' => Some((p, g.(arabic := true)))
    case 'b' => Some((p, g.(binary := true)))
    case 'e' => Some((p, g.(exmodeActive := ExNormal)))
    case 'E' => Some((p, g.(exmodeActive := ExVim)))
    case 'f' => Some((p, g))
    case 'F' => Some((p, g.(farsiKeymap := true, rightLeft := true)))
    case 'H' => Some((p, g.(hebrewKeymap := true, rightLeft := true)))
    case 'l' => Some((p, g.(lisp := true, showMatch := true)))
    case 'M' => Some((p, g.(modifiable := false, write := false)))
    case 'm' => Some((p, g.(write := false)))
    case 'N' => Some((p, g))
    case 'n' => Some((p.(noSwapFile := true), g))
    case 'R' => Some((p, g.(readonlyMode := true, bufReadonly := true, updateCount := 10000)))
    case 'r' => Some((p, g.(recoveryMode := true)))
    case 'L' => Some((p, g.(recoveryMode := true)))
    case 'D' => Some((p.(useDebugBreakLevel := 9999), g))
    case 'd' => Some((p.(diffMode := true), g))
    case 'X' => Some((p, g))
    case 'Z' => Some((p, g.(restricted := true)))
    case _ => None
  }

  /** Letters whose handling calls `get_number_arg`. */
  predicate IsNumericLetter(c: char)
  {
    c == 'p' || c == 'o' || c == 'O' || c == 'V' || c == 'w'
  }

  /** Letters that always take their value from the next argument. */
  predicate IsValueLetter(c: char)
  {
    c == 'S' || c == 'i' || c == 'T' || c == 'u' || c == 'U' || c == 'W'
  }

  /** Letters that only set flags: `FlagLetter` handles exactly these. */
  predicate IsFlagLetter(c: char)
  {
    || c == 'A' || c == 'b' || c == 'e' || c == 'E' || c == 'f' || c == 'F' || c == 'H'
    || c == 'l' || c == 'M' || c == 'm' || c == 'N' || c == 'n' || c == 'R' || c == 'r'
    || c == 'L' || c == 'D' || c == 'd' || c == 'X' || c == 'Z'
  }

  /** `-p[N]`, `-o[N]`, `-O[N]`, `-V[N][file]` and `-w{N}` (a `-w` without a
      digit wants a script-output argument). `s.idx` is just past the letter. */
  function NumericLetter(c: char, tok: string, s: Scanner): (a: Act)
    requires IsNumericLetter(c) && s.idx >= 1
    ensures a.Go? && a.s.rest == s.rest && a.s.files == s.files && a.s.hadMinMin == s.hadMinMin
    ensures a.s.idx >= s.idx
    ensures a.s.parm.commands == s.parm.commands && a.s.parm.preCommands == s.parm.preCommands
    ensures a.s.parm.editType == s.parm.editType
  {
    if c == 'V' then
      var n := NumberArg(tok, s.idx, 10);
      var s1 := s.(g := s.g.(verbose := n.value), idx := n.next);
      if CharAt(tok, n.next) != NUL then
        Go(s1.(g := s1.g.(verboseFile := Some(tok[n.next..])), idx := |tok|), false)
      else Go(s1, false)
    else if c == 'w' then
      if IsDigit(CharAt(tok, s.idx)) then
        var n := NumberArg(tok, s.idx, 10);
        Go(s.(g := s.g.(window := Some(n.value)), idx := n.next), false)
      else Go(s, true)
    else
      var n := NumberArg(tok, s.idx, 0);
      Go(s.(parm := s.parm.(windowCount := n.value, windowLayout := LayoutFor(c)), idx := n.next), false)
  }

  /** `--help`, `--version`, `--api-info`, `--headless`, `--embed`,
      `--literal`, `--nofork`, `--noplugin`, `--cmd`, `--startuptime` and the
      bare `--`. `s.idx` is just past the second `-`. */
  function LongOption(tok: string, s: Scanner): (a: Act)
    requires 1 <= s.idx <= |tok|
    ensures a.Go? ==> a.s.rest == s.rest && a.s.files == s.files
    ensures a.Go? ==> (a.s.idx <= 0 || a.s.idx >= s.idx)
    ensures a.Go? && a.want ==> a.s.idx > 0 && a.s == s.(idx := a.s.idx)
    ensures a.Go? ==> a.s.parm.commands == s.parm.commands && a.s.parm.preCommands == s.parm.preCommands
    ensures a.Go? ==> a.s.parm.editType == s.parm.editType
    ensures a.Go? && a.want ==>
      || (HasPrefixIgnoreCase(tok[s.idx..], "cmd") && a.s.idx == s.idx + 3)
      || (HasPrefixIgnoreCase(tok[s.idx..], "startuptime") && a.s.idx == s.idx + 11)
    ensures a.Quit? ==> Abort(a.o, tok)
  {
    var arg := tok[s.idx..];
    if EqualsIgnoreCase(arg, "help") then Quit(Exit(Help))
    else if EqualsIgnoreCase(arg, "version") then Quit(Exit(Version))
    else if EqualsIgnoreCase(arg, "api-info") then Quit(Exit(ApiInfo))
    else if EqualsIgnoreCase(arg, "headless") then
      Go(s.(parm := s.parm.(headless := true), idx := -1), false)
    else if EqualsIgnoreCase(arg, "embed") then
      Go(s.(parm := s.parm.(headless := true), g := s.g.(embeddedMode := true), idx := -1), false)
    else if HasPrefixIgnoreCase(arg, "literal") || HasPrefixIgnoreCase(arg, "nofork") then
      Go(s.(idx := -1), false)
    else if HasPrefixIgnoreCase(arg, "noplugin") then
      Go(s.(g := s.g.(loadPlugins := false), idx := -1), false)
    else if HasPrefixIgnoreCase(arg, "cmd") then
      Go(s.(idx := s.idx + 3), true)
    else if HasPrefixIgnoreCase(arg, "startuptime") then
      Go(s.(idx := s.idx + 11), true)
    else if CharAt(tok, s.idx) != NUL then Quit(Error(UnknownOption, Some(tok)))
    else Go(s.(hadMinMin := true, idx := -1), false)
  }

  /** The letters that choose what to edit: `-` alone (standard input, or
      silent mode in Ex mode), `-q` and `-t`. Each fails once an edit type is
      chosen. `s.idx` is just past the letter. */
  function EditLetter(c: char, tok: string, s: Scanner): (a: Act)
    requires (c == NUL || c == 'q' || c == 't') && 1 <= s.idx && (c != NUL ==> s.idx <= |tok|)
    ensures a.Go? ==> a.s.rest == s.rest && a.s.files == s.files && (a.s.idx <= 0 || a.s.idx >= s.idx)
    ensures a.Go? && a.want ==> a.s.idx > 0
    ensures a.Go? ==> a.s.parm.commands == s.parm.commands && a.s.parm.preCommands == s.parm.preCommands
    ensures a.Go? ==> (a.s.parm.editType == s.parm.editType ||
      (s.parm.editType == EditNone && a.s.parm.editType in {EditStdin, EditQf, EditTag}))
    ensures a.Quit? ==> a.o == Error(TooManyArgs, Some(tok)) && s.parm.editType != EditNone
  {
    if c == NUL then
      if s.g.exmodeActive != ExOff then Go(s.(g := s.g.(silentMode := true), idx := -1), false)
      else if s.parm.editType != EditNone then Quit(Error(TooManyArgs, Some(tok)))
      else Go(s.(parm := s.parm.(editType := EditStdin), idx := -1), false)
    else if s.parm.editType != EditNone then Quit(Error(TooManyArgs, Some(tok)))
    else if c == 'q' then
      var p := s.parm.(editType := EditQf);
      if CharAt(tok, s.idx) != NUL then Go(s.(parm := p.(useEf := Some(tok[s.idx..])), idx := -1), false)
      else Go(s.(parm := p), |s.rest| > 1)
    else
      var p := s.parm.(editType := EditTag);
      if CharAt(tok, s.idx) != NUL then Go(s.(parm := p.(tagname := Some(tok[s.idx..])), idx := -1), false)
      else Go(s.(parm := p), true)
  }

  /** Every option letter other than the numeric ones. `s.idx` is just past the letter. */
  function TableLetter(c: char, tok: string, s: Scanner): (a: Act)
    requires !IsNumericLetter(c) && 1 <= s.idx && (c != NUL ==> s.idx <= |tok|)
    ensures a.Go? ==> a.s.rest == s.rest && a.s.files == s.files
    ensures a.Go? ==> (a.s.idx <= 0 || a.s.idx >= s.idx)
    ensures a.Go? && a.want ==> a.s.idx > 0
    ensures a.Go? ==> a.s.parm.preCommands == s.parm.preCommands
    ensures a.Go? ==> (a.s.parm.commands == s.parm.commands ||
      (|s.parm.commands| < MAX_ARG_CMDS && s.idx <= |tok| && a.s.parm.commands == s.parm.commands + [tok[s.idx..]]))
    ensures a.Go? ==> (a.s.parm.editType == s.parm.editType ||
      (s.parm.editType == EditNone && a.s.parm.editType in {EditStdin, EditQf, EditTag}))
    ensures a.Quit? ==> Abort(a.o, tok)
  {
    if c == NUL || c == 'q' || c == 't' then EditLetter(c, tok, s)
    else if c == '-' then LongOption(tok, s)
    else PlainLetter(c, tok, s)
  }

  /** The letters that neither choose an edit type nor start a long option:
      `-g`, `-h`, `-s`, `-c`, the letters that want a value and the flags. */
  function PlainLetter(c: char, tok: string, s: Scanner): (a: Act)
    requires !IsNumericLetter(c) && c != NUL && c != 'q' && c != 't' && c != '-' && 1 <= s.idx <= |tok|
    ensures a.Go? ==> a.s.rest == s.rest && a.s.files == s.files && a.s.parm.editType == s.parm.editType
    ensures a.Go? ==> (a.s.idx <= 0 || a.s.idx >= s.idx)
    ensures a.Go? && a.want ==> a.s.idx > 0
    ensures a.Go? ==> a.s.parm.preCommands == s.parm.preCommands
    ensures a.Go? ==> (a.s.parm.commands == s.parm.commands ||
      (|s.parm.commands| < MAX_ARG_CMDS && a.s.parm.commands == s.parm.commands + [tok[s.idx..]]))
    ensures a.Quit? ==> Abort(a.o, tok)
  {
    if c == 'g' then Quit(Exit(NoGui))
    else if c == 'h' then Quit(Exit(Help))
    else if c == 's' then
      if s.g.exmodeActive != ExOff then Go(s.(g := s.g.(silentMode := true)), false)
      else Go(s, true)
    else if c == 'c' then
      if CharAt(tok, s.idx) != NUL then
        if |s.parm.commands| >= MAX_ARG_CMDS then Quit(Error(ExtraCmd, None))
        else Go(s.(parm := s.parm.(commands := s.parm.commands + [tok[s.idx..]]), idx := -1), false)
      else Go(s, true)
    else if IsValueLetter(c) then Go(s, true)
    else
      match FlagLetter(c, s.parm, s.g)
      case Some(pg) => Go(s.(parm := pg.0, g := pg.1), false)
      case None => Quit(Error(UnknownOption, Some(tok)))
  }

  /** The option letter at the cursor of a `-` argument. */
  function Letter(s: Scanner): (a: Act)
    requires Live(s) && CharAt(s.rest[0], 0) == '-' && (s.idx == 1 || s.idx < |s.rest[0]|)
    requires AllNoNul(s.rest)
    ensures a.Go? ==> a.s.rest == s.rest && a.s.files == s.files
    ensures a.Go? ==> (a.s.idx <= 0 || a.s.idx > s.idx)
    ensures a.Go? && a.want ==> a.s.idx > 0
    ensures a.Quit? ==> Abort(a.o, s.rest[0])
  {
    var tok := s.rest[0];
    var c := CharAt(tok, s.idx);
    var s1 := s.(idx := s.idx + 1);
    if IsNumericLetter(c) then NumericLetter(c, tok, s1) else TableLetter(c, tok, s1)
  }

  function AddCommand(s: Scanner, cmd: string): Scanner
  {
    s.(parm := s.parm.(commands := s.parm.commands + [cmd]))
  }

  /** The value argument of option `c` (from `tok`), now at the head of
      `s.rest`, or no argument at all for a bare trailing `-S`; `before` is
      the argument vector as it was at `tok`, restored when `-S` leaves the
      next option alone. */
  function Consume(c: char, tok: string, before: seq<string>, s: Scanner, fs: FileSystem): (r: StepResult)
    requires s.idx == -1 && (|s.rest| == 0 ==> c == 'S')
    requires |before| == |s.rest| + 1
    ensures r.Next? ==> r.s.idx == 1 && r.s.files == s.files && r.s.hadMinMin == s.hadMinMin
    ensures r.Next? ==> r.s.rest == Drop1(s.rest) || r.s.rest == before[1..]
    ensures r.Next? ==> r.s.parm.editType == s.parm.editType
    ensures r.Next? ==> s.parm.commands <= r.s.parm.commands && s.parm.preCommands <= r.s.parm.preCommands
    ensures r.Done? ==> Abort(r.o, tok)
    ensures r.Done? && r.o.Error? ==> r.o.err == ExtraCmd
  {
    if c == 'c' || c == 'S' then
      if |s.parm.commands| >= MAX_ARG_CMDS then Done(Error(ExtraCmd, None))
      else if c == 'S' then
        if |s.rest| == 0 then Next(Advance(AddCommand(s, "so " + SESSION_FILE)))
        else if CharAt(s.rest[0], 0) == '-' then Next(Advance(AddCommand(s.(rest := before), "so " + SESSION_FILE)))
        else Next(Advance(AddCommand(s, "so " + s.rest[0])))
      else Next(Advance(AddCommand(s, s.rest[0])))
    else
      var arg := s.rest[0];
      if c == '-' then
        if CharAt(tok, 2) == 'c' then
          if |s.parm.preCommands| >= MAX_ARG_CMDS then Done(Error(ExtraCmd, None))
          else Next(Advance(s.(parm := s.parm.(preCommands := s.parm.preCommands + [arg]))))
        else Next(Advance(s))
      else if c == 'q' then Next(Advance(s.(parm := s.parm.(useEf := Some(arg)))))
      else if c == 'i' then Next(Advance(s.(g := s.g.(viminfoFile := Some(arg)))))
      else if c == 's' then
        if s.g.scriptin.Some? then Done(Exit(ScriptAgain(tok, arg)))
        else if arg !in fs.readable then Done(Exit(CannotRead(arg)))
        else Next(Advance(s.(g := s.g.(scriptin := Some(arg)))))
      else if c == 't' then Next(Advance(s.(parm := s.parm.(tagname := Some(arg)))))
      else if c == 'T' then Next(Advance(s.(parm := s.parm.(term := Some(arg)))))
      else if c == 'u' then Next(Advance(s.(parm := s.parm.(useVimrc := Some(arg)))))
      else if c == 'w' && IsDigit(CharAt(arg, 0)) then
        Next(Advance(s.(g := s.g.(window := Some(NumberArg(arg, 0, 10).value)))))
      else if c == 'w' || c == 'W' then
        if s.g.scriptout.Some? then Done(Exit(ScriptAgain(tok, arg)))
        else if arg !in fs.writable then Done(Exit(CannotWrite(arg)))
        else Next(Advance(s.(g := s.g.(scriptout := Some(arg), scriptoutAppend := c == 'w'))))
      else Next(Advance(s))
  }

  /** An option that wants a value: no letters may follow it in its own
      argument, and (except for `-S`) another argument must follow. */
  function TakeArgument(c: char, tok: string, s: Scanner, fs: FileSystem): (r: StepResult)
    requires |s.rest| > 0 && s.idx > 0 && AllNoNul(s.rest)
    ensures r.Next? ==> r.s.idx == 1 && |r.s.rest| < |s.rest| && Cursor(r.s)
    ensures r.Done? ==> Abort(r.o, tok)
  {
    if CharAt(tok, s.idx) != NUL then Done(Error(Garbage, Some(tok)))
    else if |s.rest| - 1 < 1 && c != 'S' then Done(Error(ArgMissing, Some(tok)))
    else Consume(c, tok, s.rest, s.(rest := s.rest[1..], idx := -1), fs)
  }

  /** One pass of the scanning loop on an argument starting with `-` (before any `--`). */
  function OptionStep(s: Scanner, fs: FileSystem): (r: StepResult)
    requires Live(s) && CharAt(s.rest[0], 0) == '-' && (s.idx == 1 || s.idx < |s.rest[0]|) && AllNoNul(s.rest)
    ensures r.Next? ==> |r.s.rest| < |s.rest| || (r.s.rest == s.rest && r.s.idx > s.idx)
    ensures r.Next? ==> Cursor(r.s)
    ensures r.Next? ==> s.files == r.s.files
    ensures r.Next? ==> r.s.rest == s.rest || r.s.rest == s.rest[1..] || r.s.rest == s.rest[2..]
    ensures r.Done? ==> Abort(r.o, s.rest[0])
  {
    var tok := s.rest[0];
    match Letter(s)
    case Quit(o) => Done(o)
    case Go(s1, want) =>
      if want then TakeArgument(CharAt(tok, s.idx), tok, s1, fs) else Next(Advance(s1))
  }

  /** One pass of the scanning loop. */
  function Step(s: Scanner, fs: FileSystem): (r: StepResult)
    requires Live(s) && (s.idx == 1 || s.idx < |s.rest[0]|) && AllNoNul(s.rest)
    ensures r.Next? ==> |r.s.rest| < |s.rest| || (r.s.rest == s.rest && r.s.idx > s.idx)
    ensures r.Next? ==> Cursor(r.s)
    ensures r.Next? ==> |r.s.files| + |r.s.rest| <= |s.files| + |s.rest|
    ensures r.Next? ==> r.s.rest == s.rest || r.s.rest == s.rest[1..] || r.s.rest == s.rest[2..]
    ensures r.Done? ==> Abort(r.o, s.rest[0])
  {
    var tok := s.rest[0];
    if CharAt(tok, 0) == '+' && !s.hadMinMin then
      if |s.parm.commands| >= MAX_ARG_CMDS then Done(Error(ExtraCmd, None))
      else Next(Advance(AddCommand(s.(idx := -1), PlusCommand(tok))))
    else if CharAt(tok, 0) == '-' && !s.hadMinMin then OptionStep(s, fs)
    else if s.parm.editType != EditNone && s.parm.editType != EditFile then
      Done(Error(TooManyArgs, Some(tok)))
    else
      Next(Advance(s.(idx := -1, parm := s.parm.(editType := EditFile), files := s.files + [tok])))
  }

  /** What is left after the loop: `v:swapcommand` is set from the first command. */
  function Finish(s: Scanner): (r: Outcome)
    ensures r.Ok? && r.params == s.parm && r.files == s.files
    ensures |s.parm.commands| > 0 ==> r.globals == s.g.(swapCommand := Some(":" + s.parm.commands[0] + "\r"))
    ensures |s.parm.commands| == 0 ==> r.globals == s.g
  {
    var g := if |s.parm.commands| > 0 then s.g.(swapCommand := Some(":" + s.parm.commands[0] + "\r")) else s.g;
    Ok(s.parm, s.files, g)
  }

  /** A state the loop can be in at the top of its body. */
  predicate Cursor(s: Scanner)
  {
    s.idx >= 1 && (s.idx > 1 ==> |s.rest| > 0 && s.idx < |s.rest[0]|) && AllNoNul(s.rest)
  }

  /** The scanning loop from state `s` to its end. */
  function Run(s: Scanner, fs: FileSystem): (r: Outcome)
    requires Cursor(s)
    ensures r.Ok? ==> |r.files| <= |s.files| + |s.rest|
    ensures r.Error? ==> (r.arg.None? <==> r.err == ExtraCmd) && (r.arg.Some? ==> r.arg.value in s.rest)
    decreases |s.rest|, Rem(s)
  {
    if |s.rest| == 0 then Finish(s)
    else
      match Step(s, fs)
      case Done(o) => o
      case Next(t) => Run(t, fs)
  }

  function Start(args: seq<string>, g0: Globals): Scanner
  {
    Scanner(args, 1, false, InitParams(), [], g0)
  }

  /** `command_line_scan` applied to the arguments after the program name. */
  function Scan(args: seq<string>, g0: Globals, fs: FileSystem): (r: Outcome)
    requires AllNoNul(args)
    ensures args == [] ==> r == Ok(InitParams(), [], g0)
    ensures r.Ok? ==> |r.files| <= |args|
    ensures r.Error? ==> (r.arg.None? <==> r.err == ExtraCmd) && (r.arg.Some? ==> r.arg.value in args)
  {
    Run(Start(args, g0), fs)
  }
}
