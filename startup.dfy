/** The decisions `main` takes between scanning the arguments and entering
    the main loop: window count and layout, the input stream, the tty check,
    which startup scripts are sourced, and running the `+`/`-c`/`-S` commands. */
module Startup {
  import opened CharUtil
  import opened MainTypes

  // ---------------------------------------------------------------------
  // Window count and layout

  /** Diff mode without a count opens one window per file (up to what
      `create_windows` can make): the unset count -1 becomes 0. */
  function DiffWindowCount(p: Params): (q: Params)
    ensures q == p.(windowCount := q.windowCount)
    ensures q.windowCount != p.windowCount ==> p.diffMode && p.windowCount == -1 && q.windowCount == 0
    ensures p.diffMode && p.windowCount == -1 ==> q.windowCount == 0
  {
    if p.diffMode && p.windowCount == -1 then p.(windowCount := 0) else p
  }

  /** `set_window_layout`: in diff mode without `-o`/`-O`/`-p`, split
      horizontally when 'diffopt' says so (`horizontal`), vertically otherwise. */
  function SetWindowLayout(p: Params, horizontal: bool): (q: Params)
    ensures q == p.(windowLayout := q.windowLayout)
    ensures q.windowLayout != p.windowLayout ==> p.diffMode && p.windowLayout == NoLayout
    ensures p.diffMode ==> q.windowLayout != NoLayout
    ensures p.diffMode && p.windowLayout == NoLayout ==> q.windowLayout == if horizontal then WinHor else WinVer
  {
    if p.diffMode && p.windowLayout == NoLayout then
      p.(windowLayout := if horizontal then WinHor else WinVer)
    else p
  }

  /** The count and layout `create_windows` asks the window code for, given
      `fileCount` file arguments: an unset count means one window, 0 means one
      per file, and several windows without a layout are split horizontally. */
  function WindowRequest(p: Params, fileCount: nat): (q: Params)
    ensures q == p.(windowCount := q.windowCount, windowLayout := q.windowLayout)
    ensures q.windowCount >= 1
    ensures p.windowCount == -1 ==> q.windowCount == 1
    ensures p.windowCount == 0 ==> q.windowCount == if fileCount == 0 then 1 else fileCount
    ensures p.windowCount > 1 ==> q.windowCount == p.windowCount
    ensures p.windowCount < -1 || p.windowCount == 1 ==> q.windowCount == 1
    ensures q.windowCount == 1 ==> q.windowLayout == p.windowLayout
    ensures q.windowCount > 1 ==> q.windowLayout != NoLayout
    ensures q.windowLayout != p.windowLayout ==> p.windowLayout == NoLayout && q.windowLayout == WinHor
  {
    var n := if p.windowCount == -1 then 1 else p.windowCount;
    var n' := if n == 0 then fileCount else n;
    if n' > 1 then
      p.(windowCount := n', windowLayout := if p.windowLayout == NoLayout then WinHor else p.windowLayout)
    else p.(windowCount := 1)
  }

  /** The count part of `create_windows`, changing the parameters step by
      step. `made` is what the window code reports after being asked for more
      than one window (the tab pages or windows it could make). */
  method CreateWindows(p: Params, fileCount: nat, made: int) returns (q: Params)
    ensures var r := WindowRequest(p, fileCount);
      q == r.(windowCount := if r.windowCount > 1 then made else 1)
  {
    var count, layout := p.windowCount, p.windowLayout;
    if count == -1 {
      count := 1;
    }
    if count == 0 {
      count := fileCount;
    }
    if count > 1 {
      if layout == NoLayout {
        layout := WinHor;
      }
      count := made;
    } else {
      count := 1;
    }
    q := p.(windowCount := count, windowLayout := layout);
  }

  /** `nvim -d a b c`: with no count and no layout given, diff mode asks for
      one window per file, split as 'diffopt' says. */
  lemma DiffModeWindows(p: Params, fileCount: nat, horizontal: bool)
    requires p.diffMode && p.windowCount == -1 && p.windowLayout == NoLayout && fileCount > 1
    ensures var q := WindowRequest(SetWindowLayout(DiffWindowCount(p), horizontal), fileCount);
      q.windowCount == fileCount && q.windowLayout == (if horizontal then WinHor else WinVer)
  {
  }

  /** Without diff mode and without `-o`/`-O`/`-p`, one window is opened
      however many files are given, and the layout stays unset. */
  lemma PlainStartOneWindow(p: Params, fileCount: nat, horizontal: bool)
    requires !p.diffMode && p.windowCount == -1
    ensures var q := WindowRequest(SetWindowLayout(DiffWindowCount(p), horizontal), fileCount);
      q.windowCount == 1 && q.windowLayout == p.windowLayout
  {
  }

  // ---------------------------------------------------------------------
  // The input stream

  datatype Stream = StdinStream | StdoutStream | StderrStream

  function IsTerminal(p: Params, st: Stream): bool
  {
    match st
    case StdinStream => p.inputIsatty
    case StdoutStream => p.outputIsatty
    case StderrStream => p.errIsatty
  }

  /** `reading_input` and the descriptor handed to `input_start_stdin`: input
      is read early unless headless or no standard stream is a terminal; stdin
      is used only when it is a terminal and not the text to edit (`-`). */
  function InputStream(p: Params): (r: Option<Stream>)
    ensures r.Some? <==> !p.headless && (p.inputIsatty || p.outputIsatty || p.errIsatty)
    ensures r == Some(StdinStream) <==> r.Some? && p.inputIsatty && p.editType != EditStdin
    ensures r.Some? && r != Some(StdinStream) ==> (r == Some(StderrStream) <==> p.errIsatty)
    ensures r.Some? ==> (IsTerminal(p, r.value) <==>
      !(p.inputIsatty && p.editType == EditStdin && !p.errIsatty && !p.outputIsatty))
  {
    if p.headless || !(p.inputIsatty || p.outputIsatty || p.errIsatty) then None
    else if !p.inputIsatty || p.editType == EditStdin then
      Some(if p.errIsatty then StderrStream else StdoutStream)
    else Some(StdinStream)
  }

  // ---------------------------------------------------------------------
  // check_tty

  datatype TtyWarning = OutputNotTerminal | InputNotTerminal

  /** What `check_tty` does: the new silent-mode flag, the warnings printed
      (in order), and whether it pauses after them. */
  datatype TtyCheck = TtyCheck(silent: bool, warnings: seq<TtyWarning>, delay: bool)

  /** `check_tty`: in Ex mode with input not from a terminal, silent mode is
      switched on; otherwise a full-screen start with neither stderr nor both
      of stdin and stdout on a terminal warns about each of stdin and stdout
      that is not a terminal, and pauses unless a `-s` script is open. */
  function CheckTty(p: Params, exmode: ExMode, silent: bool, scriptinOpen: bool): (r: TtyCheck)
    ensures p.headless ==> r == TtyCheck(silent, [], false)
    ensures r.silent <==> silent || (!p.headless && exmode != ExOff && !p.inputIsatty)
    ensures |r.warnings| > 0 <==>
      !p.headless && exmode == ExOff && p.wantFullScreen && !p.errIsatty && (!p.outputIsatty || !p.inputIsatty)
    ensures (OutputNotTerminal in r.warnings <==> |r.warnings| > 0 && !p.outputIsatty)
    ensures (InputNotTerminal in r.warnings <==> |r.warnings| > 0 && !p.inputIsatty)
    ensures r.warnings in {[], [OutputNotTerminal], [InputNotTerminal], [OutputNotTerminal, InputNotTerminal]}
    ensures r.delay <==> |r.warnings| > 0 && !scriptinOpen
  {
    if p.headless then TtyCheck(silent, [], false)
    else if exmode != ExOff then TtyCheck(silent || !p.inputIsatty, [], false)
    else if p.wantFullScreen && !p.errIsatty && (!p.outputIsatty || !p.inputIsatty) then
      var w := (if !p.outputIsatty then [OutputNotTerminal] else [])
        + (if !p.inputIsatty then [InputNotTerminal] else []);
      assert w == [OutputNotTerminal, InputNotTerminal] || w == [OutputNotTerminal] || w == [InputNotTerminal];
      TtyCheck(silent, w, !scriptinOpen)
    else TtyCheck(silent, [], false)
  }

  // ---------------------------------------------------------------------
  // Startup scripts

  /** A source of initialization commands: an environment variable executed
      as Ex commands, or a file. */
  datatype Source = Env(name: string) | File(path: string)

  /** The build's configuration of startup files. `userVimrcs` are
      USR_VIMRC_FILE to USR_VIMRC_FILE4 and `userExrcs` USR_EXRC_FILE and
      USR_EXRC_FILE2, as far as the build defines them. */
  datatype Config = Config(
    sysVimrc: Option<string>,
    userVimrcs: seq<string>,
    userExrcs: seq<string>,
    localVimrc: string,         // VIMRC_FILE
    localExrc: string)          // EXRC_FILE

  /** The result of `source_startup_scripts`: the sources tried in order, the
      'loadplugins' value and the E282 error for an unreadable `-u` file. */
  datatype Startup = Startup(tried: seq<Source>, loadPlugins: bool, cannotRead: Option<string>)

  /** The user initializations, in the order they are tried. */
  function UserChain(cfg: Config): (r: seq<Source>)
    ensures |r| == |cfg.userVimrcs| + |cfg.userExrcs| + 2
    ensures r[0] == Env("VIMINIT") && r[|cfg.userVimrcs| + 1] == Env("EXINIT")
    ensures forall i :: 0 <= i < |cfg.userVimrcs| ==> r[i + 1] == File(cfg.userVimrcs[i])
    ensures forall i :: 0 <= i < |cfg.userExrcs| ==> r[|cfg.userVimrcs| + 2 + i] == File(cfg.userExrcs[i])
  {
    [Env("VIMINIT")] + Files(cfg.userVimrcs) + [Env("EXINIT")] + Files(cfg.userExrcs)
  }

  function Files(paths: seq<string>): (r: seq<Source>)
    ensures |r| == |paths| && forall i :: 0 <= i < |paths| ==> r[i] == File(paths[i])
  {
    if paths == [] then [] else [File(paths[0])] + Files(paths[1..])
  }

  /** Try the sources of `chain` in order until one succeeds (`ok` says which
      would): the `&&` chain of `do_source`/`process_env` calls. */
  function FirstSuccess(chain: seq<Source>, ok: set<Source>): (tried: seq<Source>)
    ensures |tried| <= |chain| && tried == chain[..|tried|]
  {
    if chain == [] then []
    else if chain[0] in ok then [chain[0]]
    else [chain[0]] + FirstSuccess(chain[1..], ok)
  }

  /** The first existing startup script wins: every source before it was
      tried and failed, it is tried, and nothing after it is; when none
      exists all are tried. */
  lemma {:induction false} FirstExistingWins(chain: seq<Source>, ok: set<Source>)
    ensures var tried := FirstSuccess(chain, ok);
      && (forall i :: 0 <= i < |tried| - 1 ==> tried[i] !in ok)
      && (|tried| < |chain| ==> |tried| > 0 && tried[|tried| - 1] in ok)
      && (tried == chain || tried[|tried| - 1] in ok)
      && (exists i :: 0 <= i < |chain| && chain[i] in ok) == (|tried| > 0 && tried[|tried| - 1] in ok)
  {
    if chain != [] && chain[0] !in ok {
      FirstExistingWins(chain[1..], ok);
      var rest := FirstSuccess(chain[1..], ok);
      assert FirstSuccess(chain, ok) == [chain[0]] + rest;
      if exists i :: 0 <= i < |chain[1..]| && chain[1..][i] in ok {
        var i :| 0 <= i < |chain[1..]| && chain[1..][i] in ok;
        assert chain[i + 1] in ok;
      }
      if exists i :: 0 <= i < |chain| && chain[i] in ok {
        var i :| 0 <= i < |chain| && chain[i] in ok;
        assert i > 0 && chain[1..][i - 1] in ok;
      }
    }
  }

  /** `path_full_compare(a, b) != kEqualFiles`, with paths compared as names. */
  function Differs(a: string, names: seq<string>): bool
  {
    forall i :: 0 <= i < |names| ==> names[i] != a
  }

  /** The names the local vimrc is compared with: the first three user
      vimrcs and the system vimrc. */
  function VimrcsCompared(cfg: Config): (r: seq<string>)
    ensures Differs(cfg.localVimrc, r) <==>
      (forall i :: 0 <= i < |cfg.userVimrcs| && i < 3 ==> cfg.userVimrcs[i] != cfg.localVimrc)
      && cfg.sysVimrc != Some(cfg.localVimrc)
  {
    var user := cfg.userVimrcs[..if |cfg.userVimrcs| < 3 then |cfg.userVimrcs| else 3];
    var r := user + (if cfg.sysVimrc.Some? then [cfg.sysVimrc.value] else []);
    assert forall i :: 0 <= i < |cfg.userVimrcs| && i < 3 ==> i < |user| && r[i] == cfg.userVimrcs[i];
    assert cfg.sysVimrc.Some? ==> r[|user|] == cfg.sysVimrc.value;
    assert |r| == |user| + (if cfg.sysVimrc.Some? then 1 else 0);
    r
  }

  /** The local `.vimrc` / `.exrc` step, done only when 'exrc' is set: the
      local vimrc unless it is one of the first three user vimrcs or the
      system vimrc, and when that did not succeed, the local exrc unless it is
      one of the user exrcs. */
  function LocalScripts(cfg: Config, ok: set<Source>): (tried: seq<Source>)
    ensures forall i :: 0 <= i < |tried| ==> tried[i] in {File(cfg.localVimrc), File(cfg.localExrc)}
    ensures var vimrc := (forall i :: 0 <= i < |cfg.userVimrcs| && i < 3 ==> cfg.userVimrcs[i] != cfg.localVimrc)
                         && cfg.sysVimrc != Some(cfg.localVimrc);
      var exrc := (!vimrc || File(cfg.localVimrc) !in ok)
                  && (forall i :: 0 <= i < |cfg.userExrcs| ==> cfg.userExrcs[i] != cfg.localExrc);
      tried == (if vimrc then [File(cfg.localVimrc)] else []) + (if exrc then [File(cfg.localExrc)] else [])
  {
    var compared := VimrcsCompared(cfg);
    var vimrc := if Differs(cfg.localVimrc, compared) then [File(cfg.localVimrc)] else [];
    if |vimrc| > 0 && vimrc[0] in ok then vimrc
    else if Differs(cfg.localExrc, cfg.userExrcs) then vimrc + [File(cfg.localExrc)]
    else vimrc
  }

  /** `source_startup_scripts`. `useVimrc` is the `-u` argument, `silent`
      the silent mode of `-es`, `exrc` the 'exrc' option, `ok` the sources
      that would be found and executed. */
  function SourceStartupScripts(useVimrc: Option<string>, silent: bool, exrc: bool, loadPlugins: bool,
                                cfg: Config, ok: set<Source>): (r: Startup)
    ensures useVimrc.Some? ==> r.tried == (if useVimrc.value in ["NONE", "NORC"] then [] else [File(useVimrc.value)])
    ensures r.loadPlugins <==> loadPlugins && useVimrc != Some("NONE")
    ensures r.cannotRead.Some? <==> useVimrc.Some? && useVimrc.value !in ["NONE", "NORC"] && File(useVimrc.value) !in ok
    ensures useVimrc.None? && silent ==> r.tried == []
    ensures useVimrc.None? && !silent ==> (r.tried ==
      (if cfg.sysVimrc.Some? then [File(cfg.sysVimrc.value)] else []) + FirstSuccess(UserChain(cfg), ok)
      + (if exrc then LocalScripts(cfg, ok) else []))
  {
    match useVimrc
    case Some(u) =>
      if u == "NONE" || u == "NORC" then
        Startup([], loadPlugins && CharAt(u, 2) != 'N', None)
      else
        Startup([File(u)], loadPlugins, if File(u) in ok then None else Some(u))
    case None =>
      if silent then Startup([], loadPlugins, None)
      else
        var sys := if cfg.sysVimrc.Some? then [File(cfg.sysVimrc.value)] else [];
        var user := FirstSuccess(UserChain(cfg), ok);
        var local := if exrc then LocalScripts(cfg, ok) else [];
        Startup(sys + user + local, loadPlugins, None)
  }

  /** `-u NONE` skips every startup script and the plugins; `-u NORC` skips
      the scripts but still loads plugins. */
  lemma NoneAndNorc(silent: bool, exrc: bool, cfg: Config, ok: set<Source>)
    ensures var r := SourceStartupScripts(Some("NONE"), silent, exrc, true, cfg, ok);
      r.tried == [] && !r.loadPlugins && r.cannotRead.None?
    ensures var r := SourceStartupScripts(Some("NORC"), silent, exrc, true, cfg, ok);
      r.tried == [] && r.loadPlugins && r.cannotRead.None?
  {
  }

  /** Without `-u`, outside silent mode, at most one of the user
      initializations (VIMINIT, the user vimrcs, EXINIT, the user exrcs) is
      executed: the first that exists. */
  lemma OneUserInitialization(exrc: bool, cfg: Config, ok: set<Source>)
    ensures var tried := SourceStartupScripts(None, false, exrc, true, cfg, ok).tried;
      var sys := if cfg.sysVimrc.Some? then 1 else 0;
      var user := FirstSuccess(UserChain(cfg), ok);
      && tried[sys..sys + |user|] == user
      && (forall i :: 0 <= i < |user| - 1 ==> user[i] !in ok)
      && (|user| < |UserChain(cfg)| ==> user[|user| - 1] in ok)
  {
    var chain := UserChain(cfg);
    FirstExistingWins(chain, ok);
    var sys := if cfg.sysVimrc.Some? then [File(cfg.sysVimrc.value)] else [];
    var user := FirstSuccess(chain, ok);
    var local := if exrc then LocalScripts(cfg, ok) else [];
    assert SourceStartupScripts(None, false, exrc, true, cfg, ok).tried == sys + user + local;
    MiddleOfThree(sys, user, local);
  }

  lemma MiddleOfThree<T>(a: seq<T>, b: seq<T>, c: seq<T>)
    ensures (a + b + c)[|a|..|a| + |b|] == b
  {
  }

  // ---------------------------------------------------------------------
  // exe_commands

  /** What running the command-line commands does, in order. */
  datatype CmdEvent = RunCmd(cmd: string) | QfJump

  function RunAll(cmds: seq<string>): (r: seq<CmdEvent>)
    ensures |r| == |cmds| && forall i :: 0 <= i < |cmds| ==> r[i] == RunCmd(cmds[i])
  {
    if cmds == [] then [] else RunAll(cmds[..|cmds| - 1]) + [RunCmd(cmds[|cmds| - 1])]
  }

  /** The cursor line after executing `cmds` from line `start`; `run(l, c)` is
      the line command `c` leaves the cursor on when started on line `l`. */
  function CursorAfter(cmds: seq<string>, start: int, run: (int, string) -> int): (r: int)
    ensures (forall l, c :: run(l, c) == l) ==> r == start
  {
    if cmds == [] then start else run(CursorAfter(cmds[..|cmds| - 1], start, run), cmds[|cmds| - 1])
  }

  /** The line the commands start on: line 0, so that `nvim +/pat file` also
      matches on line 1, unless a tag was jumped to or the cursor was already
      moved past line 1 (e.g. by an autocommand). */
  function StartLine(p: Params, cursor0: int): (r: int)
    ensures r == cursor0 || (r == 0 && p.tagname.None? && cursor0 <= 1)
    ensures p.tagname.Some? || cursor0 > 1 ==> r == cursor0
    ensures p.tagname.None? && cursor0 == 1 ==> r == 0
  {
    if p.tagname.None? && cursor0 <= 1 then 0 else cursor0
  }

  /** `exe_commands`: run the commands in order, then put the cursor back on
      line 1 if it was left on line 0, and jump to the first error again for `-q`. */
  method ExeCommands(p: Params, cursor0: int, run: (int, string) -> int) returns (events: seq<CmdEvent>, cursor: int)
    ensures events == RunAll(p.commands) + (if p.editType == EditQf then [QfJump] else [])
    ensures var c := CursorAfter(p.commands, StartLine(p, cursor0), run);
      cursor == if c == 0 then 1 else c
  {
    cursor := cursor0;
    if p.tagname.None? && cursor <= 1 {
      cursor := 0;
    }
    events := [];
    for i := 0 to |p.commands|
      invariant events == RunAll(p.commands[..i])
      invariant cursor == CursorAfter(p.commands[..i], StartLine(p, cursor0), run)
    {
      assert p.commands[..i + 1][..i] == p.commands[..i];
      events := events + [RunCmd(p.commands[i])];
      cursor := run(cursor, p.commands[i]);
    }
    assert p.commands[..|p.commands|] == p.commands;
    if cursor == 0 {
      cursor := 1;
    }
    if p.editType == EditQf {
      events := events + [QfJump];
    }
  }

  /** When no command moves the cursor, `exe_commands` leaves a cursor on
      line 1 or below where it was: the temporary line 0 never survives. */
  lemma IdleCommandsLeaveCursorAlone(p: Params, cursor0: int, run: (int, string) -> int)
    requires cursor0 >= 1
    requires forall l, c :: run(l, c) == l
    ensures var c := CursorAfter(p.commands, StartLine(p, cursor0), run);
      (if c == 0 then 1 else c) == cursor0
  {
  }
}
