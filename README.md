# Neovim startup, main loop and exit (`src/nvim/main.c`)

This project models the parts of Neovim's `main.c` that make decisions from
plain data:

- **Argument scanner.** `command_line_scan` (with `get_number_arg` and
  `init_params`) walks the argument vector and fills the startup parameter
  record `mparm_T`, the global file list and a set of editor globals. It
  either succeeds or stops with a `mainerr` error (exit code 1), or with a
  `usage`/`--version`/`--api-info` exit (0), or with a GUI or script-file
  failure (2). The imperative scanner `CommandLine.CommandLineScan` is proved
  to compute the step-function specification `ScanSpec.Scan`. The properties
  of that specification are proved in `ScanProps`. They cover:
  - bundled letters;
  - exclusive edit modes;
  - the capacity of ten commands;
  - `+` and `--`;
  - option values;
  - window options;
  - `v:swapcommand`.
- **Startup decisions** (`Startup`):
  - the diff-mode window count and `set_window_layout`;
  - the count and layout part of `create_windows`;
  - the stream chosen for early input;
  - `check_tty`;
  - which startup scripts `source_startup_scripts` tries, with an oracle
    saying which sources exist;
  - the cursor handling of `exe_commands`.
- **Main loop** (`MainLoopModel`): the per-pass bookkeeping of `main_loop`.
  This covers the CTRL-C latch, the CursorMoved and TextChanged shadows, the
  garbage-collect flag, and the choice between Ex commands, a Normal mode
  command and returning to `:global`. The class `MainLoop` holds the loop's
  variables and updates them in place. Each of its methods is proved against
  a function on the state value `LoopState`.
- **Exit** (`Exit`): `getout`. It covers:
  - the exit code;
  - BufWinLeave once per buffer, walking the tab pages again from the first
    one after each event, with the buffer's change tick set to -1 as the mark;
  - BufUnload for loaded buffers;
  - VimLeavePre and VimLeave under the `v:dying` guard;
  - writing the viminfo file and waiting for the user after an error.

  Autocommands are entries in an event log.

Modules: `CharUtil` (chars.dfy), `NumberArgs` (number_arg.dfy), `MainTypes`
(main_types.dfy), `ScanSpec` (scan_spec.dfy), `CommandLine`
(command_line.dfy), `ScanProps` (scan_props.dfy), `Startup` (startup.dfy),
`MainLoopModel` (main_loop.dfy) and `Exit` (getout.dfy).

Strings are C strings without NUL bytes: reading past the end of an argument
yields NUL (`CharAt`), as reading the terminating NUL does in C.

Two behaviours of the scanner are worth stating plainly:
- **Unknown long options.** An unrecognised `--word` is "Unknown option
  argument" (`src/nvim/main.c:935-937`). Only a `-` letter with nothing after
  it ends option parsing: a bare `--`, or a bundle ending in `-` such as `-n-`.
- **Values starting with `-`.** An option value that starts with `-` is
  accepted as the value of every option except `-S`. Only `-S` leaves such an
  argument alone, and then uses `Session.vim` (`src/nvim/main.c:1152-1166`).

## Model

| member | source | states |
|---|---|---|
| NumberArgs.NumberArg | src/nvim/main.c:796-805 | Without a digit at the index, the result is the default and the index is unchanged. With one, the value is the decimal value of the whole digit run, and the new index is just past its last digit. |
| NumberArgs.GetNumberArg | src/nvim/main.c:796-805 | The digit-scanning loop returns exactly `NumberArg`'s value and index. |
| MainTypes.InitParams | src/nvim/main.c:1325-1333 | The record starts with no commands and no edit type. The window count and debug break level are -1, full screen is wanted, headless is off, and no `-u`/`-t`/`-q`/`-T` value is set. The zeroed flags (`-n` and the three terminal flags) start off. |
| MainTypes.ExitCode | src/nvim/main.c:1950-1964 | An argument error exits with 1. Help, version and API info exit with 0. The GUI and script-file failures exit with 2. |
| CommandLine.CommandLineScan | src/nvim/main.c:843-1317 | The `while (argc > 0)` loop over `argv`/`argv_idx` computes exactly `ScanSpec.Scan` of the arguments. |
| CommandLine.OptionLetter | src/nvim/main.c:874-1129 | The switch on the option letter yields exactly `ScanSpec.Letter`. Only the numeric letters `-p`/`-o`/`-O`/`-V`/`-w` are step-by-step code here, with the `get_number_arg` loop; every other letter is computed by the function `ScanSpec.TableLetter`. |
| CommandLine.OptionValue | src/nvim/main.c:1134-1257 | The handling of an option that wants a value yields exactly `ScanSpec.TakeArgument`. |
| ScanSpec.FlagLetter | src/nvim/main.c:944-1105 | The letters that only set a flag are exactly A b e E f F H l M m N n R r L D d X Z. They never touch the command lists, the edit type or the window count. |
| ScanSpec.NumericLetter | src/nvim/main.c:1006-1032 | `-p`/`-o`/`-O`/`-V`/`-w` never fail. They never move the cursor back, and never touch the command lists or the edit type. |
| ScanSpec.LongOption | src/nvim/main.c:890-942 | A long option that succeeds keeps the command lists and the edit type. A value is wanted only after a (case-folded) `cmd` or `startuptime`, with the cursor just past that name. A failing long option ends the scan with its argument named in the error. |
| ScanSpec.EditLetter | src/nvim/main.c:877-888 | For `-` (outside Ex mode), `-q` and `-t`: fails with "Too many edit arguments" exactly when an edit type is already chosen, and otherwise moves the edit type only from none to stdin, quickfix or tag. |
| ScanSpec.TableLetter | src/nvim/main.c:874-1129 | Any other letter adds at most one command, and only within the capacity. It never touches the pre-commands. It changes the edit type only from none. |
| ScanSpec.PlainLetter | src/nvim/main.c:944-1129 | A letter other than `-`, `q`, `t` and the numeric ones never changes the files, the remaining arguments, the edit type or the pre-commands. It adds at most one command, the rest of the argument, and only within the capacity. A failure names the argument. |
| ScanSpec.PlusCommand | src/nvim/main.c:861-868 | `+X` gives the command `X` (the argument without its `+`); a bare `+` gives `$`. |
| ScanSpec.Consume | src/nvim/main.c:1146-1257 | Taking the value consumes one argument (or none for `-S` before an option), keeps the files, the edit type and `had_minmin`, and only appends to the command lists. It fails only with "Too many ...", which names no argument. |
| ScanSpec.Letter | src/nvim/main.c:874-1129 | A letter that goes on leaves the cursor on a letter of the argument or marks the argument done. |
| ScanSpec.TakeArgument | src/nvim/main.c:1134-1145 | After a value is taken, the scanner is at the start of a later argument. |
| ScanSpec.OptionStep | src/nvim/main.c:873-1257 | A `-` argument either consumes arguments or moves to a later letter of the same argument. |
| ScanSpec.Step | src/nvim/main.c:857-1307 | Each pass consumes arguments or moves to a later letter, which bounds the scan. Files only move from the remaining arguments to the file list. |
| ScanSpec.Finish | src/nvim/main.c:1312-1316 | The scan's result is the parameter record and file list as scanned. `v:swapcommand` becomes `":" + commands[0] + "\r"` when there is a command, and the globals are otherwise unchanged. |
| ScanSpec.Run | src/nvim/main.c:857-1316 | A successful scan has no more files than arguments. An error names an argument of the vector, except "Too many ...", which names none. |
| ScanSpec.Scan | src/nvim/main.c:843-1316 | No arguments give the initial parameters, no files and unchanged globals. A successful scan has no more files than arguments. An error names one of the arguments, except "Too many ...", which names none. |
| ScanProps.StepKeepsInv | src/nvim/main.c:857-1307 | A pass keeps at most 10 commands and 10 pre-commands and keeps files exactly for the file-list edit type. It never changes an edit type once chosen. |
| ScanProps.RunResult | src/nvim/main.c:857-1316 | From any valid state, a successful scan keeps those bounds and keeps an edit type that was already chosen. |
| ScanProps.ScanResult | src/nvim/main.c:857-1316 | A successful scan has at most 10 commands and 10 pre-commands. It has files exactly when editing the file list. `v:swapcommand` is `":" + commands[0] + "\r"`. |
| ScanProps.BundleAppliesEveryLetter | src/nvim/main.c:1298-1307 | In a bundle such as `-nR`, every flag letter is applied in order before the scanner goes to the next argument. |
| ScanProps.SecondEditModeFails | src/nvim/main.c:877-888 | Once an edit type is chosen, `-q`, `-t` and `-` (outside Ex mode) fail with "Too many edit arguments". |
| ScanProps.FileArgument | src/nvim/main.c:1262-1294 | A file name fails, with "Too many edit arguments", if and only if the edit type is neither none nor file list. Otherwise it is appended to the file list and the type becomes file list. |
| ScanProps.PlusArgument | src/nvim/main.c:861-868 | A bare `+` records `$` and `+X` records `X`. An eleventh command is "Too many ..." and is never dropped silently. |
| ScanProps.AfterMinMinAllFiles | src/nvim/main.c:1262-1294 | After `--`, every argument, including ones starting with `-` or `+`, is appended to the file list in order. |
| ScanProps.MinMinThenFiles | src/nvim/main.c:890-942 | `nvim -- a b ...` scans to the initial parameters with edit type file list and the files `a b ...`. |
| ScanProps.KnownLong | src/nvim/main.c:897-938 | The names the scanner recognises after `--`; none of them is empty, so a bare `--` is never taken as one. |
| ScanProps.UnknownLongOption | src/nvim/main.c:935-938 | An unknown `--word` is "Unknown option argument", and a bare `--` sets `had_minmin`. |
| ScanProps.ValueOptionEnd | src/nvim/main.c:1034-1105 | Where the letters of an option that wants a separate value end: after `--cmd` and `--startuptime`, after `-i`/`-r`/`-T`/`-u`/`-U`/`-W`, after `-s` outside Ex mode, and after `-w` without a digit. The end lies after the cursor and within the argument. |
| ScanProps.LongValueOption | src/nvim/main.c:929-935 | `--cmd` and `--startuptime` want a value and leave the cursor just after their name. |
| ScanProps.ValueOptionWants | src/nvim/main.c:874-1129 | Every such option wants a value, with the cursor at `ValueOptionEnd`, and changes nothing else. |
| ScanProps.GarbageAfterOption | src/nvim/main.c:1134-1139 | Letters after any option that wants a separate value (including `-s` outside Ex mode, `-w` without a digit, `--cmd` and `--startuptime`) are "Garbage after option argument". |
| ScanProps.ArgumentMissing | src/nvim/main.c:1141-1158 | Any option that wants a separate value (including `-s` outside Ex mode, `-w` without a digit, `--cmd`, `--startuptime`, and `-c`/`-t` with nothing after them) at the end of the vector is "Argument missing after". The exception is `-S`, which records `so Session.vim`, or, with ten commands already, is "Too many ...". |
| ScanProps.SessionBeforeOption | src/nvim/main.c:1152-1170 | `-S` followed by an option records `so Session.vim` and leaves that option for the next pass. With ten commands already, it is "Too many ...". |
| ScanProps.CommandArgument | src/nvim/main.c:1148-1174 | `-c {cmd}` and `-S {file}` record the command or `so {file}` and consume the next argument. At capacity, the result is "Too many ...". |
| ScanProps.InlineValue | src/nvim/main.c:1034-1043 | `-c{cmd}`, `-t{tag}` and `-q{file}` take the rest of the argument as the value and do not consume the next one. |
| ScanProps.InlineCAtCapacity | src/nvim/main.c:1107-1111 | `-c{cmd}` at capacity is "Too many ...". |
| ScanProps.PreCommandArgument | src/nvim/main.c:1176-1185 | `--cmd {cmd}` appends to the pre-commands, and an eleventh is "Too many ...". |
| ScanProps.TooManyDashC | src/nvim/main.c:1148-1151 | Repeated `-c cmd` pairs that go past the capacity end the scan with "Too many ...". |
| ScanProps.ElevenDashC | src/nvim/main.c:1148-1151 | Any vector of more than ten `-c cmd` pairs fails with "Too many ...". |
| ScanProps.WindowOption | src/nvim/main.c:1006-1032 | `-oN`, `-ON` and `-pN` set the window count to N (0 without digits) and the layout to horizontal, vertical or tabs. |
| ScanProps.FilesOnly | src/nvim/main.c:1262-1294 | Arguments that are neither options nor `+` commands are all edited, in order. |
| ScanProps.TabsExample | src/nvim/main.c:1006-1020 | `-p3 file1 file2 file3` gives three tab pages for the three files. |
| ScanProps.HelpAndVersionExit | src/nvim/main.c:897-905 | `-h`, `--help` and `--version` end the scan with exit code 0, whatever follows them. |
| Startup.DiffWindowCount | src/nvim/main.c:222-223 | Only the window count changes, and only from -1 to 0 in diff mode, where it always does. |
| Startup.SetWindowLayout | src/nvim/main.c:1383-1391 | Only a missing layout in diff mode changes. It becomes horizontal when 'diffopt' says so and vertical otherwise, and afterwards diff mode always has a layout. |
| Startup.WindowRequest | src/nvim/main.c:1508-1520 | An unset count becomes 1 and 0 becomes the file count (at least 1). Several windows without a layout are split horizontally. A count of 1 stays 1, and a single window keeps its layout. Nothing else changes. |
| Startup.CreateWindows | src/nvim/main.c:1508-1527 | The step-by-step update gives `WindowRequest`'s layout. The count is what the window code made when more than one window was asked for, and 1 otherwise. |
| Startup.DiffModeWindows | src/nvim/main.c:222-223 | `nvim -d` with several files asks for one window per file, split as 'diffopt' says. |
| Startup.PlainStartOneWindow | src/nvim/main.c:1508-1527 | Without diff mode and without `-o`/`-O`/`-p`, one window is opened and no layout is set. |
| Startup.InputStream | src/nvim/main.c:271-285 | Early input is read exactly when not headless and some standard stream is a terminal. Stdin is used exactly when it is a terminal and not the text to edit. Otherwise stderr is used if it is a terminal, else stdout. |
| Startup.CheckTty | src/nvim/main.c:1445-1475 | Headless changes nothing. In Ex mode, input that is not a terminal turns on silent mode. Otherwise, warnings appear exactly for a full-screen start with stderr not a terminal, at most one for each of stdout and stdin that is not one, stdout's first. A pause follows the warnings unless a `-s` script is open. |
| Startup.UserChain | src/nvim/main.c:1793-1822 | The user chain is `VIMINIT`, the user vimrc files in order, `EXINIT`, then the user exrc files in order. |
| Startup.FirstSuccess | src/nvim/main.c:1803-1821 | The sources tried are a prefix of the chain. |
| Startup.FirstExistingWins | src/nvim/main.c:1793-1822 | In the user initializations, every source before the first existing one is tried and fails, and nothing after it is tried. When none exists, all are tried. |
| Startup.SourceStartupScripts | src/nvim/main.c:1774-1867 | `-u NONE`/`-u NORC` try no script, and `NONE` also turns off plugins. Another `-u` file is the only script, and reports E282 exactly when it cannot be read. Silent Ex mode tries nothing. Otherwise the order is the system vimrc, the user chain and the local scripts. |
| Startup.NoneAndNorc | src/nvim/main.c:1774-1779 | `-u NONE` skips all scripts and plugins. `-u NORC` skips the scripts but keeps plugins. |
| Startup.OneUserInitialization | src/nvim/main.c:1793-1822 | At most one user initialization runs: the first that exists. |
| Startup.VimrcsCompared | src/nvim/main.c:1841-1856 | The local `.vimrc` differs from every name it is compared with exactly when it names none of the first three user vimrc files and not the system vimrc. |
| Startup.LocalScripts | src/nvim/main.c:1824-1863 | With 'exrc', exactly these are tried, in order: the local `.vimrc` unless it names one of the first three user vimrc files or the system vimrc; then the local `.exrc` when the `.vimrc` was skipped or did not succeed, and it names no user exrc file. |
| Startup.StartLine | src/nvim/main.c:1740-1741 | With a tag, or past line 1, the cursor stays where it is. Without a tag, a cursor on line 1 moves to line 0. It never moves anywhere but line 0. |
| Startup.RunAll | src/nvim/main.c:1744-1748 | Every command is run once, in order. |
| Startup.CursorAfter | src/nvim/main.c:1744-1748 | Commands that never move the cursor leave it where it started. |
| Startup.ExeCommands | src/nvim/main.c:1730-1760 | The commands run in order from line 0 (unless there is a tag or an earlier move). A cursor left on line 0 goes to line 1, and `-q` jumps to the first error again. |
| Startup.IdleCommandsLeaveCursorAlone | src/nvim/main.c:1739-1752 | When no command moves the cursor, a cursor on line 1 or later ends where it started, including line 1, which goes to 0 and back. |
| MainLoopModel.Latch | src/nvim/main.c:536-549 | `previous_got_int` records whether this pass saw CTRL-C. The mode changes, to Ex mode with `got_int` kept, exactly under `:g/pat/visual` with two CTRL-C in a row. `got_int` otherwise stays only while `:g` runs in Ex mode. Typeahead is flushed when `got_int` is reset, unless in the more prompt. |
| MainLoopModel.CursorCheck | src/nvim/main.c:564-578 | CursorMoved fires exactly when such autocommands exist and the cursor differs from the last one seen. That position is updated whenever CursorMoved or conceal is active. |
| MainLoopModel.TickCheck | src/nvim/main.c:580-589 | When the change tick differs, TextChanged fires only if the last tick was seen in the same buffer, and the tick and buffer are then remembered. When it is unchanged, nothing changes. |
| MainLoopModel.Redraws | src/nvim/main.c:560-562 | A pass redraws exactly outside `skip_redraw` and Ex mode when `do_redraw` is set or the stuff buffer is empty. |
| MainLoopModel.Autocmds | src/nvim/main.c:560-589 | Right after `:` in wait_return and in Ex mode, only `skip_redraw` is reset. A redrawing pass does the cursor and tick checks and clears `do_redraw`. |
| MainLoopModel.DispatchFor | src/nvim/main.c:692-697 | Returns exactly in Ex mode under `:g/pat/visual`. Runs a Normal command exactly outside Ex mode, and Vim-style Ex commands exactly for `-E`. |
| MainLoopModel.LoopStep | src/nvim/main.c:536-697 | A pass only appends to the event log and always leaves `skip_redraw` off. It returns only with `noexmode` set and in Ex mode. |
| MainLoopModel.LoopSteps | src/nvim/main.c:511-698 | Passes only append to the event log, and the loop returns only with `noexmode` set. |
| MainLoopModel.MainLoop.constructor | src/nvim/main.c:497-508 | `previous_got_int` starts false, and the other variables keep the globals' values. |
| MainLoopModel.MainLoop.Iterate | src/nvim/main.c:536-697 | A pass updates the fields to `LoopStep` of the old state and returns its dispatch. |
| MainLoopModel.MainLoop.CheckInterrupt | src/nvim/main.c:536-549 | The fields become `Latch` of the old state. |
| MainLoopModel.MainLoop.CheckRedraw | src/nvim/main.c:560-589 | The fields become `Autocmds` of the old state. |
| MainLoopModel.MainLoop.CheckCursorMoved | src/nvim/main.c:564-578 | The fields become `CursorCheck` of the old state. |
| MainLoopModel.MainLoop.CheckTextChanged | src/nvim/main.c:580-589 | The fields become `TickCheck` of the old state. |
| MainLoopModel.MainLoop.RunLoop | src/nvim/main.c:511-698 | Passes run until one returns, ending in `LoopSteps` of the old state. |
| MainLoopModel.TwoInterruptsLeaveGlobal | src/nvim/main.c:536-549 | Under `:g/pat/visual`, a first CTRL-C is absorbed. A second one in the next pass goes to Ex mode with `got_int` kept and returns. |
| MainLoopModel.InterruptAbsorbedOutsideGlobal | src/nvim/main.c:536-549 | Outside `:g`, CTRL-C never survives into the command and never changes the mode. |
| MainLoopModel.GarbageCollectAtTopLevel | src/nvim/main.c:687 | `may_garbage_collect` holds exactly outside the command-line window and outside `:g/pat/visual`. |
| MainLoopModel.StepAppendsPassEvents | src/nvim/main.c:536-589 | A pass only appends to the event log, and exactly its `PassEvents`. |
| MainLoopModel.EventsInPassOrder | src/nvim/main.c:536-589 | A pass causes each event at most once: a flush, then CursorMoved, then TextChanged. |
| MainLoopModel.NoRepeatWithoutChange | src/nvim/main.c:564-589 | After a redrawing pass, a pass with the same cursor, buffer and tick fires neither CursorMoved nor TextChanged. |
| MainLoopModel.TextChangedNeedsKnownBuffer | src/nvim/main.c:580-589 | The first tick seen in a buffer fires nothing, and a later change there fires TextChanged once. |
| MainLoopModel.DispatchRule | src/nvim/main.c:692-697 | After the latch, a pass returns exactly in Ex mode under `:g/pat/visual` and runs Normal mode exactly outside Ex mode. Ex mode is entered only through the latch's escalation. |
| Exit.LeaveOrder | src/nvim/main.c:721-741 | The walk fires at most one event per unmarked buffer, and none exactly when no window shows an unmarked buffer. |
| Exit.LeaveSound | src/nvim/main.c:721-741 | Every BufWinLeave is for a buffer shown in a window and not yet marked. |
| Exit.LeaveOncePerBuffer | src/nvim/main.c:721-741 | BufWinLeave fires at most once per buffer. |
| Exit.LeaveComplete | src/nvim/main.c:721-741 | Every unmarked buffer shown in some window gets BufWinLeave. |
| Exit.FirstUnmarkedWindow | src/nvim/main.c:725-739 | Finds the first window of a tab page whose buffer is unmarked, skipping windows without a buffer. |
| Exit.BufWinLeaveAll | src/nvim/main.c:721-741 | The restarting walk fires exactly `LeaveOrder`: each time, the first buffer in tab-page and window order that is not yet marked. It sets the tick of exactly those buffers to -1 and leaves the others. |
| Exit.UnloadOrder | src/nvim/main.c:743-751 | BufUnload goes to at most one buffer per list entry. |
| Exit.UnloadStopsAtDeleted | src/nvim/main.c:743-751 | BufUnload goes to exactly the loaded buffers, in list order, up to and including the first one whose autocommands delete it, and to none after it. |
| Exit.BufUnloadAll | src/nvim/main.c:743-751 | The buffer-list walk fires exactly `UnloadOrder`. |
| Exit.UnloadLoaded | src/nvim/main.c:743-751 | Every BufUnload is for a loaded buffer. When no autocommand deletes its buffer, every loaded buffer gets one. |
| Exit.ExitLog | src/nvim/main.c:721-779 | When not dying, the log starts with the BufWinLeave events in order, then the BufUnload events in order. No buffer event follows them, and none occurs at all when dying. |
| Exit.Getout | src/nvim/main.c:703-781 | In Ex mode the exit code is `exitval + ex_exitval`. The log is: BufWinLeave, BufUnload and VimLeavePre when `v:dying <= 1`; then viminfo; VimLeave when `v:dying <= 1`; wait_return after an error; then garbage collection. When not dying, exactly the buffers that got BufWinLeave have their tick set to -1; when dying, the marks are left untouched. |
| Exit.LeaveEventsOnlyWhenNotDying | src/nvim/main.c:721-760 | VimLeavePre and VimLeave fire exactly when `v:dying <= 1`, VimLeavePre right after the buffer events and VimLeave after it. No buffer event fires while dying. |

## Left out

- Printing, the help and version text, the msgpack dump of `--api-info` and
  `mch_exit`: these are outcome values (`Exit(Help)`, ...) with their exit
  codes.
- Opening files for `-s`, `-w`/`-W` and `--startuptime`: the `FileSystem`
  oracle says which opens succeed, and `--startuptime` only consumes its value.
- The file argument path:
  - the diff-mode directory join (`os_isdir`, `concat_fnames`),
  - `fname_case`,
  - the non-UNIX wildcard expansion of `--literal`.
  A file name is added to the list as given.
- The macOS `-psn` branch of `-p`, which is platform-conditional.
- `Pos` (in the main loop) is a line and column only; the `coladd` that
  `equalpos` also compares (`src/nvim/main.c:569`) is not modelled.
- ScanProps.ValueOptionEnd covers `--cmd` and `--startuptime` spelled in
  lower case only; the scanner itself (`ScanSpec.LongOption`) matches them
  case-insensitively.
- `atoi` overflow in `get_number_arg`: numbers are unbounded integers.
- Case-insensitive long-option matching folds ASCII letters only, not the
  locale's `tolower`.
- The option setters (`set_option_value`, `set_options_bin`,
  `reset_modifiable`): they become fields of the `Globals` record.
- `cmds_tofree`: memory management with no observable effect here.
- The build's file names: `SYS_VIMRC_FILE`, `USR_VIMRC_FILE*`,
  `USR_EXRC_FILE*`, `VIMRC_FILE` and `EXRC_FILE` are defined outside
  `main.c` and come in as the `Config` parameter. `Session.vim` is the
  `SESSION_FILE` constant.
- Startup scripts:
  - `do_source` and `process_env` are the `ok` oracle, which says which
    sources exist and run;
  - `path_full_compare` is modelled as equality of names;
  - `file_owned` and the 'secure' flag it sets, and the
    `need_wait_return` that follows from it, are not modelled.
- `exe_pre_commands` and the body of every Ex command: a command's effect on
  the cursor is the `run` oracle of `ExeCommands`.
- `make_windows`, `make_tabpages` and `win_count`: the count they return is
  the `made` parameter of `CreateWindows`.
- The rest of `create_windows` (recovery, `do_ecmd`, swap-file dialogs), the
  rest of `main`, `edit_buffers`, `load_plugins`, `handle_quickfix` and
  `handle_tag`.
- Main loop:
  - Timestamp checks, `need_wait_return`, `need_start_insertmode`, the redraw
    itself (folds, conceal line updates, messages, the ruler, `msg_scroll`)
    and `time_fd` are UI and timing.
  - Running the Ex or Normal command is the returned `Dispatch`.
  - The command-line window's exit condition (`cmdwin_result`) is left to
    the caller: `RunLoop` runs one pass per given `World`.
  - Autocommands fired by the loop do not move the cursor or change the
    current buffer or its change tick within a pass: one `World` is read
    before CursorMoved fires, while the code re-reads them afterwards
    (`src/nvim/main.c:578`, `582-588`). A CursorMoved autocommand that moves the
    cursor is therefore not captured.
- Exit:
  - Autocommand bodies are not modelled; in particular they do not change
    the tab pages or windows during the BufWinLeave walk, so the restart only
    re-reads the same layout.
  - Deleting a buffer during BufUnload is the `deletes` oracle.
  - The cursor placement, `hash_debug_results`, `profile_dump`, `cs_end`,
    `iconv_end` and `mch_exit` are left out.
