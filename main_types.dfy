/** The startup parameter record `mparm_T`, the editor globals the argument
    scanner sets, and the outcomes of scanning. */
module MainTypes {
  import opened CharUtil

  /** Maximum number of commands from `+`, `-c` and `-S` arguments, and of `--cmd` arguments. */
  const MAX_ARG_CMDS: nat := 10

  /** Default session file sourced by `-S` without a file argument. */
  const SESSION_FILE: string := "Session.vim"

  /** `edit_type`: at most one kind of editing target. */
  datatype EditType = EditNone | EditFile | EditStdin | EditTag | EditQf

  /** `window_layout`: 0, WIN_HOR (`-o`), WIN_VER (`-O`) or WIN_TABS (`-p`). */
  datatype Layout = NoLayout | WinHor | WinVer | WinTabs

  /** `exmode_active`: off, EXMODE_NORMAL (`-e`) or EXMODE_VIM (`-E`). */
  datatype ExMode = ExOff | ExNormal | ExVim

  datatype Params = Params(
    useVimrc: Option<string>,       // -u {vimrc}
    commands: seq<string>,          // +, -c and -S commands, in order
    preCommands: seq<string>,       // --cmd commands, in order
    editType: EditType,
    tagname: Option<string>,        // -t {tag}
    useEf: Option<string>,          // -q {errorfile}
    wantFullScreen: bool,
    inputIsatty: bool,
    outputIsatty: bool,
    errIsatty: bool,
    headless: bool,
    term: Option<string>,           // -T {terminal}
    noSwapFile: bool,               // -n
    useDebugBreakLevel: int,        // -D
    windowCount: int,               // -1: not set, 0: one per file
    windowLayout: Layout,
    diffMode: bool)                 // -d

  /** `init_params`: everything zero except the fields it sets explicitly. */
  function InitParams(): (r: Params)
    ensures r.commands == [] && r.preCommands == [] && r.editType == EditNone
    ensures r.windowCount == -1 && r.windowLayout == NoLayout && !r.diffMode
    ensures r.wantFullScreen && !r.headless && r.useDebugBreakLevel == -1
    ensures r.useVimrc.None? && r.tagname.None? && r.useEf.None? && r.term.None?
    ensures !r.noSwapFile && !r.inputIsatty && !r.outputIsatty && !r.errIsatty
  {
    Params(None, [], [], EditNone, None, None, true, false, false, false, false,
           None, false, -1, -1, NoLayout, false)
  }

  /** The editor globals and options that the argument scanner changes. */
  datatype Globals = Globals(
    exmodeActive: ExMode,
    silentMode: bool,
    recoveryMode: bool,
    readonlyMode: bool,
    restricted: bool,
    embeddedMode: bool,
    write: bool,                    // 'write' (p_write)
    loadPlugins: bool,              // 'loadplugins' (p_lpl)
    verbose: int,                   // 'verbose' (p_verbose)
    verboseFile: Option<string>,    // 'verbosefile'
    window: Option<int>,            // 'window', when set by -w{N}
    arabic: bool,                   // 'arabic'
    rightLeft: bool,                // 'rightleft'
    farsiKeymap: bool,              // p_fkmap
    hebrewKeymap: bool,             // p_hkmap
    lisp: bool,                     // 'lisp'
    showMatch: bool,                // 'showmatch'
    binary: bool,                   // 'binary' of the current buffer
    modifiable: bool,               // 'modifiable' of the current buffer
    bufReadonly: bool,              // 'readonly' of the current buffer
    updateCount: int,               // 'updatecount' (p_uc)
    viminfoFile: Option<string>,    // use_viminfo, from -i
    scriptin: Option<string>,       // scriptin[0]: the open -s file
    scriptout: Option<string>,      // scriptout: the open -w / -W file
    scriptoutAppend: bool,          // scriptout opened for appending (-w)
    swapCommand: Option<string>)    // v:swapcommand

  /** What the environment says about opening script files. */
  datatype FileSystem = FileSystem(readable: set<string>, writable: set<string>)

  /** The five `main_errors` messages, in `ME_*` order. */
  datatype MainError = UnknownOption | TooManyArgs | ArgMissing | Garbage | ExtraCmd

  function Message(e: MainError): string
  {
    match e
    case UnknownOption => "Unknown option argument"
    case TooManyArgs => "Too many edit arguments"
    case ArgMissing => "Argument missing after"
    case Garbage => "Garbage after option argument"
    case ExtraCmd => "Too many \"+command\", \"-c command\" or \"--cmd command\" arguments"
  }

  /** Ways the scan ends the process without an argument error. */
  datatype ExitReason =
    | Help                                   // -h, --help
    | Version                                // --version
    | ApiInfo                                // --api-info
    | NoGui                                  // -g
    | ScriptAgain(option: string, file: string)
    | CannotRead(file: string)               // -s {scriptin}
    | CannotWrite(file: string)              // -w / -W {scriptout}

  datatype Outcome =
    | Ok(params: Params, files: seq<string>, globals: Globals)
    | Error(err: MainError, arg: Option<string>)   // mainerr(n, str)
    | Exit(reason: ExitReason)

  /** The process exit code of an outcome that ends the process. */
  function ExitCode(o: Outcome): (r: int)
    requires !o.Ok?
    ensures r == 1 <==> o.Error?
    ensures r == 0 <==> o.Exit? && (o.reason.Help? || o.reason.Version? || o.reason.ApiInfo?)
    ensures r == 2 <==> o.Exit? && !(o.reason.Help? || o.reason.Version? || o.reason.ApiInfo?)
  {
    match o
    case Error(_, _) => 1
    case Exit(r) =>
      (match r
       case Help => 0
       case Version => 0
       case ApiInfo => 0
       case _ => 2)
  }
}
