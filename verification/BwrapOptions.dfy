/** The option language of bwrap, as far as the sandbox launcher uses it, and the options it asks for. */
module BwrapOptions {
  import opened Wrappers
  import opened Sequences

  datatype Flag =
    | RoBindFlag | BindFlag | DevBindFlag | DevFlag | ProcFlag | TmpfsFlag
    | UnsharePidFlag | UnshareIpcFlag | UnshareNetFlag
    | SetenvFlag | UnsetenvFlag | DieWithParentFlag | NewSessionFlag

  function Spelling(flag: Flag): string {
    match flag
    case RoBindFlag => "--ro-bind"
    case BindFlag => "--bind"
    case DevBindFlag => "--dev-bind"
    case DevFlag => "--dev"
    case ProcFlag => "--proc"
    case TmpfsFlag => "--tmpfs"
    case UnsharePidFlag => "--unshare-pid"
    case UnshareIpcFlag => "--unshare-ipc"
    case UnshareNetFlag => "--unshare-net"
    case SetenvFlag => "--setenv"
    case UnsetenvFlag => "--unsetenv"
    case DieWithParentFlag => "--die-with-parent"
    case NewSessionFlag => "--new-session"
  }

  function Arity(flag: Flag): nat {
    match flag
    case RoBindFlag => 2
    case BindFlag => 2
    case DevBindFlag => 2
    case SetenvFlag => 2
    case DevFlag => 1
    case ProcFlag => 1
    case TmpfsFlag => 1
    case UnsetenvFlag => 1
    case _ => 0
  }

  datatype Opt =
    | RoBind(src: string, dst: string)
    | Bind(src: string, dst: string)
    | DevBind(src: string, dst: string)
    | Dev(dst: string)
    | Proc(dst: string)
    | Tmpfs(dst: string)
    | UnsharePid
    | UnshareIpc
    | UnshareNet
    | Setenv(name: string, value: string)
    | Unsetenv(name: string)
    | DieWithParent
    | NewSession
  {
    function Flag(): Flag {
      match this
      case RoBind(_, _) => RoBindFlag
      case Bind(_, _) => BindFlag
      case DevBind(_, _) => DevBindFlag
      case Dev(_) => DevFlag
      case Proc(_) => ProcFlag
      case Tmpfs(_) => TmpfsFlag
      case UnsharePid => UnsharePidFlag
      case UnshareIpc => UnshareIpcFlag
      case UnshareNet => UnshareNetFlag
      case Setenv(_, _) => SetenvFlag
      case Unsetenv(_) => UnsetenvFlag
      case DieWithParent => DieWithParentFlag
      case NewSession => NewSessionFlag
    }

    function Operands(): (operands: seq<string>)
      ensures |operands| == Arity(Flag())
    {
      match this
      case RoBind(src, dst) => [src, dst]
      case Bind(src, dst) => [src, dst]
      case DevBind(src, dst) => [src, dst]
      case Dev(dst) => [dst]
      case Proc(dst) => [dst]
      case Tmpfs(dst) => [dst]
      case Setenv(name, value) => [name, value]
      case Unsetenv(name) => [name]
      case _ => []
    }

    function Print(): seq<string> {
      [Spelling(Flag())] + Operands()
    }
  }

  function Make(flag: Flag, operands: seq<string>): Opt
    requires |operands| == Arity(flag)
  {
    match flag
    case RoBindFlag => RoBind(operands[0], operands[1])
    case BindFlag => Bind(operands[0], operands[1])
    case DevBindFlag => DevBind(operands[0], operands[1])
    case DevFlag => Dev(operands[0])
    case ProcFlag => Proc(operands[0])
    case TmpfsFlag => Tmpfs(operands[0])
    case UnsharePidFlag => UnsharePid
    case UnshareIpcFlag => UnshareIpc
    case UnshareNetFlag => UnshareNet
    case SetenvFlag => Setenv(operands[0], operands[1])
    case UnsetenvFlag => Unsetenv(operands[0])
    case DieWithParentFlag => DieWithParent
    case NewSessionFlag => NewSession
  }

  // ---- printing and parsing ----

  function PrintAll(opts: seq<Opt>): seq<string> {
    if opts == [] then [] else PrintAll(opts[..|opts| - 1]) + opts[|opts| - 1].Print()
  }

  const END := "--"

  function Argv(opts: seq<Opt>, command: string): seq<string> {
    ["bwrap"] + PrintAll(opts) + [END, "/bin/sh", "-c", command]
  }

  const FLAGS: seq<Flag> := [
    RoBindFlag, BindFlag, DevBindFlag, DevFlag, ProcFlag, TmpfsFlag, UnsharePidFlag, UnshareIpcFlag, UnshareNetFlag,
    SetenvFlag, UnsetenvFlag, DieWithParentFlag, NewSessionFlag]

  /** The flag spelled this way, looked up in a list. */
  function FlagOf(text: string, flags: seq<Flag>): Option<Flag> {
    if flags == [] then None else if Spelling(flags[0]) == text then Some(flags[0]) else FlagOf(text, flags[1..])
  }

  /** What bwrap makes of its arguments, given the flags it knows: options by their number of operands up
      to "--", then the command. */
  datatype Parsed = Parsed(opts: seq<Opt>, command: seq<string>)

  function Parse(args: seq<string>, flags: seq<Flag>): Option<Parsed>
    decreases |args|
  {
    if args == [] then None
    else if args[0] == END then Some(Parsed([], args[1..]))
    else
      var flag := FlagOf(args[0], flags);
      if flag.None? || |args| < 1 + Arity(flag.value) then None
      else
        var n := Arity(flag.value);
        var rest := Parse(args[1 + n..], flags);
        if rest.None? then None
        else Some(Parsed([Make(flag.value, args[1..1 + n])] + rest.value.opts, rest.value.command))
  }

  // ---- the round trip ----

  /** Three traits of a spelling that tell any two flags apart. */
  datatype Traits = Traits(length: nat, fourth: char, last: char)

  function TraitsOf(text: string): Traits
    requires |text| > 3
  {
    Traits(|text|, text[3], text[|text| - 1])
  }

  lemma FlagTraits(flag: Flag)
    ensures |Spelling(flag)| > 3
    ensures TraitsOf(Spelling(flag)) ==
      match flag
      case RoBindFlag => Traits(9, 'o', 'd')
      case BindFlag => Traits(6, 'i', 'd')
      case DevBindFlag => Traits(10, 'e', 'd')
      case DevFlag => Traits(5, 'e', 'v')
      case ProcFlag => Traits(6, 'r', 'c')
      case TmpfsFlag => Traits(7, 'm', 's')
      case UnsharePidFlag => Traits(13, 'n', 'd')
      case UnshareIpcFlag => Traits(13, 'n', 'c')
      case UnshareNetFlag => Traits(13, 'n', 't')
      case SetenvFlag => Traits(8, 'e', 'v')
      case UnsetenvFlag => Traits(10, 'n', 'v')
      case DieWithParentFlag => Traits(17, 'i', 't')
      case NewSessionFlag => Traits(13, 'e', 'n')
  {
  }

  lemma SpellingsDiffer(a: Flag, b: Flag)
    ensures Spelling(a) == Spelling(b) <==> a == b
    ensures Spelling(a) != END
  {
    FlagTraits(a);
    FlagTraits(b);
  }

  lemma {:induction false} FlagOfSpelling(flag: Flag, flags: seq<Flag>)
    requires flag in flags
    ensures FlagOf(Spelling(flag), flags) == Some(flag)
  {
    SpellingsDiffer(flags[0], flag);
    if flags[0] != flag {
      FlagOfSpelling(flag, flags[1..]);
    }
  }

  lemma EveryFlagListed(flag: Flag)
    ensures flag in FLAGS
  {
    assert FLAGS[0] == RoBindFlag && FLAGS[1] == BindFlag && FLAGS[2] == DevBindFlag && FLAGS[3] == DevFlag;
    assert FLAGS[4] == ProcFlag && FLAGS[5] == TmpfsFlag && FLAGS[6] == UnsharePidFlag && FLAGS[7] == UnshareIpcFlag;
    assert FLAGS[8] == UnshareNetFlag && FLAGS[9] == SetenvFlag && FLAGS[10] == UnsetenvFlag;
    assert FLAGS[11] == DieWithParentFlag && FLAGS[12] == NewSessionFlag;
  }

  ghost predicate ParsesTo(args: seq<string>, flags: seq<Flag>, opts: seq<Opt>, command: seq<string>) {
    Parse(args, flags) == Some(Parsed(opts, command))
  }

  lemma ParseOne(opt: Opt, rest: seq<string>, flags: seq<Flag>, opts: seq<Opt>, command: seq<string>)
    requires opt.Flag() in flags && ParsesTo(rest, flags, opts, command)
    ensures ParsesTo(opt.Print() + rest, flags, [opt] + opts, command)
  {
    SpellingsDiffer(opt.Flag(), opt.Flag());
    FlagOfSpelling(opt.Flag(), flags);
    var args := opt.Print() + rest;
    assert args[1..1 + Arity(opt.Flag())] == opt.Operands();
    assert args[1 + Arity(opt.Flag())..] == rest;
  }

  lemma {:induction false} ParsePrinted(printed: seq<Opt>, rest: seq<string>, flags: seq<Flag>, opts: seq<Opt>,
                                        command: seq<string>)
    requires forall o | o in printed :: o.Flag() in flags
    requires ParsesTo(rest, flags, opts, command)
    ensures ParsesTo(PrintAll(printed) + rest, flags, printed + opts, command)
    decreases |printed|
  {
    hide ParsesTo;
    if printed == [] {
      assert [] + rest == rest && [] + opts == opts;
    } else {
      var front, last := printed[..|printed| - 1], printed[|printed| - 1];
      ParseOne(last, rest, flags, opts, command);
      ParsePrinted(front, last.Print() + rest, flags, [last] + opts, command);
      Regroup(PrintAll(front), last.Print(), rest);
      assert printed == front + [last];
      Regroup(front, [last], opts);
    }
  }

  lemma ParseEnd(command: seq<string>)
    ensures ParsesTo([END] + command, FLAGS, [], command)
  {
    assert ([END] + command)[1..] == command;
  }

  lemma ArgvTail(opts: seq<Opt>, command: string)
    ensures Argv(opts, command)[1..] == PrintAll(opts) + ([END] + ["/bin/sh", "-c", command])
  {
    hide PrintAll, END;
    assert Argv(opts, command) == ["bwrap"] + (PrintAll(opts) + ([END] + ["/bin/sh", "-c", command]));
  }

  /** Whatever the operands and the command are, even strings that look like options, the argument
      vector says exactly the intended options and the intended command. */
  lemma ParseArgv(opts: seq<Opt>, command: string)
    ensures Parse(Argv(opts, command)[1..], FLAGS) == Some(Parsed(opts, ["/bin/sh", "-c", command]))
  {
    hide Parse, PrintAll, Argv, FLAGS, END;
    var shell := ["/bin/sh", "-c", command];
    ParseEnd(shell);
    forall o | o in opts ensures o.Flag() in FLAGS {
      EveryFlagListed(o.Flag());
    }
    ParsePrinted(opts, [END] + shell, FLAGS, [], shell);
    ArgvTail(opts, command);
    assert opts + [] == opts;
  }

  // ---- the options of one launch ----

  /** The fields of the sandbox configuration; `networkNamespace` is whether one is named. */
  datatype Sandbox = Sandbox(workspacePath: Option<string>, networkNamespace: bool, isolatePid: bool, isolateIpc: bool,
                             isolateFilesystem: bool, bindHomeRw: bool, extraBindPaths: seq<Option<string>>)

  /** What the launcher reads: the compositor, the environment, and how D-Bus is to be reached. */
  datatype Launch = Launch(
    sandbox: Option<Sandbox>,
    socket: Option<string>,          // the compositor's Wayland socket
    xwaylandDisplay: Option<string>,
    xdgRuntime: Option<string>,      // XDG_RUNTIME_DIR
    home: Option<string>,            // HOME
    busProxy: Option<string>,        // the proxy's socket, "" if it failed, None if not asked for
    busExists: bool)                 // whether the session bus socket is there
  {
    predicate Isolated() {
      sandbox.Some? && sandbox.value.isolateFilesystem
    }
  }

  const PATH_MAX := 4096

  /** snprintf into a buffer of this size. */
  function Fit(text: string, size: nat): string
    requires size > 0
  {
    if |text| < size then text else text[..size - 1]
  }

  function BusPath(runtime: string): string { Fit(runtime + "/bus", PATH_MAX) }
  function SocketPath(runtime: string, socket: string): string { Fit(runtime + "/" + socket, PATH_MAX) }
  function LockPath(runtime: string, socket: string): string { Fit(runtime + "/" + socket + ".lock", PATH_MAX) }
  function BusAddress(runtime: string): string { Fit("unix:path=" + BusPath(runtime), PATH_MAX + 32) }

  function DisplayNumber(display: string): string {
    if display != "" && display[0] == ':' then display[1..] else display
  }

  function X11Socket(display: string): string { Fit("/tmp/.X11-unix/X" + DisplayNumber(display), PATH_MAX) }

  function When(c: bool, opts: seq<Opt>): seq<Opt> {
    if c then opts else []
  }

  const DEVICES: seq<Opt> := [
    Dev("/dev"), DevBind("/dev/dri", "/dev/dri"), Bind("/dev/shm", "/dev/shm"), Proc("/proc"), Tmpfs("/tmp")]

  function HomeOptions(l: Launch): seq<Opt> {
    if !l.Isolated() || l.home.None? then []
    else if l.sandbox.value.bindHomeRw then [Bind(l.home.value, l.home.value)]
    else [Tmpfs(l.home.value)]
  }

  function RootOptions(l: Launch): seq<Opt> {
    [if l.Isolated() then RoBind("/", "/") else Bind("/", "/")] + DEVICES + HomeOptions(l)
  }

  function RuntimeOptions(l: Launch): seq<Opt> {
    if l.xdgRuntime.None? then []
    else
      var runtime := l.xdgRuntime.value;
      [Tmpfs(runtime)]
      + if l.socket.None? then []
        else [Bind(SocketPath(runtime, l.socket.value), SocketPath(runtime, l.socket.value)),
              RoBind(LockPath(runtime, l.socket.value), LockPath(runtime, l.socket.value))]
  }

  function WorkspaceOptions(l: Launch): seq<Opt> {
    if l.Isolated() && l.sandbox.value.workspacePath.Some?
    then [Bind(l.sandbox.value.workspacePath.value, l.sandbox.value.workspacePath.value)]
    else []
  }

  function ExtraOptions(paths: seq<Option<string>>): seq<Opt> {
    if paths == [] then []
    else
      var last := paths[|paths| - 1];
      ExtraOptions(paths[..|paths| - 1]) + if last.Some? then [Bind(last.value, last.value)] else []
  }

  function Extras(l: Launch): seq<Option<string>> {
    if l.sandbox.Some? then l.sandbox.value.extraBindPaths else []
  }

  function NamespaceOptions(l: Launch): seq<Opt> {
    When(l.sandbox.Some? && l.sandbox.value.isolatePid, [UnsharePid])
    + When(l.sandbox.Some? && l.sandbox.value.isolateIpc, [UnshareIpc])
    + When(l.sandbox.Some? && l.sandbox.value.networkNamespace, [UnshareNet])
  }

  function EnvironmentOptions(l: Launch): seq<Opt> {
    [Setenv("WAYLAND_DISPLAY", if l.socket.Some? then l.socket.value else "wayland-0")]
    + if l.xdgRuntime.Some? then [Setenv("XDG_RUNTIME_DIR", l.xdgRuntime.value)] else []
  }

  /** The host socket to bind at the session bus path, if there is to be a bus. */
  function BusSource(l: Launch): Option<string> {
    if l.xdgRuntime.None? then None
    else if l.busProxy.Some? then (if l.busProxy.value != "" then l.busProxy else None)
    else if l.busExists then Some(BusPath(l.xdgRuntime.value)) else None
  }

  function BusOptions(l: Launch): seq<Opt> {
    if l.xdgRuntime.None? then []
    else if BusSource(l).Some? then
      [Bind(BusSource(l).value, BusPath(l.xdgRuntime.value)),
       Setenv("DBUS_SESSION_BUS_ADDRESS", BusAddress(l.xdgRuntime.value))]
    else if l.busProxy.Some? then [Unsetenv("DBUS_SESSION_BUS_ADDRESS")]
    else []
  }

  const DISPLAY_HINTS: seq<Opt> :=
    [Setenv("ELECTRON_OZONE_PLATFORM_HINT", "wayland"), Setenv("MOZ_ENABLE_WAYLAND", "1")]

  function DisplayOptions(l: Launch): seq<Opt> {
    if l.xwaylandDisplay.Some? then
      var socket := X11Socket(l.xwaylandDisplay.value);
      [Setenv("DISPLAY", l.xwaylandDisplay.value), Bind(socket, socket)] + DISPLAY_HINTS
    else
      [Unsetenv("DISPLAY"), Setenv("GDK_BACKEND", "wayland"), Setenv("QT_QPA_PLATFORM", "wayland"),
       Setenv("SDL_VIDEODRIVER", "wayland")]
  }

  const FINAL: seq<Opt> := [Setenv("ELECTRON_NO_SANDBOX", "1"), DieWithParent, NewSession]

  /** Every option of the launch, in order. */
  function Options(l: Launch): seq<Opt> {
    RootOptions(l) + RuntimeOptions(l) + WorkspaceOptions(l) + ExtraOptions(Extras(l)) + NamespaceOptions(l)
    + EnvironmentOptions(l) + BusOptions(l) + DisplayOptions(l) + FINAL
  }

  /** bwrap reads back exactly the options and the command of the launch. */
  lemma LaunchIsReadBack(l: Launch, command: string)
    ensures Parse(Argv(Options(l), command)[1..], FLAGS) == Some(Parsed(Options(l), ["/bin/sh", "-c", command]))
  {
    ParseArgv(Options(l), command);
  }

  /** Paths that fit their buffers are spelled in full; a longer one is cut, and no further than it must be. */
  lemma PathsThatFit(runtime: string, socket: string)
    ensures |runtime| + 4 < 4096 ==>
      BusPath(runtime) == runtime + "/bus" && BusAddress(runtime) == "unix:path=" + (runtime + "/bus")
    ensures |runtime| + |socket| + 1 < 4096 ==> SocketPath(runtime, socket) == runtime + "/" + socket
    ensures |runtime| + |socket| + 6 < 4096 ==> LockPath(runtime, socket) == runtime + "/" + socket + ".lock"
    ensures |socket| + 16 < 4096 && (socket == "" || socket[0] != ':') ==>
      X11Socket(":" + socket) == X11Socket(socket) == "/tmp/.X11-unix/X" + socket
    ensures |BusPath(runtime)| < 4096 && BusPath(runtime) <= runtime + "/bus"
    ensures BusAddress(runtime) == "unix:path=" + BusPath(runtime)
  {
    assert (":" + socket)[1..] == socket;
  }
}
