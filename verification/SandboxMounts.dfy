/** What a process inside the sandbox sees at a path: the mounts replayed in order. */
module SandboxMounts {
  import opened Wrappers
  import opened Sequences
  import opened BwrapOptions

  type Path = seq<string>

  /** The names between the slashes; repeated and trailing slashes do not matter. */
  function Names(text: string): Path {
    NamesFrom(text, "")
  }

  function NamesFrom(text: string, name: string): Path {
    if text == "" then (if name == "" then [] else [name])
    else if text[0] == '/' then (if name == "" then [] else [name]) + NamesFrom(text[1..], "")
    else NamesFrom(text[1..], name + [text[0]])
  }

  /** A directory of the host, or fresh contents that the host does not see. */
  datatype Mount =
    | HostMount(source: Path, target: Path, writable: bool)
    | FreshMount(target: Path)
  {
    predicate Covers(path: Path) {
      target <= path
    }

    predicate Identity() {
      HostMount? && source == target && writable
    }
  }

  function MountOf(o: Opt): seq<Mount> {
    match o
    case RoBind(src, dst) => [HostMount(Names(src), Names(dst), false)]
    case Bind(src, dst) => [HostMount(Names(src), Names(dst), true)]
    case DevBind(src, dst) => [HostMount(Names(src), Names(dst), true)]
    case Dev(dst) => [FreshMount(Names(dst))]
    case Proc(dst) => [FreshMount(Names(dst))]
    case Tmpfs(dst) => [FreshMount(Names(dst))]
    case _ => []
  }

  function Mounts(opts: seq<Opt>): seq<Mount> {
    if opts == [] then [] else Mounts(opts[..|opts| - 1]) + MountOf(opts[|opts| - 1])
  }

  datatype View = Absent | Host(path: Path, writable: bool) | Fresh

  function Through(m: Mount, path: Path): View
    requires m.Covers(path)
  {
    match m
    case HostMount(source, target, writable) => Host(source + path[|target|..], writable)
    case FreshMount(_) => Fresh
  }

  /** The last mount at or above the path decides: it hides what was mounted there before. */
  function Look(mounts: seq<Mount>, path: Path): View {
    if mounts == [] then Absent
    else
      var last := mounts[|mounts| - 1];
      if last.Covers(path) then Through(last, path) else Look(mounts[..|mounts| - 1], path)
  }

  function Covered(mounts: seq<Mount>, path: Path): bool {
    exists m | m in mounts :: m.Covers(path)
  }

  function Inside(l: Launch, path: Path): View {
    Look(Mounts(Options(l)), path)
  }

  // ---- general facts ----

  lemma {:induction false} MountsConcat(a: seq<Opt>, b: seq<Opt>)
    ensures Mounts(a + b) == Mounts(a) + Mounts(b)
    decreases |b|
  {
    if b == [] {
      assert a + b == a;
    } else {
      assert (a + b)[..|a + b| - 1] == a + b[..|b| - 1];
      MountsConcat(a, b[..|b| - 1]);
    }
  }

  /** Mounts that do not cover the path can be dropped from the end. */
  lemma {:induction false} LookPast(front: seq<Mount>, back: seq<Mount>, path: Path)
    requires !Covered(back, path)
    ensures Look(front + back, path) == Look(front, path)
    decreases |back|
  {
    if back == [] {
      assert front + back == front;
    } else {
      var last := back[|back| - 1];
      assert last in back;
      assert (front + back)[..|front + back| - 1] == front + back[..|back| - 1];
      LookPast(front, back[..|back| - 1], path);
    }
  }

  /** Among read-write binds of paths to themselves it does not matter which one decides. */
  lemma {:induction false} LookIdentity(front: seq<Mount>, back: seq<Mount>, path: Path)
    requires forall m | m in back :: m.Identity()
    requires Covered(back, path) || Look(front, path) == Host(path, true)
    ensures Look(front + back, path) == Host(path, true)
    decreases |back|
  {
    if back == [] {
      assert front + back == front;
    } else {
      var last, rest := back[|back| - 1], back[..|back| - 1];
      assert last in back;
      assert (front + back)[..|front + back| - 1] == front + rest;
      if !last.Covers(path) {
        assert Covered(back, path) ==> Covered(rest, path);
        LookIdentity(front, rest, path);
      } else {
        assert last.target + path[|last.target|..] == path;
      }
    }
  }

  /** What is seen comes through one of the mounts that cover the path. */
  lemma {:induction false} LookFinds(mounts: seq<Mount>, path: Path)
    ensures Look(mounts, path) == Absent <==> !Covered(mounts, path)
    ensures Look(mounts, path) != Absent ==>
      exists m | m in mounts :: m.Covers(path) && Look(mounts, path) == Through(m, path)
  {
    if mounts != [] {
      var last := mounts[|mounts| - 1];
      assert last in mounts;
      LookFinds(mounts[..|mounts| - 1], path);
    }
  }

  // ---- the mounts of a launch ----

  function BaseMounts(l: Launch): seq<Mount> {
    Mounts(RootOptions(l)) + Mounts(RuntimeOptions(l))
  }

  function BoundMounts(l: Launch): seq<Mount> {
    Mounts(WorkspaceOptions(l)) + Mounts(ExtraOptions(Extras(l)))
  }

  function BusMounts(l: Launch): seq<Mount> {
    if BusSource(l).Some? then [HostMount(Names(BusSource(l).value), Names(BusPath(l.xdgRuntime.value)), true)] else []
  }

  function DisplayMounts(l: Launch): seq<Mount> {
    if l.xwaylandDisplay.None? then []
    else
      var socket := Names(X11Socket(l.xwaylandDisplay.value));
      [HostMount(socket, socket, true)]
  }

  lemma OneMount(o: Opt)
    ensures Mounts([o]) == MountOf(o)
  {
    assert [o][..0] == [];
    assert Mounts([]) == [];
  }

  lemma NoMounts(opts: seq<Opt>)
    requires forall o | o in opts :: MountOf(o) == []
    ensures Mounts(opts) == []
    decreases |opts|
  {
    if opts != [] {
      NoMounts(opts[..|opts| - 1]);
    }
  }

  lemma BusMountsOf(l: Launch)
    ensures Mounts(BusOptions(l)) == BusMounts(l)
  {
    if BusSource(l).Some? {
      var runtime := l.xdgRuntime.value;
      BindThenEnvironment(BusSource(l).value, BusPath(runtime),
                          [Setenv("DBUS_SESSION_BUS_ADDRESS", BusAddress(runtime))]);
    } else {
      NoMounts(BusOptions(l));
    }
  }

  lemma BindThenEnvironment(src: string, dst: string, env: seq<Opt>)
    requires forall o | o in env :: MountOf(o) == []
    ensures Mounts([Bind(src, dst)] + env) == [HostMount(Names(src), Names(dst), true)]
  {
    MountsConcat([Bind(src, dst)], env);
    OneMount(Bind(src, dst));
    NoMounts(env);
  }

  lemma DisplayMountsOf(l: Launch)
    ensures Mounts(DisplayOptions(l)) == DisplayMounts(l)
  {
    hide Names, X11Socket, Mounts;
    if l.xwaylandDisplay.Some? {
      var socket := X11Socket(l.xwaylandDisplay.value);
      var first := Setenv("DISPLAY", l.xwaylandDisplay.value);
      BindThenEnvironment(socket, socket, DISPLAY_HINTS);
      MountsConcat([first], [Bind(socket, socket)] + DISPLAY_HINTS);
      OneMount(first);
      assert DisplayOptions(l) == [first] + ([Bind(socket, socket)] + DISPLAY_HINTS);
    } else {
      NoMounts(DisplayOptions(l));
    }
  }

  lemma NoNamespaceMounts(l: Launch)
    ensures Mounts(NamespaceOptions(l)) == []
  {
    hide Mounts, Names;
    NoMounts(NamespaceOptions(l));
  }

  lemma NoEnvironmentMounts(l: Launch)
    ensures Mounts(EnvironmentOptions(l)) == []
  {
    hide Mounts, Names;
    NoMounts(EnvironmentOptions(l));
  }

  lemma NoFinalMounts()
    ensures Mounts(FINAL) == []
  {
    NoMounts(FINAL);
  }

  lemma MountsOfFirstSections(a: seq<Opt>, b: seq<Opt>, c: seq<Opt>, d: seq<Opt>)
    ensures Mounts(a + b + c + d) == (Mounts(a) + Mounts(b)) + (Mounts(c) + Mounts(d))
  {
    MountsConcat(a, b);
    MountsConcat(a + b, c);
    MountsConcat(a + b + c, d);
    Regroup(Mounts(a) + Mounts(b), Mounts(c), Mounts(d));
  }

  lemma MountsOfLastSections(a: seq<Opt>, b: seq<Opt>, c: seq<Opt>, d: seq<Opt>, e: seq<Opt>, f: seq<Opt>)
    requires Mounts(b) == [] && Mounts(c) == [] && Mounts(f) == []
    ensures Mounts(a + b + c + d + e + f) == Mounts(a) + Mounts(d) + Mounts(e)
  {
    MountsConcat(a, b);
    MountsConcat(a + b, c);
    assert Mounts(a + b + c) == Mounts(a);
    MountsConcat(a + b + c, d);
    MountsConcat(a + b + c + d, e);
    MountsConcat(a + b + c + d + e, f);
  }

  lemma MountsOfLaunch(l: Launch)
    ensures Mounts(Options(l)) == BaseMounts(l) + BoundMounts(l) + BusMounts(l) + DisplayMounts(l)
  {
    NoNamespaceMounts(l);
    NoEnvironmentMounts(l);
    NoFinalMounts();
    BusMountsOf(l);
    DisplayMountsOf(l);
    var first := RootOptions(l) + RuntimeOptions(l) + WorkspaceOptions(l) + ExtraOptions(Extras(l));
    MountsOfFirstSections(RootOptions(l), RuntimeOptions(l), WorkspaceOptions(l), ExtraOptions(Extras(l)));
    MountsOfLastSections(first, NamespaceOptions(l), EnvironmentOptions(l), BusOptions(l), DisplayOptions(l), FINAL);
  }

  // ---- the workspace and the extra paths ----

  /** The path is at or under the workspace of an isolated launch, or at or under an extra bind path. */
  ghost predicate Shared(l: Launch, path: Path) {
    || (l.Isolated() && l.sandbox.value.workspacePath.Some? && Names(l.sandbox.value.workspacePath.value) <= path)
    || (exists p | p in Extras(l) && p.Some? :: Names(p.value) <= path)
  }

  lemma {:induction false} ExtraMounts(paths: seq<Option<string>>)
    ensures forall m | m in Mounts(ExtraOptions(paths)) :: m.Identity()
    ensures forall p | p in paths && p.Some? ::
      HostMount(Names(p.value), Names(p.value), true) in Mounts(ExtraOptions(paths))
    ensures forall m | m in Mounts(ExtraOptions(paths)) ::
      exists p | p in paths && p.Some? :: m.target == Names(p.value)
  {
    hide Names;
    if paths != [] {
      var last := paths[|paths| - 1];
      ExtraMounts(paths[..|paths| - 1]);
      var added := if last.Some? then [Bind(last.value, last.value)] else [];
      MountsConcat(ExtraOptions(paths[..|paths| - 1]), added);
      if last.Some? {
        OneMount(Bind(last.value, last.value));
      }
    }
  }

  lemma NoOptions()
    ensures Mounts([]) == []
  {
  }

  lemma BoundMountsFit(l: Launch, path: Path)
    ensures forall m | m in BoundMounts(l) :: m.Identity()
    ensures Covered(BoundMounts(l), path) <==> Shared(l, path)
  {
    hide Mounts, Names, ExtraOptions;
    ExtraMounts(Extras(l));
    NoOptions();
    var first := Mounts(WorkspaceOptions(l));
    if l.Isolated() && l.sandbox.value.workspacePath.Some? {
      var w := l.sandbox.value.workspacePath.value;
      OneMount(Bind(w, w));
      assert first == [HostMount(Names(w), Names(w), true)];
      assert first[0] in BoundMounts(l);
    } else {
      assert first == [];
    }
    var extra := Mounts(ExtraOptions(Extras(l)));
    assert forall m | m in extra :: m in BoundMounts(l);
    if p :| p in Extras(l) && p.Some? && Names(p.value) <= path {
      assert HostMount(Names(p.value), Names(p.value), true) in BoundMounts(l);
    }
  }

  /** The filtered bus socket hides the path. */
  ghost predicate BehindBusProxy(l: Launch, path: Path) {
    && l.xdgRuntime.Some? && l.busProxy.Some? && l.busProxy.value != ""
    && Names(BusPath(l.xdgRuntime.value)) <= path
  }

  /** A shared path is the same host path, read-write, wherever it lies relative to the home
      directory, /tmp or the runtime directory, unless it is at or under the filtered bus socket. */
  lemma SharedPathsAreReadWrite(l: Launch, path: Path)
    requires Shared(l, path) && !BehindBusProxy(l, path)
    ensures Inside(l, path) == Host(path, true)
  {
    hide Look, Mounts, Options, BoundMounts, Shared;
    MountsOfLaunch(l);
    BoundMountsFit(l, path);
    Layers(BaseMounts(l), BoundMounts(l), BusMounts(l), DisplayMounts(l), path);
  }

  lemma Layers(base: seq<Mount>, bound: seq<Mount>, bus: seq<Mount>, display: seq<Mount>, path: Path)
    requires forall m | m in bound :: m.Identity()
    requires forall m | m in display :: m.Identity()
    requires Covered(bound, path)
    requires !Covered(bus, path) || forall m | m in bus :: m.Identity()
    ensures Look(base + bound + bus + display, path) == Host(path, true)
  {
    LookIdentity(base, bound, path);
    if Covered(bus, path) {
      LookIdentity(base + bound, bus, path);
    } else {
      LookPast(base + bound, bus, path);
    }
    LookIdentity(base + bound + bus, display, path);
  }

  /** At or under the filtered bus socket it is the proxy's socket that is seen, unless the X11 socket is
      mounted over it. */
  lemma BusProxyIsSeen(l: Launch, path: Path)
    requires BehindBusProxy(l, path) && !Covered(DisplayMounts(l), path)
    ensures Inside(l, path) == Host(Names(l.busProxy.value) + path[|Names(BusPath(l.xdgRuntime.value))|..], true)
  {
    MountsOfLaunch(l);
    BusMount(l);
    var front := BaseMounts(l) + BoundMounts(l);
    var bus := HostMount(Names(l.busProxy.value), Names(BusPath(l.xdgRuntime.value)), true);
    hide Mounts, Options, Names, BaseMounts, BoundMounts, BusMounts, DisplayMounts;
    LookPast(front + [bus], DisplayMounts(l), path);
    LookAtLast(front, bus, path);
  }

  lemma BusMount(l: Launch)
    requires l.xdgRuntime.Some? && l.busProxy.Some? && l.busProxy.value != ""
    ensures BusMounts(l) == [HostMount(Names(l.busProxy.value), Names(BusPath(l.xdgRuntime.value)), true)]
  {
  }

  lemma LookAtLast(front: seq<Mount>, m: Mount, path: Path)
    requires m.Covers(path)
    ensures Look(front + [m], path) == Through(m, path)
  {
  }

  // ---- the rest of the file system ----

  /** Every mount of the launch after the one of the root. */
  ghost function LaterMounts(l: Launch): seq<Mount> {
    Mounts(DEVICES + HomeOptions(l)) + Mounts(RuntimeOptions(l)) + BoundMounts(l) + BusMounts(l) + DisplayMounts(l)
  }

  lemma RootMountFirst(l: Launch)
    ensures Mounts(Options(l)) == [HostMount([], [], !l.Isolated())] + LaterMounts(l)
  {
    MountsOfLaunch(l);
    RootOptionsSplit(l);
    var root := [HostMount([], [], !l.Isolated())];
    var devices, runtime := Mounts(DEVICES + HomeOptions(l)), Mounts(RuntimeOptions(l));
    Regroup(root, devices, runtime);
    Regroup(root, devices + runtime, BoundMounts(l));
    Regroup(root, devices + runtime + BoundMounts(l), BusMounts(l));
    Regroup(root, devices + runtime + BoundMounts(l) + BusMounts(l), DisplayMounts(l));
  }

  lemma RootOptionsSplit(l: Launch)
    ensures Mounts(RootOptions(l)) == [HostMount([], [], !l.Isolated())] + Mounts(DEVICES + HomeOptions(l))
  {
    var root := if l.Isolated() then RoBind("/", "/") else Bind("/", "/");
    assert RootOptions(l) == [root] + (DEVICES + HomeOptions(l));
    MountsConcat([root], DEVICES + HomeOptions(l));
    OneMount(root);
    RootName();
  }

  lemma RootName()
    ensures Names("/") == []
  {
    assert "/"[1..] == "";
    assert NamesFrom("/", "") == [] + NamesFrom("", "");
  }

  lemma LookAtRoot(later: seq<Mount>, path: Path, writable: bool)
    requires !Covered(later, path)
    ensures Look([HostMount([], [], writable)] + later, path) == Host(path, writable)
  {
    LookPast([HostMount([], [], writable)], later, path);
    assert [] + path[0..] == path;
  }

  /** A path under none of the later mount targets is the same host path: read-only in an isolated
      launch, read-write otherwise. */
  lemma RootIsSeenElsewhere(l: Launch, path: Path)
    requires !Covered(LaterMounts(l), path)
    ensures Inside(l, path) == Host(path, !l.Isolated())
  {
    RootMountFirst(l);
    LookAtRoot(LaterMounts(l), path, !l.Isolated());
  }

  // ---- confinement ----

  /** What an isolated launch lets the sandbox write on the host: these paths and what lies under them.
      For the bus that is the proxy's socket, or the bus itself when it is not filtered. */
  ghost predicate MayWrite(l: Launch, source: Path) {
    || source in {Names("/dev/dri"), Names("/dev/shm")}
    || (l.Isolated() && l.sandbox.value.bindHomeRw && l.home.Some? && source == Names(l.home.value))
    || (l.xdgRuntime.Some? && l.socket.Some? && source == Names(SocketPath(l.xdgRuntime.value, l.socket.value)))
    || (l.Isolated() && l.sandbox.value.workspacePath.Some? && source == Names(l.sandbox.value.workspacePath.value))
    || (exists p | p in Extras(l) && p.Some? :: source == Names(p.value))
    || (BusSource(l).Some? && source == Names(BusSource(l).value))
    || (l.xwaylandDisplay.Some? && source == Names(X11Socket(l.xwaylandDisplay.value)))
  }

  /** Every writable host mount made by these options has an allowed source. */
  ghost predicate Confined(l: Launch, opts: seq<Opt>) {
    forall o | o in opts && (o.Bind? || o.DevBind?) :: MayWrite(l, Names(o.src))
  }

  lemma {:induction false} MountFromOption(opts: seq<Opt>, m: Mount)
    requires m in Mounts(opts)
    ensures exists o | o in opts :: m in MountOf(o)
  {
    var last := opts[|opts| - 1];
    assert last in opts;
    if m !in MountOf(last) {
      MountFromOption(opts[..|opts| - 1], m);
    }
  }

  lemma {:induction false} ExtrasConfined(l: Launch, paths: seq<Option<string>>)
    requires forall p | p in paths :: p in Extras(l)
    ensures Confined(l, ExtraOptions(paths))
  {
    if paths != [] {
      ExtrasConfined(l, paths[..|paths| - 1]);
      assert paths[|paths| - 1] in Extras(l);
    }
  }

  lemma RootConfined(l: Launch)
    requires l.Isolated()
    ensures Confined(l, RootOptions(l))
  {
    assert Confined(l, DEVICES);
    assert Confined(l, HomeOptions(l));
  }

  lemma RuntimeConfined(l: Launch)
    ensures Confined(l, RuntimeOptions(l)) && Confined(l, WorkspaceOptions(l))
  {
  }

  lemma SettingsConfined(l: Launch)
    ensures Confined(l, NamespaceOptions(l)) && Confined(l, EnvironmentOptions(l)) && Confined(l, FINAL)
  {
  }

  lemma BusConfined(l: Launch)
    ensures Confined(l, BusOptions(l))
  {
  }

  lemma DisplayConfined(l: Launch)
    ensures Confined(l, DisplayOptions(l))
  {
  }

  lemma JoinConfined(l: Launch, a: seq<Opt>, b: seq<Opt>)
    requires Confined(l, a) && Confined(l, b)
    ensures Confined(l, a + b)
  {
  }

  lemma OptionsConfined(l: Launch)
    requires l.Isolated()
    ensures Confined(l, Options(l))
  {
    RootConfined(l);
    RuntimeConfined(l);
    ExtrasConfined(l, Extras(l));
    SettingsConfined(l);
    BusConfined(l);
    DisplayConfined(l);
    var s1 := RootOptions(l) + RuntimeOptions(l);
    JoinConfined(l, RootOptions(l), RuntimeOptions(l));
    JoinConfined(l, s1, WorkspaceOptions(l));
    JoinConfined(l, s1 + WorkspaceOptions(l), ExtraOptions(Extras(l)));
    var s2 := s1 + WorkspaceOptions(l) + ExtraOptions(Extras(l));
    JoinConfined(l, s2, NamespaceOptions(l));
    JoinConfined(l, s2 + NamespaceOptions(l), EnvironmentOptions(l));
    var s3 := s2 + NamespaceOptions(l) + EnvironmentOptions(l);
    JoinConfined(l, s3, BusOptions(l));
    JoinConfined(l, s3 + BusOptions(l), DisplayOptions(l));
    JoinConfined(l, s3 + BusOptions(l) + DisplayOptions(l), FINAL);
  }

  lemma ConfinedWrites(l: Launch, opts: seq<Opt>, path: Path, host: Path)
    requires Confined(l, opts) && Look(Mounts(opts), path) == Host(host, true)
    ensures exists source | source <= host :: MayWrite(l, source)
  {
    hide MayWrite, Mounts, Look, Names;
    var mounts := Mounts(opts);
    LookFinds(mounts, path);
    var m :| m in mounts && m.Covers(path) && Look(mounts, path) == Through(m, path);
    MountFromOption(opts, m);
    var o :| o in opts && m in MountOf(o);
    assert o.Bind? || o.DevBind?;
    assert host == m.source + path[|m.target|..] && MayWrite(l, m.source);
  }

  /** In an isolated launch every host path that can be written, wherever it is seen, lies at or under an
      allowed one. */
  lemma WritesAreConfined(l: Launch, path: Path, host: Path)
    requires l.Isolated() && Inside(l, path) == Host(host, true)
    ensures exists source | source <= host :: MayWrite(l, source)
  {
    OptionsConfined(l);
    ConfinedWrites(l, Options(l), path, host);
  }
}
