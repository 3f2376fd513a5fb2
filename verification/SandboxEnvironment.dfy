/** What a launch means for the process inside besides its files: its namespaces, its lifetime and its
    environment variables. */
module SandboxEnvironment {
  import opened Wrappers
  import opened Sequences
  import opened BwrapOptions

  // ---- namespaces and lifetime ----

  lemma {:induction false} ExtrasAreBinds(paths: seq<Option<string>>, o: Opt)
    requires o in ExtraOptions(paths)
    ensures o.Bind?
  {
    var last := paths[|paths| - 1];
    if !(last.Some? && o == Bind(last.value, last.value)) {
      ExtrasAreBinds(paths[..|paths| - 1], o);
    }
  }

  lemma InSections(o: Opt, a: seq<Opt>, b: seq<Opt>, c: seq<Opt>, d: seq<Opt>, e: seq<Opt>, f: seq<Opt>, g: seq<Opt>,
                   h: seq<Opt>, i: seq<Opt>)
    ensures o in a + b + c + d + e + f + g + h + i <==>
            o in a || o in b || o in c || o in d || o in e || o in f || o in g || o in h || o in i
  {
  }

  lemma NoSwitches(l: Launch, o: Opt)
    requires o == UnsharePid || o == UnshareIpc || o == UnshareNet || o == DieWithParent || o == NewSession
    ensures o !in RootOptions(l) && o !in RuntimeOptions(l) && o !in WorkspaceOptions(l)
    ensures o !in EnvironmentOptions(l) && o !in BusOptions(l) && o !in DisplayOptions(l)
  {
    hide Fit, BusPath, SocketPath, LockPath, BusAddress, X11Socket, BusSource;
  }

  /** A namespace is unshared iff the configuration asks for it, and every launch dies with its parent
      in a session of its own. */
  lemma SwitchesOfLaunch(l: Launch)
    ensures UnsharePid in Options(l) <==> l.sandbox.Some? && l.sandbox.value.isolatePid
    ensures UnshareIpc in Options(l) <==> l.sandbox.Some? && l.sandbox.value.isolateIpc
    ensures UnshareNet in Options(l) <==> l.sandbox.Some? && l.sandbox.value.networkNamespace
    ensures DieWithParent in Options(l) && NewSession in Options(l)
  {
    hide Options;
    SwitchIn(l, UnsharePid);
    SwitchIn(l, UnshareIpc);
    SwitchIn(l, UnshareNet);
    SwitchIn(l, DieWithParent);
    SwitchIn(l, NewSession);
  }

  lemma SwitchIn(l: Launch, o: Opt)
    requires o == UnsharePid || o == UnshareIpc || o == UnshareNet || o == DieWithParent || o == NewSession
    ensures o in Options(l) <==> o in NamespaceOptions(l) || o in FINAL
  {
    NoSwitches(l, o);
    hide RootOptions, RuntimeOptions, WorkspaceOptions, ExtraOptions, NamespaceOptions, EnvironmentOptions, BusOptions,
         DisplayOptions;
    if o in ExtraOptions(Extras(l)) {
      ExtrasAreBinds(Extras(l), o);
    }
    InSections(o, RootOptions(l), RuntimeOptions(l), WorkspaceOptions(l), ExtraOptions(Extras(l)), NamespaceOptions(l),
               EnvironmentOptions(l), BusOptions(l), DisplayOptions(l), FINAL);
  }

  // ---- environment variables ----

  /** What becomes of a variable of the launcher's own environment. */
  datatype Variable = Inherited | Set(value: string) | Removed

  function VariableOf(o: Opt, name: string): Variable {
    match o
    case Setenv(n, value) => if n == name then Set(value) else Inherited
    case Unsetenv(n) => if n == name then Removed else Inherited
    case _ => Inherited
  }

  function Or(later: Variable, earlier: Variable): Variable {
    if later.Inherited? then earlier else later
  }

  /** The options replayed in order: the last one that names the variable decides. */
  function Replay(opts: seq<Opt>, name: string): Variable {
    if opts == [] then Inherited
    else Or(VariableOf(opts[|opts| - 1], name), Replay(opts[..|opts| - 1], name))
  }

  lemma {:induction false} ReplayConcat(a: seq<Opt>, b: seq<Opt>, name: string)
    ensures Replay(a + b, name) == Or(Replay(b, name), Replay(a, name))
    decreases |b|
  {
    hide VariableOf;
    if b == [] {
      assert a + b == a;
    } else {
      assert (a + b)[..|a + b| - 1] == a + b[..|b| - 1];
      ReplayConcat(a, b[..|b| - 1], name);
    }
  }

  lemma {:induction false} NoVariable(opts: seq<Opt>, name: string)
    requires forall o | o in opts :: !o.Setenv? && !o.Unsetenv?
    ensures Replay(opts, name) == Inherited
  {
    if opts != [] {
      NoVariable(opts[..|opts| - 1], name);
    }
  }

  lemma ReplayOne(o: Opt, name: string)
    ensures Replay([o], name) == VariableOf(o, name)
  {
    assert Replay([o][..0], name) == Inherited;
  }

  lemma ReplayTwo(a: Opt, b: Opt, name: string)
    ensures Replay([a, b], name) == Or(VariableOf(b, name), VariableOf(a, name))
  {
    ReplayConcat([a], [b], name);
    ReplayOne(a, name);
    ReplayOne(b, name);
  }

  /** What the process inside finds in each variable, name by name. */
  function Expected(l: Launch, name: string): Variable {
    if name == "ELECTRON_NO_SANDBOX" then Set("1")
    else if name == "DISPLAY" then (if l.xwaylandDisplay.Some? then Set(l.xwaylandDisplay.value) else Removed)
    else if name in {"ELECTRON_OZONE_PLATFORM_HINT", "MOZ_ENABLE_WAYLAND"} && l.xwaylandDisplay.Some? then
      Set(if name == "MOZ_ENABLE_WAYLAND" then "1" else "wayland")
    else if name in {"GDK_BACKEND", "QT_QPA_PLATFORM", "SDL_VIDEODRIVER"} && l.xwaylandDisplay.None? then Set("wayland")
    else if name == "DBUS_SESSION_BUS_ADDRESS" then Bus(l)
    else if name == "XDG_RUNTIME_DIR" && l.xdgRuntime.Some? then Set(l.xdgRuntime.value)
    else if name == "WAYLAND_DISPLAY" then Set(if l.socket.Some? then l.socket.value else "wayland-0")
    else Inherited
  }

  /** The address of the bus that is bound, none at all when the filter failed, and otherwise the launcher's own. */
  function Bus(l: Launch): Variable {
    if l.xdgRuntime.None? then Inherited
    else if l.busProxy == Some("") then Removed
    else if l.busProxy.Some? || l.busExists then Set(BusAddress(l.xdgRuntime.value))
    else Inherited
  }

  predicate SetsNothing(opts: seq<Opt>) {
    forall o | o in opts :: !o.Setenv? && !o.Unsetenv?
  }

  lemma RootSetsNothing(l: Launch)
    ensures SetsNothing(RootOptions(l))
  {
    assert SetsNothing(DEVICES) && SetsNothing(HomeOptions(l));
  }

  lemma OthersSetNothing(l: Launch)
    ensures SetsNothing(RuntimeOptions(l)) && SetsNothing(WorkspaceOptions(l)) && SetsNothing(NamespaceOptions(l))
  {
    hide Fit, SocketPath, LockPath;
  }

  lemma ExtrasSetNothing(paths: seq<Option<string>>)
    ensures SetsNothing(ExtraOptions(paths))
  {
    forall o | o in ExtraOptions(paths) ensures o.Bind? {
      ExtrasAreBinds(paths, o);
    }
  }

  lemma NothingFromFive(a: seq<Opt>, b: seq<Opt>, c: seq<Opt>, d: seq<Opt>, e: seq<Opt>, name: string)
    requires SetsNothing(a) && SetsNothing(b) && SetsNothing(c) && SetsNothing(d) && SetsNothing(e)
    ensures Replay(a + b + c + d + e, name) == Inherited
  {
    NoVariable(a + b + c + d + e, name);
  }

  lemma MountSectionsSetNothing(l: Launch, name: string)
    ensures Replay(RootOptions(l) + RuntimeOptions(l) + WorkspaceOptions(l) + ExtraOptions(Extras(l))
                   + NamespaceOptions(l), name) == Inherited
  {
    RootSetsNothing(l);
    OthersSetNothing(l);
    ExtrasSetNothing(Extras(l));
    hide SetsNothing, Replay, RootOptions, RuntimeOptions, WorkspaceOptions, ExtraOptions, NamespaceOptions;
    NothingFromFive(RootOptions(l), RuntimeOptions(l), WorkspaceOptions(l), ExtraOptions(Extras(l)),
                    NamespaceOptions(l), name);
  }

  lemma EnvironmentSection(l: Launch, name: string)
    ensures Replay(EnvironmentOptions(l), name) ==
      if name == "XDG_RUNTIME_DIR" && l.xdgRuntime.Some? then Set(l.xdgRuntime.value)
      else if name == "WAYLAND_DISPLAY" then Set(if l.socket.Some? then l.socket.value else "wayland-0")
      else Inherited
  {
    var first := Setenv("WAYLAND_DISPLAY", if l.socket.Some? then l.socket.value else "wayland-0");
    if l.xdgRuntime.Some? {
      assert EnvironmentOptions(l) == [first, Setenv("XDG_RUNTIME_DIR", l.xdgRuntime.value)];
      ReplayTwo(first, Setenv("XDG_RUNTIME_DIR", l.xdgRuntime.value), name);
    } else {
      assert EnvironmentOptions(l) == [first];
      ReplayOne(first, name);
    }
  }

  lemma BusSection(l: Launch, name: string)
    ensures Replay(BusOptions(l), name) == if name == "DBUS_SESSION_BUS_ADDRESS" then Bus(l) else Inherited
  {
    hide Replay, BusAddress, BusPath;
    if l.xdgRuntime.None? || (l.busProxy.None? && !l.busExists) {
      NoVariable([], name);
    } else if l.busProxy == Some("") {
      ReplayOne(Unsetenv("DBUS_SESSION_BUS_ADDRESS"), name);
    } else {
      ReplayTwo(BusOptions(l)[0], BusOptions(l)[1], name);
    }
  }

  lemma ReplayFour(a: Opt, b: Opt, c: Opt, d: Opt, name: string)
    ensures Replay([a, b, c, d], name)
         == Or(VariableOf(d, name), Or(VariableOf(c, name), Or(VariableOf(b, name), VariableOf(a, name))))
  {
    hide Replay, VariableOf;
    ReplayTwo(a, b, name);
    ReplayTwo(c, d, name);
    ReplayConcat([a, b], [c, d], name);
    assert [a, b] + [c, d] == [a, b, c, d];
  }

  lemma DisplayNames()
    ensures "DISPLAY" !in {"ELECTRON_OZONE_PLATFORM_HINT", "MOZ_ENABLE_WAYLAND"}
    ensures "DISPLAY" !in {"GDK_BACKEND", "QT_QPA_PLATFORM", "SDL_VIDEODRIVER"}
  {
    assert |"DISPLAY"| == 7;
  }

  lemma DisplaySection(l: Launch, name: string)
    ensures Replay(DisplayOptions(l), name) ==
      if name == "DISPLAY" then (if l.xwaylandDisplay.Some? then Set(l.xwaylandDisplay.value) else Removed)
      else if name in {"ELECTRON_OZONE_PLATFORM_HINT", "MOZ_ENABLE_WAYLAND"} && l.xwaylandDisplay.Some? then
        Set(if name == "MOZ_ENABLE_WAYLAND" then "1" else "wayland")
      else if name in {"GDK_BACKEND", "QT_QPA_PLATFORM", "SDL_VIDEODRIVER"} && l.xwaylandDisplay.None?
      then Set("wayland")
      else Inherited
  {
    hide Replay, X11Socket;
    DisplayNames();
    var o := DisplayOptions(l);
    ReplayFour(o[0], o[1], o[2], o[3], name);
    assert o == [o[0], o[1], o[2], o[3]];
  }

  lemma FinalSection(name: string)
    ensures Replay(FINAL, name) == if name == "ELECTRON_NO_SANDBOX" then Set("1") else Inherited
  {
    ReplayConcat([FINAL[0]], [DieWithParent, NewSession], name);
    ReplayOne(FINAL[0], name);
    ReplayTwo(DieWithParent, NewSession, name);
    assert FINAL == [FINAL[0]] + [DieWithParent, NewSession];
  }

  /** Every environment variable of the process inside is what its name calls for; no other is touched. */
  lemma EnvironmentOfLaunch(l: Launch, name: string)
    ensures Replay(Options(l), name) == Expected(l, name)
  {
    MountSectionsSetNothing(l, name);
    EnvironmentSection(l, name);
    BusSection(l, name);
    DisplaySection(l, name);
    FinalSection(name);
    hide RootOptions, RuntimeOptions, WorkspaceOptions, ExtraOptions, NamespaceOptions, EnvironmentOptions, BusOptions,
         DisplayOptions, Replay, Bus;
    var first := RootOptions(l) + RuntimeOptions(l) + WorkspaceOptions(l) + ExtraOptions(Extras(l))
               + NamespaceOptions(l);
    ReplayConcat(first, EnvironmentOptions(l), name);
    ReplayConcat(first + EnvironmentOptions(l), BusOptions(l), name);
    ReplayConcat(first + EnvironmentOptions(l) + BusOptions(l), DisplayOptions(l), name);
    ReplayConcat(first + EnvironmentOptions(l) + BusOptions(l) + DisplayOptions(l), FINAL, name);
  }
}
