/** The whole view from inside the sandbox: what is seen at every path, for every launch. */
module SandboxView {
  import opened Wrappers
  import opened Sequences
  import opened BwrapOptions
  import opened SandboxMounts

  predicate At(path: Path, name: string) {
    Names(name) <= path
  }

  predicate AtHome(l: Launch, path: Path) {
    l.Isolated() && l.home.Some? && At(path, l.home.value)
  }

  predicate AtRuntime(l: Launch, path: Path) {
    l.xdgRuntime.Some? && At(path, l.xdgRuntime.value)
  }

  predicate AtSocket(l: Launch, path: Path) {
    l.xdgRuntime.Some? && l.socket.Some? && At(path, SocketPath(l.xdgRuntime.value, l.socket.value))
  }

  predicate AtLock(l: Launch, path: Path) {
    l.xdgRuntime.Some? && l.socket.Some? && At(path, LockPath(l.xdgRuntime.value, l.socket.value))
  }

  predicate AtX11(l: Launch, path: Path) {
    l.xwaylandDisplay.Some? && At(path, X11Socket(l.xwaylandDisplay.value))
  }

  /** At the session bus, when there is one to see: the host's own, or a proxy that has not failed. */
  predicate AtBus(l: Launch, path: Path) {
    && l.xdgRuntime.Some? && At(path, BusPath(l.xdgRuntime.value))
    && if l.busProxy.Some? then l.busProxy != Some("") else l.busExists
  }

  /** What the process sees.  A path at or under several of these shows the first of them. */
  ghost function Seen(l: Launch, path: Path): View {
    if AtX11(l, path) then Host(path, true)
    else if AtBus(l, path) then
      if l.busProxy.None? then Host(path, true)
      else Host(Names(l.busProxy.value) + path[|Names(BusPath(l.xdgRuntime.value))|..], true)
    else if Shared(l, path) then Host(path, true)
    else if AtLock(l, path) then Host(path, false)
    else if AtSocket(l, path) then Host(path, true)
    else if AtRuntime(l, path) then Fresh
    else if AtHome(l, path) then (if l.sandbox.value.bindHomeRw then Host(path, true) else Fresh)
    else SeenElsewhere(path, !l.Isolated())
  }

  /** The scratch and device directories, and the root file system around them. */
  function SeenElsewhere(path: Path, writable: bool): View {
    if At(path, "/tmp") || At(path, "/proc") then Fresh
    else if At(path, "/dev/shm") || At(path, "/dev/dri") then Host(path, true)
    else if At(path, "/dev") then Fresh
    else Host(path, writable)
  }

  // ---- looking through layers ----

  lemma LookOne(m: Mount, path: Path)
    ensures Look([m], path) == if m.Covers(path) then Through(m, path) else Absent
    ensures Covered([m], path) <==> m.Covers(path)
  {
    assert m in [m];
    assert Look([m][..0], path) == Absent;
  }

  lemma LookOn(front: seq<Mount>, m: Mount, path: Path)
    ensures Look(front + [m], path) == if m.Covers(path) then Through(m, path) else Look(front, path)
  {
  }

  lemma Back(name: Path, path: Path)
    requires name <= path
    ensures name + path[|name|..] == path
  {
  }

  // ---- the layers of a launch ----

  lemma RuntimeLayer(front: seq<Mount>, l: Launch, path: Path)
    ensures Look(front + Mounts(RuntimeOptions(l)), path) ==
      if AtLock(l, path) then Host(path, false)
      else if AtSocket(l, path) then Host(path, true)
      else if AtRuntime(l, path) then Fresh
      else Look(front, path)
  {
    hide Names, Look, Mounts, LockPath, SocketPath;
    if l.xdgRuntime.None? {
      NoOptions();
      assert front + [] == front;
    } else {
      var runtime := Tmpfs(l.xdgRuntime.value);
      OneMount(runtime);
      LookOn(front, MountOf(runtime)[0], path);
      if l.socket.None? {
        assert RuntimeOptions(l) == [runtime];
      } else {
        var socket, lock := RuntimeOptions(l)[1], RuntimeOptions(l)[2];
        assert RuntimeOptions(l) == [runtime] + [socket] + [lock];
        MountsConcat([runtime], [socket]);
        MountsConcat([runtime] + [socket], [lock]);
        OneMount(socket);
        OneMount(lock);
        var a, b, c := MountOf(runtime)[0], MountOf(socket)[0], MountOf(lock)[0];
        Regroup(front, [a], [b]);
        Regroup(front, [a] + [b], [c]);
        LookOn(front + [a], b, path);
        LookOn(front + [a] + [b], c, path);
        if b.Covers(path) { Back(b.target, path); }
        if c.Covers(path) { Back(c.target, path); }
      }
    }
  }

  lemma HomeLayer(front: seq<Mount>, l: Launch, path: Path)
    ensures Look(front + Mounts(HomeOptions(l)), path) ==
      if AtHome(l, path) then (if l.sandbox.value.bindHomeRw then Host(path, true) else Fresh)
      else Look(front, path)
  {
    hide Names, Look, Mounts;
    if !l.Isolated() || l.home.None? {
      NoOptions();
      assert front + [] == front;
    } else {
      var o := HomeOptions(l)[0];
      assert HomeOptions(l) == [o];
      OneMount(o);
      LookOn(front, MountOf(o)[0], path);
      if AtHome(l, path) { Back(Names(l.home.value), path); }
    }
  }

  lemma DeviceLayer(path: Path, writable: bool)
    ensures Look([HostMount([], [], writable)] + Mounts(DEVICES), path) == SeenElsewhere(path, writable)
  {
    hide Names, Look, Mounts;
    var root := HostMount([], [], writable);
    DeviceMounts();
    var dev, dri, shm, proc, tmp := FreshMount(Names("/dev")), HostMount(Names("/dev/dri"), Names("/dev/dri"), true),
      HostMount(Names("/dev/shm"), Names("/dev/shm"), true), FreshMount(Names("/proc")), FreshMount(Names("/tmp"));
    assert [root] + Mounts(DEVICES) == [root] + [dev] + [dri] + [shm] + [proc] + [tmp];
    LookOne(root, path);
    LookOn([root], dev, path);
    LookOn([root] + [dev], dri, path);
    LookOn([root] + [dev] + [dri], shm, path);
    LookOn([root] + [dev] + [dri] + [shm], proc, path);
    LookOn([root] + [dev] + [dri] + [shm] + [proc], tmp, path);
    Back([], path);
    if dri.Covers(path) { Back(dri.target, path); }
    if shm.Covers(path) { Back(shm.target, path); }
  }

  lemma DeviceMounts()
    ensures Mounts(DEVICES) == [
      FreshMount(Names("/dev")), HostMount(Names("/dev/dri"), Names("/dev/dri"), true),
      HostMount(Names("/dev/shm"), Names("/dev/shm"), true), FreshMount(Names("/proc")), FreshMount(Names("/tmp"))]
  {
    hide Names, Mounts;
    var o := DEVICES;
    assert o == [o[0]] + [o[1]] + [o[2]] + [o[3]] + [o[4]];
    OneMount(o[0]);
    OneMount(o[1]);
    OneMount(o[2]);
    OneMount(o[3]);
    OneMount(o[4]);
    MountsConcat([o[0]], [o[1]]);
    MountsConcat([o[0]] + [o[1]], [o[2]]);
    MountsConcat([o[0]] + [o[1]] + [o[2]], [o[3]]);
    MountsConcat([o[0]] + [o[1]] + [o[2]] + [o[3]], [o[4]]);
  }

  lemma BaseLayers(l: Launch, path: Path)
    ensures Look(BaseMounts(l), path) ==
      if AtLock(l, path) then Host(path, false)
      else if AtSocket(l, path) then Host(path, true)
      else if AtRuntime(l, path) then Fresh
      else if AtHome(l, path) then (if l.sandbox.value.bindHomeRw then Host(path, true) else Fresh)
      else SeenElsewhere(path, !l.Isolated())
  {
    hide Look, Mounts, Names, RootOptions, RuntimeOptions, HomeOptions, LockPath, SocketPath;
    var root := [HostMount([], [], !l.Isolated())];
    RuntimeLayer(Mounts(RootOptions(l)), l, path);
    RootOptionsSplit(l);
    MountsConcat(DEVICES, HomeOptions(l));
    Regroup(root, Mounts(DEVICES), Mounts(HomeOptions(l)));
    HomeLayer(root + Mounts(DEVICES), l, path);
    DeviceLayer(path, !l.Isolated());
  }

  lemma BoundLayer(front: seq<Mount>, l: Launch, path: Path)
    ensures Look(front + BoundMounts(l), path) == if Shared(l, path) then Host(path, true) else Look(front, path)
  {
    hide Look, BoundMounts, Shared;
    BoundMountsFit(l, path);
    if Shared(l, path) {
      LookIdentity(front, BoundMounts(l), path);
    } else {
      LookPast(front, BoundMounts(l), path);
    }
  }

  lemma BusLayer(front: seq<Mount>, l: Launch, path: Path)
    ensures Look(front + BusMounts(l), path) ==
      if AtBus(l, path) then
        if l.busProxy.None? then Host(path, true)
        else Host(Names(l.busProxy.value) + path[|Names(BusPath(l.xdgRuntime.value))|..], true)
      else Look(front, path)
  {
    hide Look, Names, BusPath;
    if BusSource(l).Some? {
      LookOn(front, BusMounts(l)[0], path);
      if AtBus(l, path) { Back(Names(BusPath(l.xdgRuntime.value)), path); }
    } else {
      assert front + [] == front;
    }
  }

  lemma DisplayLayer(front: seq<Mount>, l: Launch, path: Path)
    ensures Look(front + DisplayMounts(l), path) == if AtX11(l, path) then Host(path, true) else Look(front, path)
  {
    hide Look, Names, X11Socket;
    if l.xwaylandDisplay.Some? {
      LookOn(front, DisplayMounts(l)[0], path);
      if AtX11(l, path) { Back(Names(X11Socket(l.xwaylandDisplay.value)), path); }
    } else {
      assert front + [] == front;
    }
  }

  /** For every launch and every path: what is seen there. */
  lemma WholeView(l: Launch, path: Path)
    ensures Inside(l, path) == Seen(l, path)
  {
    hide Look, Mounts, Options, BaseMounts, BoundMounts, BusMounts, DisplayMounts, Names, Shared;
    hide AtX11, AtBus, AtLock, AtSocket, AtRuntime, AtHome, SeenElsewhere;
    MountsOfLaunch(l);
    var base := BaseMounts(l);
    BaseLayers(l, path);
    BoundLayer(base, l, path);
    BusLayer(base + BoundMounts(l), l, path);
    DisplayLayer(base + BoundMounts(l) + BusMounts(l), l, path);
  }

  // ---- how a path is written ----

  function Written(path: Path): string {
    if path == [] then "" else "/" + path[0] + Written(path[1..])
  }

  lemma {:induction false} ScanName(name: string, rest: string, seen: string)
    requires '/' !in name
    ensures NamesFrom(name + rest, seen) == NamesFrom(rest, seen + name)
  {
    if name == "" {
      assert name + rest == rest && seen + name == seen;
    } else {
      assert name[0] in name;
      assert (name + rest)[1..] == name[1..] + rest;
      assert seen + [name[0]] + name[1..] == seen + name;
      ScanName(name[1..], rest, seen + [name[0]]);
    }
  }

  /** The name read so far, if there is one. */
  function Begun(seen: string): Path {
    if seen == "" then [] else [seen]
  }

  lemma AfterSlash(rest: string, seen: string)
    ensures NamesFrom("/" + rest, seen) == Begun(seen) + NamesFrom(rest, "")
  {
    assert ("/" + rest)[1..] == rest;
  }

  lemma WrittenSplit(path: Path)
    requires path != []
    ensures Written(path) == "/" + (path[0] + Written(path[1..])) && [path[0]] + path[1..] == path
  {
  }

  lemma AfterName(name: string, rest: string)
    requires '/' !in name
    ensures NamesFrom(name + rest, "") == NamesFrom(rest, name)
  {
    ScanName(name, rest, "");
    assert "" + name == name;
  }

  lemma {:induction false} NamesOfWrittenFrom(path: Path, seen: string)
    requires forall name | name in path :: name != "" && '/' !in name
    ensures NamesFrom(Written(path), seen) == Begun(seen) + path
  {
    if path != [] {
      hide NamesFrom, Written;
      assert path[0] in path && forall name | name in path[1..] :: name in path;
      WrittenSplit(path);
      AfterSlash(path[0] + Written(path[1..]), seen);
      AfterName(path[0], Written(path[1..]));
      NamesOfWrittenFrom(path[1..], path[0]);
    }
  }

  /** Reading a path back gives its names. */
  lemma NamesOfWritten(path: Path)
    requires forall name | name in path :: name != "" && '/' !in name
    ensures Names(Written(path)) == path
  {
    NamesOfWrittenFrom(path, "");
  }

  lemma {:induction false} NamesOfJoined(a: string, b: string, seen: string)
    ensures NamesFrom(a + "/" + b, seen) == NamesFrom(a, seen) + NamesFrom(b, "")
  {
    if a == "" {
      assert a + "/" + b == "/" + b;
      AfterSlash(b, seen);
    } else {
      assert (a + "/" + b)[1..] == a[1..] + "/" + b;
      NamesOfJoined(a[1..], b, if a[0] == '/' then "" else seen + [a[0]]);
    }
  }

  lemma BusIsInRuntime(runtime: string)
    requires |runtime| + 4 < 4096
    ensures Names(runtime) <= Names(BusPath(runtime))
  {
    PathsThatFit(runtime, "");
    NamesOfJoined(runtime, "bus", "");
    assert runtime + "/" + "bus" == runtime + "/bus";
  }

  /** When the filter was asked for and has failed, there is nothing of the host at the session bus, unless the
      configuration shares it. */
  lemma BlockedBusIsFresh(l: Launch)
    requires l.xdgRuntime.Some? && |l.xdgRuntime.value| + 4 < 4096 && l.busProxy == Some("")
    requires var bus := Names(BusPath(l.xdgRuntime.value));
      !Shared(l, bus) && !AtX11(l, bus) && !AtSocket(l, bus) && !AtLock(l, bus)
    ensures Inside(l, Names(BusPath(l.xdgRuntime.value))) == Fresh
  {
    hide Names, Inside, Shared, AtX11, AtSocket, AtLock, BusPath;
    BusIsInRuntime(l.xdgRuntime.value);
    WholeView(l, Names(BusPath(l.xdgRuntime.value)));
  }
}
