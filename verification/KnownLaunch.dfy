/** One launch spelled out in full. */
module KnownLaunch {
  import opened Wrappers
  import opened BwrapOptions

  lemma {:induction false} PrintConcat(a: seq<Opt>, b: seq<Opt>)
    ensures PrintAll(a + b) == PrintAll(a) + PrintAll(b)
    decreases |b|
  {
    hide Opt.Print;
    if b == [] {
      assert a + b == a;
    } else {
      assert (a + b)[..|a + b| - 1] == a + b[..|b| - 1];
      PrintConcat(a, b[..|b| - 1]);
    }
  }

  lemma PrintOne(o: Opt)
    ensures PrintAll([o]) == [Spelling(o.Flag())] + o.Operands()
  {
    assert [o][..0] == [];
    assert PrintAll([]) == [];
  }

  lemma PrintTwo(a: Opt, b: Opt)
    ensures PrintAll([a, b]) == a.Print() + b.Print()
  {
    PrintConcat([a], [b]);
    PrintOne(a);
    PrintOne(b);
  }

  lemma PrintFour(a: Opt, b: Opt, c: Opt, d: Opt)
    ensures PrintAll([a, b, c, d]) == a.Print() + b.Print() + (c.Print() + d.Print())
  {
    hide PrintAll;
    PrintTwo(a, b);
    PrintTwo(c, d);
    PrintConcat([a, b], [c, d]);
    assert [a, b] + [c, d] == [a, b, c, d];
  }

  /** A launch with every kind of isolation, no runtime directory and no Xwayland. */
  const ISOLATED_LAUNCH := Launch(
    Some(Sandbox(Some("/home/user/workspace"), true, true, true, true, false, [])),
    Some("wayland-test"), None, None, Some("/home/user"), None, false)

  const DEVICE_WORDS: seq<string> := [
    "--ro-bind", "/", "/", "--dev", "/dev", "--dev-bind", "/dev/dri", "/dev/dri", "--bind", "/dev/shm", "/dev/shm"]
  const FILE_WORDS: seq<string> := [
    "--proc", "/proc", "--tmpfs", "/tmp", "--tmpfs", "/home/user",
    "--bind", "/home/user/workspace", "/home/user/workspace"]
  const SWITCH_WORDS: seq<string> := [
    "--unshare-pid", "--unshare-ipc", "--unshare-net", "--setenv", "WAYLAND_DISPLAY", "wayland-test"]
  const DISPLAY_WORDS: seq<string> := [
    "--unsetenv", "DISPLAY", "--setenv", "GDK_BACKEND", "wayland", "--setenv", "QT_QPA_PLATFORM", "wayland",
    "--setenv", "SDL_VIDEODRIVER", "wayland"]
  const FINAL_WORDS: seq<string> := ["--setenv", "ELECTRON_NO_SANDBOX", "1", "--die-with-parent", "--new-session"]

  const DEVICE_OPTIONS: seq<Opt> := [
    RoBind("/", "/"), Dev("/dev"), DevBind("/dev/dri", "/dev/dri"), Bind("/dev/shm", "/dev/shm")]
  const FILE_OPTIONS: seq<Opt> := [
    Proc("/proc"), Tmpfs("/tmp"), Tmpfs("/home/user"), Bind("/home/user/workspace", "/home/user/workspace")]
  const SWITCH_OPTIONS: seq<Opt> := [UnsharePid, UnshareIpc, UnshareNet, Setenv("WAYLAND_DISPLAY", "wayland-test")]
  const DISPLAY_OPTIONS: seq<Opt> := [
    Unsetenv("DISPLAY"), Setenv("GDK_BACKEND", "wayland"), Setenv("QT_QPA_PLATFORM", "wayland"),
    Setenv("SDL_VIDEODRIVER", "wayland")]

  lemma DevicesPrinted()
    ensures PrintAll(DEVICE_OPTIONS) == DEVICE_WORDS
  {
    hide PrintAll;
    var o := DEVICE_OPTIONS;
    PrintFour(o[0], o[1], o[2], o[3]);
  }

  lemma FilesPrinted()
    ensures PrintAll(FILE_OPTIONS) == FILE_WORDS
  {
    hide PrintAll;
    var o := FILE_OPTIONS;
    PrintFour(o[0], o[1], o[2], o[3]);
  }

  lemma SwitchesPrinted()
    ensures PrintAll(SWITCH_OPTIONS) == SWITCH_WORDS
  {
    hide PrintAll;
    var o := SWITCH_OPTIONS;
    PrintFour(o[0], o[1], o[2], o[3]);
  }

  lemma DisplayPrinted()
    ensures PrintAll(DISPLAY_OPTIONS) == DISPLAY_WORDS
  {
    hide PrintAll;
    var o := DISPLAY_OPTIONS;
    PrintFour(o[0], o[1], o[2], o[3]);
  }

  lemma FinalPrinted()
    ensures PrintAll(FINAL) == FINAL_WORDS
  {
    hide PrintAll;
    PrintOne(FINAL[0]);
    PrintTwo(DieWithParent, NewSession);
    PrintConcat([FINAL[0]], [DieWithParent, NewSession]);
    assert FINAL == [FINAL[0]] + [DieWithParent, NewSession];
  }

  lemma IsolatedLaunchOptions()
    ensures Options(ISOLATED_LAUNCH) == DEVICE_OPTIONS + FILE_OPTIONS + SWITCH_OPTIONS + DISPLAY_OPTIONS + FINAL
  {
    var l := ISOLATED_LAUNCH;
    assert RootOptions(l) + RuntimeOptions(l) + WorkspaceOptions(l) == DEVICE_OPTIONS + FILE_OPTIONS;
    assert ExtraOptions(Extras(l)) == [] && BusOptions(l) == [];
    assert NamespaceOptions(l) + EnvironmentOptions(l) == SWITCH_OPTIONS;
    assert DisplayOptions(l) == DISPLAY_OPTIONS;
  }

  /** Known answer: the whole argument vector, word by word; every option spelling occurs in it. */
  lemma IsolatedLaunchSpelledOut()
    ensures Argv(Options(ISOLATED_LAUNCH), "ls") ==
      ["bwrap"] + (DEVICE_WORDS + FILE_WORDS + SWITCH_WORDS + DISPLAY_WORDS + FINAL_WORDS)
      + ["--", "/bin/sh", "-c", "ls"]
  {
    hide PrintAll, Options;
    IsolatedLaunchOptions();
    DevicesPrinted();
    FilesPrinted();
    SwitchesPrinted();
    DisplayPrinted();
    FinalPrinted();
    hide DEVICE_OPTIONS, FILE_OPTIONS, SWITCH_OPTIONS, DISPLAY_OPTIONS, FINAL;
    hide DEVICE_WORDS, FILE_WORDS, SWITCH_WORDS, DISPLAY_WORDS, FINAL_WORDS;
    var a, b, c, d := DEVICE_OPTIONS, FILE_OPTIONS, SWITCH_OPTIONS, DISPLAY_OPTIONS;
    PrintConcat(a, b);
    PrintConcat(a + b, c);
    PrintConcat(a + b + c, d);
    PrintConcat(a + b + c + d, FINAL);
    assert END == "--";
  }
}
