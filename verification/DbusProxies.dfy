/** The table of D-Bus proxy children: started at launch, reaped by a timer, cleaned up at the end.
    A log of the system calls is the ledger that says what happened to each child and each pipe. */
module DbusProxies {

  datatype Event = Forked(pid: int) | Waited(pid: int) | Opened(fd: int) | Closed(fd: int)

  /** What the operating system holds for the launcher: proxy children not yet waited for, sandbox
      children, open ends of lifecycle pipes, and the proxies that have exited. */
  datatype Kernel = Kernel(proxies: set<int>, apps: set<int>, pipes: set<int>, exited: set<int>, log: seq<Event>)

  datatype Proxy = Proxy(pid: int, pipe: int) {
    predicate Live() { pid > 0 && pipe >= 0 }
    predicate Reaped() { pid == 0 && pipe == -1 }
  }

  const REAPED := Proxy(0, -1)

  datatype State = State(kernel: Kernel, entries: seq<Proxy>, capacity: nat)

  /** What the environment answers during one launch: whether the bus address, the proxy program and the
      socket directory are there; the numbers the kernel offers for the pipe and the children, a number that
      cannot be used standing for a failed call; whether the socket appears in time, the arguments can be
      built, and the table can grow. */
  datatype Luck = Luck(prepared: bool, readEnd: int, writeEnd: int, proxyPid: int, socketReady: bool,
                       argsBuilt: bool, appPid: int, grows: bool)

  predicate FreshPid(k: Kernel, pid: int) {
    pid > 0 && pid !in k.proxies && pid !in k.apps
  }

  predicate FreshPipe(k: Kernel, readEnd: int, writeEnd: int) {
    && readEnd >= 0 && writeEnd >= 0 && readEnd != writeEnd
    && readEnd !in k.pipes && writeEnd !in k.pipes
  }

  // ---- system calls ----

  function Pipe(k: Kernel, readEnd: int, writeEnd: int): Kernel {
    k.(pipes := k.pipes + {readEnd, writeEnd}, log := k.log + [Opened(readEnd), Opened(writeEnd)])
  }

  function Close(k: Kernel, fd: int): Kernel {
    k.(pipes := k.pipes - {fd}, log := k.log + [Closed(fd)])
  }

  /** A number that comes back names a new child, which has not exited. */
  function Fork(k: Kernel, pid: int): Kernel {
    k.(proxies := k.proxies + {pid}, exited := k.exited - {pid}, log := k.log + [Forked(pid)])
  }

  function Wait(k: Kernel, pid: int): Kernel {
    k.(proxies := k.proxies - {pid}, exited := k.exited - {pid}, log := k.log + [Waited(pid)])
  }

  // ---- one step ----

  predicate Starts(k: Kernel, luck: Luck) {
    && luck.prepared && FreshPipe(k, luck.readEnd, luck.writeEnd)
    && FreshPid(k, luck.proxyPid) && luck.socketReady
  }

  /** What starting a proxy leaves behind, failed or not. */
  function Started(k: Kernel, luck: Luck): Kernel {
    if !luck.prepared || !FreshPipe(k, luck.readEnd, luck.writeEnd) then k
    else
      var piped := Pipe(k, luck.readEnd, luck.writeEnd);
      if !FreshPid(k, luck.proxyPid) then Close(Close(piped, luck.readEnd), luck.writeEnd)
      else
        var running := Close(Fork(piped, luck.proxyPid), luck.readEnd);
        if luck.socketReady then running else Close(Wait(running, luck.proxyPid), luck.writeEnd)
  }

  /** A proxy that will not be tracked is closed and waited for. */
  function Discarded(k: Kernel, p: Proxy): Kernel {
    Wait(Close(k, p.pipe), p.pid)
  }

  predicate AppForks(s: State, filter: bool, luck: Luck) {
    luck.argsBuilt && FreshPid(if filter then Started(s.kernel, luck) else s.kernel, luck.appPid)
  }

  predicate HasRoom(s: State, luck: Luck) {
    |s.entries| < s.capacity || luck.grows
  }

  function Launched(s: State, filter: bool, luck: Luck): State {
    var p := Proxy(luck.proxyPid, luck.writeEnd);
    var started := filter && Starts(s.kernel, luck);
    var k := if filter then Started(s.kernel, luck) else s.kernel;
    if !AppForks(s, filter, luck) then s.(kernel := if started then Discarded(k, p) else k)
    else
      var launched := k.(apps := k.apps + {luck.appPid});
      if !started then s.(kernel := launched)
      else if !HasRoom(s, luck) then s.(kernel := Discarded(launched, p))
      else State(launched, s.entries + [p], Room(s))
  }

  /** The capacity once there is room for one more. */
  function Room(s: State): nat {
    if |s.entries| < s.capacity then s.capacity else if s.capacity != 0 then s.capacity * 2 else 4
  }

  function ReapedAt(s: State, i: nat): State
    requires i < |s.entries|
  {
    var p := s.entries[i];
    if p.pid <= 0 || p.pid !in s.kernel.exited then s
    else
      var waited := Wait(s.kernel, p.pid);
      State(if p.pipe >= 0 then Close(waited, p.pipe) else waited, s.entries[i := REAPED], s.capacity)
  }

  /** The first `n` entries have been looked at. */
  function ReapedTo(s: State, n: nat): (t: State)
    requires n <= |s.entries|
    ensures |t.entries| == |s.entries| && t.capacity == s.capacity
  {
    if n == 0 then s else ReapedAt(ReapedTo(s, n - 1), n - 1)
  }

  /** The cleanup of one entry; a proxy still running is waited for just the same. */
  function Cleaned(k: Kernel, p: Proxy): Kernel {
    if p.pid == 0 then k
    else
      var closed := if p.pipe >= 0 then Close(k, p.pipe) else k;
      if p.pid > 0 then Wait(closed, p.pid) else closed
  }

  function CleanedTo(s: State, n: nat): Kernel
    requires n <= |s.entries|
  {
    if n == 0 then s.kernel else Cleaned(CleanedTo(s, n - 1), s.entries[n - 1])
  }

  /** Exit is the environment's, between any two calls: a proxy child exits, or a sandbox child is gone, which
      its own parent has waited for, so that its number is free again. */
  datatype Call = Launch(filter: bool, luck: Luck) | Reap | Cleanup | Exit(pid: int)

  function Step(s: State, c: Call): State {
    match c
    case Launch(filter, luck) => Launched(s, filter, luck)
    case Reap => ReapedTo(s, |s.entries|)
    case Cleanup => State(CleanedTo(s, |s.entries|), [], 0)
    case Exit(pid) =>
      if pid in s.kernel.proxies then s.(kernel := s.kernel.(exited := s.kernel.exited + {pid}))
      else s.(kernel := s.kernel.(apps := s.kernel.apps - {pid}))
  }

  function After(run: seq<Call>): State {
    if run == [] then State(Kernel({}, {}, {}, {}, []), [], 0)
    else Step(After(run[..|run| - 1]), run[|run| - 1])
  }

  // ---- the table tracks what is held ----

  /** The numbers in `s` are exactly the non-negative ones in `numbers`, each at one place. */
  ghost predicate Lists(numbers: seq<int>, s: set<int>) {
    && (forall i, j | 0 <= i < j < |numbers| && numbers[i] >= 0 :: numbers[i] != numbers[j])
    && (forall x :: x in s <==> x >= 0 && x in numbers)
  }

  lemma ListsOneMore(numbers: seq<int>, s: set<int>, x: int)
    requires Lists(numbers, s) && x >= 0 && x !in s
    ensures Lists(numbers + [x], s + {x})
  {
  }

  lemma ListsOneLess(numbers: seq<int>, s: set<int>, k: nat)
    requires Lists(numbers, s) && k < |numbers| && numbers[k] >= 0
    ensures numbers[k] in s && Lists(numbers[k := -1], s - {numbers[k]})
  {
    var rest := numbers[k := -1];
    forall x ensures x in s - {numbers[k]} <==> x >= 0 && x in rest {
      if x in numbers && x != numbers[k] {
        var i :| 0 <= i < |numbers| && numbers[i] == x;
        assert rest[i] == x;
      }
      if x >= 0 && x in rest {
        var i :| 0 <= i < |rest| && rest[i] == x;
        assert numbers[i] == x && i != k;
      }
    }
  }

  function Pids(entries: seq<Proxy>): (r: seq<int>)
    ensures |r| == |entries|
  {
    seq(|entries|, i requires 0 <= i < |entries| => if entries[i].Live() then entries[i].pid else -1)
  }

  function Pipes(entries: seq<Proxy>): (r: seq<int>)
    ensures |r| == |entries|
  {
    seq(|entries|, i requires 0 <= i < |entries| => if entries[i].Live() then entries[i].pipe else -1)
  }

  /** The live entries are exactly the children to be waited for and the pipes to be closed, one of
      each per entry; every other entry is marked as reaped, with its pipe closed. */
  ghost predicate Tracks(entries: seq<Proxy>, proxies: set<int>, pipes: set<int>) {
    && (forall i | 0 <= i < |entries| :: entries[i].Live() || entries[i].Reaped())
    && Lists(Pids(entries), proxies)
    && Lists(Pipes(entries), pipes)
  }

  lemma TracksOneMore(entries: seq<Proxy>, proxies: set<int>, pipes: set<int>, p: Proxy)
    requires Tracks(entries, proxies, pipes)
    requires p.Live() && p.pid !in proxies && p.pipe !in pipes
    ensures Tracks(entries + [p], proxies + {p.pid}, pipes + {p.pipe})
  {
    ListsOneMore(Pids(entries), proxies, p.pid);
    ListsOneMore(Pipes(entries), pipes, p.pipe);
    assert Pids(entries + [p]) == Pids(entries) + [p.pid];
    assert Pipes(entries + [p]) == Pipes(entries) + [p.pipe];
  }

  /** Once its child has been waited for and its pipe closed, an entry may be marked as reaped. */
  lemma TracksReaped(entries: seq<Proxy>, proxies: set<int>, pipes: set<int>, k: nat)
    requires Tracks(entries, proxies, pipes)
    requires k < |entries| && entries[k].Live()
    ensures entries[k].pid in proxies && entries[k].pipe in pipes
    ensures Tracks(entries[k := REAPED], proxies - {entries[k].pid}, pipes - {entries[k].pipe})
  {
    assert Pids(entries)[k] == entries[k].pid && Pipes(entries)[k] == entries[k].pipe;
    ListsOneLess(Pids(entries), proxies, k);
    ListsOneLess(Pipes(entries), pipes, k);
    assert Pids(entries[k := REAPED]) == Pids(entries)[k := -1];
    assert Pipes(entries[k := REAPED]) == Pipes(entries)[k := -1];
  }

  lemma NothingLive(entries: seq<Proxy>, proxies: set<int>, pipes: set<int>)
    requires Tracks(entries, proxies, pipes)
    requires forall i | 0 <= i < |entries| :: entries[i].Reaped()
    ensures proxies == {} && pipes == {}
  {
    forall x ensures x !in proxies && x !in pipes {
      assert x in proxies ==> x in Pids(entries);
      assert x in pipes ==> x in Pipes(entries);
    }
  }

  // ---- the ledger ----

  function Count(log: seq<Event>, e: Event): nat {
    if log == [] then 0 else Count(log[..|log| - 1], e) + if log[|log| - 1] == e then 1 else 0
  }

  lemma CountOneMore(log: seq<Event>, last: Event, e: Event)
    ensures Count(log + [last], e) == Count(log, e) + if last == e then 1 else 0
  {
    assert (log + [last])[..|log|] == log;
  }

  /** Each child was waited for as often as it was started, but for one still held; pipe ends likewise. */
  ghost predicate Balanced(k: Kernel) {
    && (forall pid :: Count(k.log, Forked(pid)) == Count(k.log, Waited(pid)) + if pid in k.proxies then 1 else 0)
    && (forall fd :: Count(k.log, Opened(fd)) == Count(k.log, Closed(fd)) + if fd in k.pipes then 1 else 0)
  }

  lemma CloseBalances(k: Kernel, fd: int)
    requires Balanced(k) && fd in k.pipes
    ensures Balanced(Close(k, fd))
  {
    forall e ensures Count(k.log + [Closed(fd)], e) == Count(k.log, e) + if Closed(fd) == e then 1 else 0 {
      CountOneMore(k.log, Closed(fd), e);
    }
  }

  lemma WaitBalances(k: Kernel, pid: int)
    requires Balanced(k) && pid in k.proxies
    ensures Balanced(Wait(k, pid))
  {
    forall e ensures Count(k.log + [Waited(pid)], e) == Count(k.log, e) + if Waited(pid) == e then 1 else 0 {
      CountOneMore(k.log, Waited(pid), e);
    }
  }

  lemma ForkBalances(k: Kernel, pid: int)
    requires Balanced(k) && pid !in k.proxies
    ensures Balanced(Fork(k, pid))
  {
    forall e ensures Count(k.log + [Forked(pid)], e) == Count(k.log, e) + if Forked(pid) == e then 1 else 0 {
      CountOneMore(k.log, Forked(pid), e);
    }
  }

  lemma OpenBalances(k: Kernel, fd: int)
    requires Balanced(k) && fd !in k.pipes
    ensures Balanced(k.(pipes := k.pipes + {fd}, log := k.log + [Opened(fd)]))
  {
    forall e ensures Count(k.log + [Opened(fd)], e) == Count(k.log, e) + if Opened(fd) == e then 1 else 0 {
      CountOneMore(k.log, Opened(fd), e);
    }
  }

  lemma PipeBalances(k: Kernel, readEnd: int, writeEnd: int)
    requires Balanced(k) && FreshPipe(k, readEnd, writeEnd)
    ensures Balanced(Pipe(k, readEnd, writeEnd))
  {
    OpenBalances(k, readEnd);
    var one := k.(pipes := k.pipes + {readEnd}, log := k.log + [Opened(readEnd)]);
    OpenBalances(one, writeEnd);
    assert one.pipes + {writeEnd} == k.pipes + {readEnd, writeEnd};
    assert one.log + [Opened(writeEnd)] == k.log + [Opened(readEnd), Opened(writeEnd)];
  }

  // ---- every run ----

  ghost predicate Inv(s: State) {
    Tracks(s.entries, s.kernel.proxies, s.kernel.pipes) && Balanced(s.kernel) && |s.entries| <= s.capacity
  }

  /** Starting a proxy adds one child and one pipe, or leaves neither. */
  lemma StartedHolds(k: Kernel, luck: Luck)
    requires Balanced(k)
    ensures Balanced(Started(k, luck)) && Started(k, luck).apps == k.apps
    ensures Starts(k, luck) ==>
      && Started(k, luck).proxies == k.proxies + {luck.proxyPid} && luck.proxyPid !in k.proxies
      && Started(k, luck).pipes == k.pipes + {luck.writeEnd} && luck.writeEnd !in k.pipes
    ensures !Starts(k, luck) ==>
      Started(k, luck).proxies == k.proxies && Started(k, luck).pipes == k.pipes
  {
    hide Balanced;
    if luck.prepared && FreshPipe(k, luck.readEnd, luck.writeEnd) {
      var piped := Pipe(k, luck.readEnd, luck.writeEnd);
      PipeBalances(k, luck.readEnd, luck.writeEnd);
      if !FreshPid(k, luck.proxyPid) {
        CloseBalances(piped, luck.readEnd);
        CloseBalances(Close(piped, luck.readEnd), luck.writeEnd);
      } else {
        var forked := Fork(piped, luck.proxyPid);
        ForkBalances(piped, luck.proxyPid);
        CloseBalances(forked, luck.readEnd);
        var running := Close(forked, luck.readEnd);
        WaitBalances(running, luck.proxyPid);
        CloseBalances(Wait(running, luck.proxyPid), luck.writeEnd);
      }
    }
  }

  lemma DiscardedHolds(k: Kernel, p: Proxy)
    requires Balanced(k) && p.pid in k.proxies && p.pipe in k.pipes
    ensures var d := Discarded(k, p);
      Balanced(d) && d.proxies == k.proxies - {p.pid} && d.pipes == k.pipes - {p.pipe} && d.apps == k.apps
  {
    CloseBalances(k, p.pipe);
    WaitBalances(Close(k, p.pipe), p.pid);
  }

  lemma LaunchKeeps(s: State, filter: bool, luck: Luck)
    requires Inv(s)
    ensures Inv(Launched(s, filter, luck))
  {
    hide Balanced, Tracks, Started, Starts;
    var p := Proxy(luck.proxyPid, luck.writeEnd);
    var k := if filter then Started(s.kernel, luck) else s.kernel;
    var launched := k.(apps := k.apps + {luck.appPid});
    StartedHolds(s.kernel, luck);
    AppsDoNotMatter(k, launched.apps);
    if filter && Starts(s.kernel, luck) {
      StartedIsLive(s.kernel, luck);
      assert k.proxies - {p.pid} == s.kernel.proxies && k.pipes - {p.pipe} == s.kernel.pipes;
      DiscardedHolds(k, p);
      DiscardedHolds(launched, p);
      TracksOneMore(s.entries, s.kernel.proxies, s.kernel.pipes, p);
    }
  }

  lemma AppsDoNotMatter(k: Kernel, apps: set<int>)
    requires Balanced(k)
    ensures Balanced(k.(apps := apps))
  {
  }

  lemma StartedIsLive(k: Kernel, luck: Luck)
    requires Starts(k, luck)
    ensures Proxy(luck.proxyPid, luck.writeEnd).Live()
  {
  }

  lemma ReapedAtKeeps(s: State, i: nat)
    requires Inv(s) && i < |s.entries|
    ensures Inv(ReapedAt(s, i))
  {
    var p := s.entries[i];
    if p.pid > 0 && p.pid in s.kernel.exited {
      TracksReaped(s.entries, s.kernel.proxies, s.kernel.pipes, i);
      WaitBalances(s.kernel, p.pid);
      CloseBalances(Wait(s.kernel, p.pid), p.pipe);
    }
  }

  lemma {:induction false} ReapedToKeeps(s: State, n: nat)
    requires Inv(s) && n <= |s.entries|
    ensures Inv(ReapedTo(s, n))
  {
    hide Inv;
    if n > 0 {
      ReapedToKeeps(s, n - 1);
      ReapedAtKeeps(ReapedTo(s, n - 1), n - 1);
    }
  }

  /** The entries as the cleanup has dealt with the first `n`, though the code no longer marks them. */
  ghost function Left(entries: seq<Proxy>, n: nat): (left: seq<Proxy>)
    requires n <= |entries|
    ensures |left| == |entries|
    ensures forall i | 0 <= i < n :: left[i] == REAPED
    ensures forall i | n <= i < |entries| :: left[i] == entries[i]
  {
    if n == 0 then entries else Left(entries, n - 1)[n - 1 := REAPED]
  }

  lemma TracksShape(entries: seq<Proxy>, proxies: set<int>, pipes: set<int>, i: nat)
    requires Tracks(entries, proxies, pipes) && i < |entries|
    ensures entries[i].Live() || entries[i] == REAPED
  {
  }

  lemma {:induction false} CleanedToKeeps(s: State, n: nat)
    requires Inv(s) && n <= |s.entries|
    ensures var k := CleanedTo(s, n);
      Tracks(Left(s.entries, n), k.proxies, k.pipes) && Balanced(k)
  {
    hide Tracks, Balanced;
    if n > 0 {
      var k, p, left := CleanedTo(s, n - 1), s.entries[n - 1], Left(s.entries, n - 1);
      CleanedToKeeps(s, n - 1);
      assert left[n - 1] == p;
      TracksShape(left, k.proxies, k.pipes, n - 1);
      if p.Live() {
        TracksReaped(left, k.proxies, k.pipes, n - 1);
        CloseBalances(k, p.pipe);
        WaitBalances(Close(k, p.pipe), p.pid);
      } else {
        assert left[n - 1 := REAPED] == left;
      }
    }
  }

  lemma NoEntries()
    ensures Tracks([], {}, {})
  {
  }

  lemma CleanupEmpties(s: State)
    requires Inv(s)
    ensures var t := Step(s, Cleanup);
      Inv(t) && t.kernel.proxies == {} && t.kernel.pipes == {}
  {
    hide Tracks, Balanced, CleanedTo;
    CleanedToKeeps(s, |s.entries|);
    var k := CleanedTo(s, |s.entries|);
    NothingLive(Left(s.entries, |s.entries|), k.proxies, k.pipes);
    NoEntries();
  }

  lemma StepKeepsInv(s: State, c: Call)
    requires Inv(s)
    ensures Inv(Step(s, c))
  {
    match c
    case Launch(filter, luck) => LaunchKeeps(s, filter, luck);
    case Reap => ReapedToKeeps(s, |s.entries|);
    case Cleanup => CleanupEmpties(s);
    case Exit(_) =>
  }

  /** Over every run of launches, each with any of its failures, reaps, cleanups and exits: the live entries
      are exactly the children and pipes still held, and everything else was waited for or closed as often
      as it was started or opened. */
  lemma {:induction false} Reachable(run: seq<Call>)
    ensures
      var s := After(run);
      && Tracks(s.entries, s.kernel.proxies, s.kernel.pipes)
      && Balanced(s.kernel)
      && |s.entries| <= s.capacity
  {
    if run != [] {
      Reachable(run[..|run| - 1]);
      StepKeepsInv(After(run[..|run| - 1]), run[|run| - 1]);
    }
  }

  /** By the end of a cleanup each child ever started has been waited for, and each pipe end ever opened
      has been closed, once for each time. */
  lemma CleanupSettlesEverything(run: seq<Call>)
    ensures var log := After(run + [Cleanup]).kernel.log;
      && (forall pid :: Count(log, Waited(pid)) == Count(log, Forked(pid)))
      && (forall fd :: Count(log, Closed(fd)) == Count(log, Opened(fd)))
  {
    assert (run + [Cleanup])[..|run|] == run;
    Reachable(run);
    CleanupEmpties(After(run));
  }

  // ---- what the calls do to the table ----

  /** A launch tracks a proxy iff one was asked for and came up, the app was forked, and there was room.  The app
      is forked whenever its arguments and a process can be had, also when its proxy has failed. */
  lemma LaunchTracksIff(s: State, filter: bool, luck: Luck)
    requires Inv(s)
    ensures var k, t := s.kernel, Launched(s, filter, luck);
      var comesUp := filter && luck.prepared && FreshPipe(k, luck.readEnd, luck.writeEnd)
        && FreshPid(k, luck.proxyPid) && luck.socketReady;
      var forks := luck.argsBuilt && FreshPid(k, luck.appPid) && !(comesUp && luck.appPid == luck.proxyPid);
      && t.entries == s.entries
          + (if comesUp && forks && (|s.entries| < s.capacity || luck.grows)
             then [Proxy(luck.proxyPid, luck.writeEnd)] else [])
      && t.kernel.apps == s.kernel.apps + (if forks then {luck.appPid} else {})
  {
    hide Started, Balanced, Tracks;
    assert s.entries + [] == s.entries;
    StartedHolds(s.kernel, luck);
  }

  lemma ReapedAtOthers(s: State, i: nat, j: nat)
    requires Inv(s) && i < |s.entries| && j < |s.entries| && i != j && s.entries[j].Live()
    ensures s.entries[j].pid in ReapedAt(s, i).kernel.exited <==> s.entries[j].pid in s.kernel.exited
  {
    assert Pids(s.entries)[j] == s.entries[j].pid;
    assert s.entries[i].Live() ==> Pids(s.entries)[i] == s.entries[i].pid;
    assert Pids(s.entries)[i] >= 0 ==> Pids(s.entries)[i] != Pids(s.entries)[j];
  }

  /** A reap marks exactly the entries whose proxies have exited, and leaves the others as they are. */
  lemma {:induction false} ReapMarksTheExited(s: State, n: nat, j: nat)
    requires Inv(s) && n <= |s.entries| && j < |s.entries|
    ensures var p := s.entries[j];
      ReapedTo(s, n).entries[j] == if j < n && p.Live() && p.pid in s.kernel.exited then REAPED else p
    ensures j >= n && s.entries[j].Live() ==>
      (s.entries[j].pid in ReapedTo(s, n).kernel.exited <==> s.entries[j].pid in s.kernel.exited)
  {
    hide Tracks, Balanced;
    if n > 0 {
      ReapMarksTheExited(s, n - 1, j);
      ReapedToKeeps(s, n - 1);
      var t := ReapedTo(s, n - 1);
      TracksShape(t.entries, t.kernel.proxies, t.kernel.pipes, n - 1);
      if j != n - 1 && t.entries[j].Live() { ReapedAtOthers(t, n - 1, j); }
    }
  }

  // ---- the code ----

  class Os {
    var kernel: Kernel

    constructor ()
      ensures kernel == After([]).kernel
    {
      kernel := Kernel({}, {}, {}, {}, []);
    }

    method OpenPipe(readEnd: int, writeEnd: int) returns (ok: bool)
      modifies this
      ensures ok == FreshPipe(old(kernel), readEnd, writeEnd)
      ensures kernel == if ok then Pipe(old(kernel), readEnd, writeEnd) else old(kernel)
    {
      ok := FreshPipe(kernel, readEnd, writeEnd);
      if ok { kernel := Pipe(kernel, readEnd, writeEnd); }
    }

    method CloseEnd(fd: int)
      modifies this
      ensures kernel == Close(old(kernel), fd)
    {
      kernel := Close(kernel, fd);
    }

    method ForkProxy(offered: int) returns (pid: int)
      modifies this
      ensures pid == if FreshPid(old(kernel), offered) then offered else -1
      ensures kernel == if pid > 0 then Fork(old(kernel), pid) else old(kernel)
    {
      if !FreshPid(kernel, offered) { return -1; }
      kernel := Fork(kernel, offered);
      return offered;
    }

    method ForkApp(offered: int) returns (pid: int)
      modifies this
      ensures pid == if FreshPid(old(kernel), offered) then offered else -1
      ensures kernel == if pid > 0 then old(kernel).(apps := old(kernel).apps + {pid}) else old(kernel)
    {
      if !FreshPid(kernel, offered) { return -1; }
      kernel := kernel.(apps := kernel.apps + {offered});
      return offered;
    }

    method WaitFor(pid: int)
      modifies this
      ensures kernel == Wait(old(kernel), pid)
    {
      kernel := Wait(kernel, pid);
    }

    /** waitpid with WNOHANG: 0 while the child is running. */
    method WaitNoHang(pid: int) returns (ret: int)
      modifies this
      ensures ret == if pid in old(kernel).exited then pid else 0
      ensures kernel == if pid in old(kernel).exited then Wait(old(kernel), pid) else old(kernel)
    {
      if pid !in kernel.exited { return 0; }
      kernel := Wait(kernel, pid);
      return pid;
    }
  }

  method StartProxy(os: Os, luck: Luck) returns (ok: bool, proxy: Proxy)
    modifies os
    ensures os.kernel == Started(old(os.kernel), luck) && ok == Starts(old(os.kernel), luck)
    ensures if ok then proxy == Proxy(luck.proxyPid, luck.writeEnd) else proxy.pid <= 0
  {
    ok, proxy := false, Proxy(-1, -1);
    if !luck.prepared {
      return;
    }
    var piped := os.OpenPipe(luck.readEnd, luck.writeEnd);
    if !piped {
      return;
    }
    var pid := os.ForkProxy(luck.proxyPid);
    if pid < 0 {
      os.CloseEnd(luck.readEnd);
      os.CloseEnd(luck.writeEnd);
      return;
    }
    os.CloseEnd(luck.readEnd);
    proxy := Proxy(pid, luck.writeEnd);
    if !luck.socketReady {
      os.WaitFor(pid);
      proxy := proxy.(pid := 0);
      os.CloseEnd(luck.writeEnd);
      proxy := proxy.(pipe := -1);
      return;
    }
    ok := true;
  }

  /** The compositor's table; the array is null until the first proxy is tracked. */
  class Table {
    const os: Os
    var entries: array?<Proxy>
    var count: nat
    var capacity: nat

    ghost predicate Shaped()
      reads this
    {
      && count <= capacity
      && (entries == null ==> capacity == 0)
      && (entries != null ==> entries.Length == capacity)
    }

    ghost function Contents(): State
      requires Shaped()
      reads this, os, entries
    {
      State(os.kernel, if entries == null then [] else entries[..count], capacity)
    }

    constructor (os: Os)
      requires os.kernel == After([]).kernel
      ensures Shaped() && this.os == os && Contents() == After([])
    {
      this.os := os;
      entries, count, capacity := null, 0, 0;
    }

    method Discard(proxy: Proxy)
      modifies os
      ensures os.kernel == Discarded(old(os.kernel), proxy)
    {
      os.CloseEnd(proxy.pipe);
      os.WaitFor(proxy.pid);
    }

    /** Makes room for one more entry; on failure the table stays as it is. */
    method Grow(grows: bool) returns (room: bool)
      requires Shaped()
      modifies this`entries, this`capacity
      ensures Shaped() && room == (count < old(capacity) || grows)
      ensures Contents() == old(Contents()).(capacity := if room then Room(old(Contents())) else old(capacity))
      ensures (room ==> count < capacity) && (!room ==> count == capacity)
      ensures entries == old(entries) || fresh(entries)
    {
      if count < capacity {
        return true;
      }
      var newCap := if capacity != 0 then capacity * 2 else 4;
      if !grows {
        return false;
      }
      var tmp := new Proxy[newCap](_ => REAPED);
      if entries != null {
        CopyInto(tmp, entries, count);
      }
      entries, capacity := tmp, newCap;
      return true;
    }

    static method CopyInto(target: array<Proxy>, from: array<Proxy>, n: nat)
      requires n <= from.Length && n <= target.Length && target != from
      modifies target
      ensures target[..n] == from[..n]
    {
      forall i | 0 <= i < n {
        target[i] := from[i];
      }
    }

    method Append(proxy: Proxy)
      requires Shaped() && count < capacity
      modifies this`count, entries
      ensures Shaped() && Contents() == old(Contents()).(entries := old(Contents()).entries + [proxy])
    {
      entries[count] := proxy;
      count := count + 1;
    }

    /** Launches an app; `filter` asks for a filtered bus. */
    method LaunchApp(filter: bool, luck: Luck) returns (app: int)
      requires Shaped()
      modifies this, os, entries
      ensures Shaped() && (entries == old(entries) || fresh(entries))
      ensures Contents() == Step(old(Contents()), Launch(filter, luck))
      ensures app == if AppForks(old(Contents()), filter, luck) then luck.appPid else -1
    {
      var started, proxy := false, Proxy(-1, -1);
      if filter {
        started, proxy := StartProxy(os, luck);
      }
      if !luck.argsBuilt {
        if proxy.pid > 0 {
          Discard(proxy);
        }
        return -1;
      }
      app := os.ForkApp(luck.appPid);
      if app < 0 {
        if proxy.pid > 0 {
          Discard(proxy);
        }
        return -1;
      }
      if proxy.pid > 0 {
        var room := Grow(luck.grows);
        if !room {
          Discard(proxy);
        }
        if count < capacity {
          Append(proxy);
        }
      }
    }

    /** The timer: children that have exited are waited for, and their pipes closed. */
    method ReapProxies()
      requires Shaped()
      modifies os, entries
      ensures Shaped() && Contents() == Step(old(Contents()), Reap)
    {
      if entries == null {
        return;
      }
      ghost var before := Contents();
      for i := 0 to count
        invariant Shaped() && Contents() == ReapedTo(before, i)
      {
        var p := entries[i];
        assert p == ReapedTo(before, i).entries[i];
        if p.pid <= 0 {
          continue;
        }
        var ret := os.WaitNoHang(p.pid);
        if ret > 0 {
          if p.pipe >= 0 {
            os.CloseEnd(p.pipe);
          }
          entries[i] := REAPED;
        }
      }
    }

    /** The end of the compositor. */
    method CleanUp()
      requires Shaped()
      modifies this, os
      ensures Shaped() && Contents() == Step(old(Contents()), Cleanup)
    {
      ghost var before := Contents();
      for i := 0 to count
        invariant Shaped() && entries == old(entries) && count == old(count) && capacity == old(capacity)
        invariant Contents() == before.(kernel := CleanedTo(before, i))
      {
        var p := entries[i];
        assert p == before.entries[i];
        if p.pid == 0 {
          continue;
        }
        if p.pipe >= 0 {
          os.CloseEnd(p.pipe);
        }
        if p.pid > 0 {
          var ret := os.WaitNoHang(p.pid);
          if ret == 0 {
            os.WaitFor(p.pid);
          }
        }
      }
      entries, count, capacity := null, 0, 0;
    }
  }
}
