/** The manager of sandboxed apps: one compositor per app, a list model that mirrors the apps, and a
    monitor that removes apps that have exited.  Proved over every run of its calls. */
module DlpManager {
  import opened Wrappers
  import opened Sequences

  datatype Policy = Policy(clipboardBlockOutgoing: bool, clipboardBlockIncoming: bool,
                           screenshotBlock: bool, fileSandbox: bool, networkSandbox: bool,
                           watermarkEnabled: bool)

  /** A compositor as its library sees it; `destroyed` counts the calls that destroyed it. */
  datatype Compositor = Compositor(policy: Policy, identity: Option<string>, destroyed: nat)

  datatype Setting = ThePolicy(policy: Policy) | TheIdentity(identity: string)

  function With(c: Compositor, setting: Setting): Compositor {
    match setting
    case ThePolicy(policy) => c.(policy := policy)
    case TheIdentity(identity) => c.(identity := Some(identity))
  }

  datatype App = App(pid: int, name: string, command: string, compositor: nat, exited: bool)

  datatype Entry = Entry(pid: int, name: string, command: string)

  datatype Signal = AppCountChanged | RunningChanged | ErrorOccurred

  /** `created` lists every compositor ever created; an app refers to its own by position. */
  datatype State = State(apps: seq<App>, entries: seq<Entry>, created: seq<Compositor>,
                         policy: Policy, identity: string, log: seq<Signal>)

  /** What the monitor finds of one app: whether it was reaped now, and the clients still connected. */
  datatype Finding = Finding(reaped: bool, clients: nat)

  datatype Event =
    | Launch(available: bool, creates: bool, pid: int, name: string, command: string)
    | StopApp(pid: int)
    | StopAll
    | UpdatePolicy(policy: Policy)
    | SetIdentity(identity: string)
    | Check(findings: seq<Finding>)

  // ---- the mirror ----

  /** The entries without the first one that has the pid. */
  function WithoutPid(entries: seq<Entry>, pid: int): seq<Entry> {
    if entries == [] then []
    else if entries[0].pid == pid then entries[1..]
    else [entries[0]] + WithoutPid(entries[1..], pid)
  }

  class RunningAppModel {
    var entries: seq<Entry>

    constructor ()
      ensures entries == []
    {
      entries := [];
    }

    method AddApp(pid: int, name: string, command: string)
      modifies this
      ensures entries == old(entries) + [Entry(pid, name, command)]
    {
      entries := entries + [Entry(pid, name, command)];
    }

    method RemoveApp(pid: int)
      modifies this
      ensures entries == WithoutPid(old(entries), pid)
    {
      for i := 0 to |entries|
        invariant entries == old(entries)
        invariant WithoutPid(entries, pid) == entries[..i] + WithoutPid(entries[i..], pid)
      {
        if entries[i].pid == pid {
          assert entries[i..][1..] == entries[i + 1..];
          entries := entries[..i] + entries[i + 1..];
          return;
        }
        NextEntry(entries, i, pid);
      }
      assert entries[..|entries|] + WithoutPid([], pid) == entries;
    }

    method Clear()
      modifies this
      ensures entries == []
    {
      if entries == [] { return; }
      entries := [];
    }
  }

  lemma NextEntry(entries: seq<Entry>, i: nat, pid: int)
    requires i < |entries| && entries[i].pid != pid
    ensures entries[..i] + WithoutPid(entries[i..], pid)
         == entries[..i + 1] + WithoutPid(entries[i + 1..], pid)
  {
    assert entries[i..][1..] == entries[i + 1..];
    assert entries[..i + 1] == entries[..i] + [entries[i]];
  }

  // ---- one step ----

  function Destroyed(created: seq<Compositor>, c: nat): seq<Compositor> {
    if c < |created| then created[c := created[c].(destroyed := created[c].destroyed + 1)] else created
  }

  /** The setting pushed to every app's compositor. */
  function Applied(created: seq<Compositor>, apps: seq<App>, setting: Setting): seq<Compositor> {
    if apps == [] then created
    else
      var before, c := Applied(created, apps[..|apps| - 1], setting), apps[|apps| - 1].compositor;
      if c < |before| then before[c := With(before[c], setting)] else before
  }

  function AllDestroyed(created: seq<Compositor>, apps: seq<App>): seq<Compositor> {
    if apps == [] then created
    else Destroyed(AllDestroyed(created, apps[..|apps| - 1]), apps[|apps| - 1].compositor)
  }

  function Without(apps: seq<App>, i: nat): seq<App>
    requires i < |apps|
  {
    apps[..i] + apps[i + 1..]
  }

  function Removed(s: State, i: nat): State
    requires i < |s.apps|
  {
    var apps := Without(s.apps, i);
    s.(apps := apps,
       created := Destroyed(s.created, s.apps[i].compositor),
       entries := WithoutPid(s.entries, s.apps[i].pid),
       log := s.log + if apps == [] then [AppCountChanged, RunningChanged] else [AppCountChanged])
  }

  function IndexOfPid(apps: seq<App>, pid: int): (i: int)
    ensures -1 <= i < |apps|
    ensures i >= 0 ==> apps[i].pid == pid
  {
    if apps == [] then -1
    else if IndexOfPid(apps[..|apps| - 1], pid) >= 0 then IndexOfPid(apps[..|apps| - 1], pid)
    else if apps[|apps| - 1].pid == pid then |apps| - 1 else -1
  }

  function Launched(s: State, pid: int, name: string, command: string): State {
    var c := Compositor(s.policy, if s.identity == "" then None else Some(s.identity), 0);
    var shown := if name == "" then command else name;
    if pid < 0 then
      s.(created := Destroyed(s.created + [c], |s.created|), log := s.log + [ErrorOccurred])
    else
      s.(created := s.created + [c],
         apps := s.apps + [App(pid, shown, command, |s.created|, false)],
         entries := s.entries + [Entry(pid, shown, command)],
         log := s.log + if s.apps == [] then [AppCountChanged, RunningChanged] else [AppCountChanged])
  }

  /** The app as the monitor leaves it, if it stays. */
  function Marked(app: App, f: Finding): App {
    app.(exited := app.exited || f.reaped)
  }

  predicate Over(app: App, f: Finding) {
    Marked(app, f).exited && f.clients == 0
  }

  /** An app nothing was found of is left alone. */
  function FindingAt(findings: seq<Finding>, i: nat): Finding {
    if i < |findings| then findings[i] else Finding(false, 1)
  }

  /** Marking an app as exited changes nothing else. */
  function MarkedAt(s: State, i: nat, f: Finding): State
    requires i < |s.apps|
  {
    s.(apps := s.apps[i := Marked(s.apps[i], f)])
  }

  /** What the monitor does at one index. */
  function Swept(s: State, i: nat, findings: seq<Finding>): (t: State)
    requires i < |s.apps|
    ensures i <= |t.apps|
  {
    var f := FindingAt(findings, i);
    var marked := MarkedAt(s, i, f);
    if Over(s.apps[i], f) then Removed(marked, i) else marked
  }

  /** The monitor from index n - 1 down to 0. */
  function CheckDown(s: State, n: nat, findings: seq<Finding>): State
    requires n <= |s.apps|
    decreases n
  {
    if n == 0 then s else CheckDown(Swept(s, n - 1, findings), n - 1, findings)
  }

  function Step(s: State, e: Event): State {
    match e
    case Launch(available, creates, pid, name, command) =>
      if !available || !creates then s.(log := s.log + [ErrorOccurred])
      else Launched(s, pid, name, command)
    case StopApp(pid) =>
      if IndexOfPid(s.apps, pid) < 0 then s else Removed(s, IndexOfPid(s.apps, pid))
    case StopAll =>
      s.(apps := [], entries := [], created := AllDestroyed(s.created, s.apps),
         log := s.log + if s.apps == [] then [] else [AppCountChanged, RunningChanged])
    case UpdatePolicy(policy) =>
      s.(policy := policy, created := Applied(s.created, s.apps, ThePolicy(policy)))
    case SetIdentity(identity) =>
      s.(identity := identity, created := Applied(s.created, s.apps, TheIdentity(identity)))
    case Check(findings) => CheckDown(s, |s.apps|, findings)
  }

  const NO_POLICY := Policy(false, false, false, false, false, false)

  function After(run: seq<Event>): State {
    if run == [] then State([], [], [], NO_POLICY, "", [])
    else Step(After(run[..|run| - 1]), run[|run| - 1])
  }

  // ---- compositors ----

  predicate Held(apps: seq<App>, c: nat) {
    apps != [] && (apps[|apps| - 1].compositor == c || Held(apps[..|apps| - 1], c))
  }

  ghost predicate Ordered(apps: seq<App>, created: nat) {
    && (forall i, j | 0 <= i < j < |apps| :: apps[i].compositor < apps[j].compositor)
    && (forall i | 0 <= i < |apps| :: apps[i].compositor < created)
  }

  /** The identity a live compositor may carry: the current one, or with none set, none or the empty one. */
  predicate Carries(c: Compositor, policy: Policy, identity: string) {
    && c.policy == policy
    && (c.identity == Some(identity) || (identity == "" && c.identity == None))
  }

  /** A compositor an app holds is alive and up to date; any other was destroyed once. */
  ghost predicate Looked(s: State, c: nat)
    requires c < |s.created|
  {
    if Held(s.apps, c) then s.created[c].destroyed == 0 && Carries(s.created[c], s.policy, s.identity)
    else s.created[c].destroyed == 1
  }

  ghost predicate LookedAfter(s: State) {
    && Ordered(s.apps, |s.created|)
    && forall c: nat | c < |s.created| :: Looked(s, c)
  }

  lemma {:induction false} HeldByOne(apps: seq<App>, c: nat)
    ensures Held(apps, c) <==> exists i :: 0 <= i < |apps| && apps[i].compositor == c
  {
    if apps != [] {
      var front := apps[..|apps| - 1];
      HeldByOne(front, c);
      if Held(front, c) {
        var i :| 0 <= i < |front| && front[i].compositor == c;
        assert apps[i].compositor == c;
      }
      if i :| 0 <= i < |apps| && apps[i].compositor == c {
        if i < |front| { assert front[i].compositor == c; }
      }
    }
  }

  lemma HeldWithout(apps: seq<App>, i: nat, created: nat, c: nat)
    requires Ordered(apps, created) && i < |apps|
    ensures Held(Without(apps, i), c) <==> Held(apps, c) && c != apps[i].compositor
  {
    hide Held;
    var rest := Without(apps, i);
    HeldByOne(apps, c);
    HeldByOne(rest, c);
    assert forall k | 0 <= k < i :: rest[k] == apps[k];
    assert forall k | i <= k < |rest| :: rest[k] == apps[k + 1];
    if k :| 0 <= k < |apps| && apps[k].compositor == c {
      if k != i { assert rest[if k < i then k else k - 1].compositor == c; }
    }
  }

  lemma OrderedWithout(apps: seq<App>, i: nat, created: nat)
    requires Ordered(apps, created) && i < |apps|
    ensures Ordered(Without(apps, i), created)
  {
  }

  lemma RemovedLooksAfter(s: State, i: nat)
    requires LookedAfter(s) && i < |s.apps|
    ensures LookedAfter(Removed(s, i))
  {
    var t, gone := Removed(s, i), s.apps[i].compositor;
    OrderedWithout(s.apps, i, |s.created|);
    HeldByOne(s.apps, gone);
    forall c: nat | c < |t.created| ensures Looked(t, c) {
      assert Looked(s, c);
      HeldWithout(s.apps, i, |s.created|, c);
    }
  }

  lemma {:induction false} AppliedAt(created: seq<Compositor>, apps: seq<App>, setting: Setting, c: nat)
    requires Ordered(apps, |created|) && c < |created|
    ensures |Applied(created, apps, setting)| == |created|
    ensures Applied(created, apps, setting)[c]
         == if Held(apps, c) then With(created[c], setting) else created[c]
  {
    if apps != [] {
      var front, last := apps[..|apps| - 1], apps[|apps| - 1].compositor;
      AppliedAt(created, front, setting, c);
      HeldByOne(front, last);
    }
  }

  lemma {:induction false} AllDestroyedAt(created: seq<Compositor>, apps: seq<App>, c: nat)
    requires Ordered(apps, |created|) && c < |created|
    ensures |AllDestroyed(created, apps)| == |created|
    ensures AllDestroyed(created, apps)[c]
         == created[c].(destroyed := created[c].destroyed + if Held(apps, c) then 1 else 0)
  {
    if apps != [] {
      var front, last := apps[..|apps| - 1], apps[|apps| - 1].compositor;
      AllDestroyedAt(created, front, c);
      HeldByOne(front, last);
    }
  }

  lemma LaunchedLooksAfter(s: State, pid: int, name: string, command: string)
    requires LookedAfter(s)
    ensures LookedAfter(Launched(s, pid, name, command))
  {
    var t := Launched(s, pid, name, command);
    HeldByOne(s.apps, |s.created|);
    if pid >= 0 { assert t.apps[..|s.apps|] == s.apps; }
    forall c: nat | c < |t.created| ensures Looked(t, c) {
      if c < |s.created| { assert Looked(s, c); }
    }
  }

  lemma AppliedLooksAfter(s: State, setting: Setting)
    requires LookedAfter(s)
    ensures var created := Applied(s.created, s.apps, setting);
      match setting
      case ThePolicy(policy) => LookedAfter(s.(policy := policy, created := created))
      case TheIdentity(identity) => LookedAfter(s.(identity := identity, created := created))
  {
    var created := Applied(s.created, s.apps, setting);
    var t := if setting.ThePolicy? then s.(policy := setting.policy, created := created)
             else s.(identity := setting.identity, created := created);
    if s.created == [] { assert s.apps == []; }
    else { AppliedAt(s.created, s.apps, setting, 0); }
    forall c: nat | c < |t.created| ensures Looked(t, c) {
      assert Looked(s, c);
      AppliedAt(s.created, s.apps, setting, c);
    }
  }

  /** After stopAll no compositor is left: each one ever created has been destroyed, once. */
  lemma StopAllDestroysTheRest(s: State)
    requires LookedAfter(s)
    ensures LookedAfter(Step(s, StopAll))
    ensures forall c | 0 <= c < |s.created| ::
      |Step(s, StopAll).created| == |s.created| && Step(s, StopAll).created[c].destroyed == 1
  {
    var t := Step(s, StopAll);
    if s.created == [] { assert s.apps == []; }
    else { AllDestroyedAt(s.created, s.apps, 0); }
    forall c: nat | c < |t.created| ensures Looked(t, c) {
      assert Looked(s, c);
      AllDestroyedAt(s.created, s.apps, c);
    }
    forall c | 0 <= c < |s.created| ensures t.created[c].destroyed == 1 {
      assert Looked(t, c);
    }
  }

  lemma MarkedLooksAfter(s: State, i: nat, f: Finding)
    requires LookedAfter(s) && i < |s.apps|
    ensures LookedAfter(MarkedAt(s, i, f))
  {
    var t := MarkedAt(s, i, f);
    forall c: nat | c < |t.created| ensures Looked(t, c) {
      assert Looked(s, c);
      HeldByOne(s.apps, c);
      HeldByOne(t.apps, c);
      assert forall k | 0 <= k < |s.apps| :: t.apps[k].compositor == s.apps[k].compositor;
    }
  }

  lemma {:induction false} CheckLooksAfter(s: State, n: nat, findings: seq<Finding>)
    requires LookedAfter(s) && n <= |s.apps|
    ensures LookedAfter(CheckDown(s, n, findings))
    decreases n
  {
    if n > 0 {
      var f := FindingAt(findings, n - 1);
      var marked := MarkedAt(s, n - 1, f);
      MarkedLooksAfter(s, n - 1, f);
      RemovedLooksAfter(marked, n - 1);
      CheckLooksAfter(if Over(s.apps[n - 1], f) then Removed(marked, n - 1) else marked, n - 1, findings);
    }
  }

  lemma StepLooksAfter(s: State, e: Event)
    requires LookedAfter(s)
    ensures LookedAfter(Step(s, e))
  {
    match e
    case Launch(available, creates, pid, name, command) =>
      if available && creates { LaunchedLooksAfter(s, pid, name, command); }
      else { assert forall c: nat | c < |s.created| :: Looked(s, c) ==> Looked(Step(s, e), c); }
    case StopApp(pid) =>
      if IndexOfPid(s.apps, pid) >= 0 { RemovedLooksAfter(s, IndexOfPid(s.apps, pid)); }
    case StopAll => StopAllDestroysTheRest(s);
    case UpdatePolicy(policy) => AppliedLooksAfter(s, ThePolicy(policy));
    case SetIdentity(identity) => AppliedLooksAfter(s, TheIdentity(identity));
    case Check(findings) => CheckLooksAfter(s, |s.apps|, findings);
  }

  /** The policy of the last update in the run, and the identity of the last setting of one. */
  function LastPolicy(run: seq<Event>): Policy {
    if run == [] then Policy(false, false, false, false, false, false)
    else
      match run[|run| - 1]
      case UpdatePolicy(policy) => policy
      case _ => LastPolicy(run[..|run| - 1])
  }

  function LastIdentity(run: seq<Event>): string {
    if run == [] then ""
    else
      match run[|run| - 1]
      case SetIdentity(identity) => identity
      case _ => LastIdentity(run[..|run| - 1])
  }

  lemma {:induction false} CheckKeepsSettings(s: State, n: nat, findings: seq<Finding>)
    requires n <= |s.apps|
    ensures CheckDown(s, n, findings).policy == s.policy && CheckDown(s, n, findings).identity == s.identity
    decreases n
  {
    if n > 0 {
      CheckKeepsSettings(Swept(s, n - 1, findings), n - 1, findings);
    }
  }

  /** Over every run the manager remembers what was set last. */
  lemma {:induction false} LastSettingsAreKept(run: seq<Event>)
    ensures After(run).policy == LastPolicy(run) && After(run).identity == LastIdentity(run)
  {
    if run != [] {
      var front := run[..|run| - 1];
      LastSettingsAreKept(front);
      match run[|run| - 1]
      case Check(findings) => CheckKeepsSettings(After(front), |After(front).apps|, findings);
      case _ =>
    }
  }

  lemma {:induction false} EveryRunLooksAfter(run: seq<Event>)
    ensures LookedAfter(After(run))
  {
    if run != [] {
      EveryRunLooksAfter(run[..|run| - 1]);
      StepLooksAfter(After(run[..|run| - 1]), run[|run| - 1]);
    }
  }

  /** Over every run: a compositor held by an app was never destroyed and carries the policy updated last and the
      identity set last, and every other compositor ever created was destroyed exactly once. */
  lemma CompositorsAreLookedAfter(run: seq<Event>, c: nat)
    requires c < |After(run).created|
    ensures var compositor := After(run).created[c];
      if exists i :: 0 <= i < |After(run).apps| && After(run).apps[i].compositor == c
      then compositor.destroyed == 0 && Carries(compositor, LastPolicy(run), LastIdentity(run))
      else compositor.destroyed == 1
  {
    LastSettingsAreKept(run);
    EveryRunLooksAfter(run);
    assert Looked(After(run), c);
    HeldByOne(After(run).apps, c);
  }

  // ---- the mirror agrees ----

  function Pids(apps: seq<App>): multiset<int> {
    if apps == [] then multiset{} else Pids(apps[..|apps| - 1]) + multiset{apps[|apps| - 1].pid}
  }

  function EntryPids(entries: seq<Entry>): multiset<int> {
    if entries == [] then multiset{} else multiset{entries[0].pid} + EntryPids(entries[1..])
  }

  lemma WithoutFront(apps: seq<App>, i: nat)
    requires i < |apps|
    ensures var last := |apps| - 1;
      Without(apps, i) == if i == last then apps[..last] else Without(apps[..last], i) + [apps[last]]
  {
  }

  lemma PidsAppended(apps: seq<App>, app: App)
    ensures Pids(apps + [app]) == Pids(apps) + multiset{app.pid}
  {
    assert (apps + [app])[..|apps|] == apps;
  }

  lemma {:induction false} PidListed(apps: seq<App>, i: nat)
    requires i < |apps|
    ensures apps[i].pid in Pids(apps)
  {
    var last := |apps| - 1;
    if i < last { PidListed(apps[..last], i); }
  }

  lemma {:induction false} PidsWithout(apps: seq<App>, i: nat)
    requires i < |apps|
    ensures Pids(Without(apps, i)) == Pids(apps) - multiset{apps[i].pid}
  {
    hide Without;
    var last := |apps| - 1;
    WithoutFront(apps, i);
    if i < last {
      PidListed(apps[..last], i);
      PidsWithout(apps[..last], i);
      PidsAppended(Without(apps[..last], i), apps[last]);
      TakeThenAdd(Pids(apps[..last]), apps[i].pid, apps[last].pid);
    }
  }

  lemma TakeThenAdd(m: multiset<int>, x: int, y: int)
    requires x in m
    ensures (m - multiset{x}) + multiset{y} == (m + multiset{y}) - multiset{x}
  {
  }

  lemma {:induction false} EntryPidsWithout(entries: seq<Entry>, pid: int)
    ensures EntryPids(WithoutPid(entries, pid)) == EntryPids(entries) - multiset{pid}
  {
    if entries != [] && entries[0].pid != pid {
      EntryPidsWithout(entries[1..], pid);
      assert WithoutPid(entries, pid)[1..] == WithoutPid(entries[1..], pid);
    }
  }

  lemma {:induction false} EntryPidsAppended(entries: seq<Entry>, entry: Entry)
    ensures EntryPids(entries + [entry]) == EntryPids(entries) + multiset{entry.pid}
  {
    if entries == [] {
      assert [entry][1..] == [];
      assert entries + [entry] == [entry];
    } else {
      assert (entries + [entry])[1..] == entries[1..] + [entry];
      EntryPidsAppended(entries[1..], entry);
    }
  }

  lemma {:induction false} PidsMarked(apps: seq<App>, i: nat, f: Finding)
    requires i < |apps|
    ensures Pids(apps[i := Marked(apps[i], f)]) == Pids(apps)
  {
    var last := |apps| - 1;
    if i < last {
      PidsMarked(apps[..last], i, f);
      assert apps[i := Marked(apps[i], f)][..last] == apps[..last][i := Marked(apps[i], f)];
    } else {
      assert apps[i := Marked(apps[i], f)][..last] == apps[..last];
    }
  }

  function RunningChanges(log: seq<Signal>): nat {
    if log == [] then 0
    else RunningChanges(log[..|log| - 1]) + if log[|log| - 1] == RunningChanged then 1 else 0
  }

  lemma {:induction false} RunningChangesJoin(a: seq<Signal>, b: seq<Signal>)
    ensures RunningChanges(a + b) == RunningChanges(a) + RunningChanges(b)
  {
    if b == [] {
      assert a + b == a;
    } else {
      assert (a + b)[..|a + b| - 1] == a + b[..|b| - 1];
      RunningChangesJoin(a, b[..|b| - 1]);
    }
  }

  /** What a listener who only counts runningChanged believes is so. */
  ghost predicate Announced(s: State) {
    s.apps != [] <==> RunningChanges(s.log) % 2 == 1
  }

  ghost predicate Mirrored(s: State) {
    Pids(s.apps) == EntryPids(s.entries) && Announced(s)
  }

  /** The two signals a change from or to no apps sends, and the one any other change sends. */
  lemma BothOrOne(log: seq<Signal>)
    ensures RunningChanges(log + [AppCountChanged, RunningChanged]) == RunningChanges(log) + 1
    ensures RunningChanges(log + [AppCountChanged]) == RunningChanges(log)
    ensures RunningChanges(log + [ErrorOccurred]) == RunningChanges(log)
  {
    var two := [AppCountChanged, RunningChanged];
    assert two[..1] == [AppCountChanged] && [AppCountChanged][..0] == [] && [ErrorOccurred][..0] == [];
    RunningChangesJoin(log, two);
    RunningChangesJoin(log, [AppCountChanged]);
    RunningChangesJoin(log, [ErrorOccurred]);
  }

  lemma RemovedMirrors(s: State, i: nat)
    requires Mirrored(s) && i < |s.apps|
    ensures Mirrored(Removed(s, i))
  {
    PidListed(s.apps, i);
    PidsWithout(s.apps, i);
    EntryPidsWithout(s.entries, s.apps[i].pid);
    BothOrOne(s.log);
  }

  lemma LaunchedAnnounces(s: State, pid: int, name: string, command: string)
    requires Announced(s)
    ensures Announced(Launched(s, pid, name, command))
  {
    BothOrOne(s.log);
  }

  lemma LaunchedMirrors(s: State, pid: int, name: string, command: string)
    requires Mirrored(s)
    ensures Mirrored(Launched(s, pid, name, command))
  {
    LaunchedAnnounces(s, pid, name, command);
    if pid >= 0 {
      var t := Launched(s, pid, name, command);
      PidsAppended(s.apps, t.apps[|s.apps|]);
      EntryPidsAppended(s.entries, t.entries[|s.entries|]);
    }
  }

  lemma {:induction false} CheckMirrors(s: State, n: nat, findings: seq<Finding>)
    requires Mirrored(s) && n <= |s.apps|
    ensures Mirrored(CheckDown(s, n, findings))
    decreases n
  {
    hide Pids, EntryPids, RunningChanges;
    if n > 0 {
      var f := FindingAt(findings, n - 1);
      var marked := MarkedAt(s, n - 1, f);
      PidsMarked(s.apps, n - 1, f);
      assert Mirrored(marked);
      RemovedMirrors(marked, n - 1);
      CheckMirrors(if Over(s.apps[n - 1], f) then Removed(marked, n - 1) else marked, n - 1, findings);
    }
  }

  lemma StopAllMirrors(s: State)
    requires Mirrored(s)
    ensures Mirrored(Step(s, StopAll))
  {
    hide RunningChanges, AllDestroyed;
    BothOrOne(s.log);
    assert s.log + [] == s.log;
  }

  lemma StepMirrors(s: State, e: Event)
    requires Mirrored(s)
    ensures Mirrored(Step(s, e))
  {
    hide Launched, Removed;
    BothOrOne(s.log);
    match e
    case Launch(_, _, pid, name, command) => LaunchedMirrors(s, pid, name, command);
    case StopApp(pid) =>
      if IndexOfPid(s.apps, pid) >= 0 { RemovedMirrors(s, IndexOfPid(s.apps, pid)); }
    case Check(findings) => CheckMirrors(s, |s.apps|, findings);
    case StopAll => StopAllMirrors(s);
    case _ =>
  }

  /** Over every run, pids reused or not: the list model shows the same pids, as often, as the manager
      runs, and apps are running iff runningChanged was sent an odd number of times. */
  lemma {:induction false} MirrorAgrees(run: seq<Event>)
    ensures Mirrored(After(run))
  {
    if run != [] {
      MirrorAgrees(run[..|run| - 1]);
      StepMirrors(After(run[..|run| - 1]), run[|run| - 1]);
    }
  }

  // ---- the mirror agrees in order, when no pid is reused too early ----

  function EntryOf(app: App): Entry {
    Entry(app.pid, app.name, app.command)
  }

  function Shown(apps: seq<App>): seq<Entry> {
    seq(|apps|, i requires 0 <= i < |apps| => EntryOf(apps[i]))
  }

  ghost predicate DistinctPids(apps: seq<App>) {
    forall i, j | 0 <= i < j < |apps| :: apps[i].pid != apps[j].pid
  }

  ghost predicate InOrder(s: State) {
    DistinctPids(s.apps) && s.entries == Shown(s.apps)
  }

  lemma {:induction false} FirstWithPid(entries: seq<Entry>, i: nat)
    requires i < |entries| && forall j | 0 <= j < i :: entries[j].pid != entries[i].pid
    ensures WithoutPid(entries, entries[i].pid) == entries[..i] + entries[i + 1..]
  {
    if i > 0 {
      var rest := entries[1..];
      assert forall j | 0 <= j < i - 1 :: rest[j] == entries[j + 1];
      FirstWithPid(rest, i - 1);
      PutFirst(entries, i);
    }
  }

  lemma PutFirst<T>(s: seq<T>, i: nat)
    requires 0 < i < |s|
    ensures [s[0]] + (s[1..][..i - 1] + s[1..][i..]) == s[..i] + s[i + 1..]
  {
  }

  lemma ShownWithout(apps: seq<App>, i: nat)
    requires i < |apps|
    ensures Shown(Without(apps, i)) == Shown(apps)[..i] + Shown(apps)[i + 1..]
  {
  }

  lemma DistinctWithout(apps: seq<App>, i: nat)
    requires DistinctPids(apps) && i < |apps|
    ensures DistinctPids(Without(apps, i))
  {
  }

  lemma RemovedInOrder(s: State, i: nat)
    requires InOrder(s) && i < |s.apps|
    ensures InOrder(Removed(s, i))
  {
    FirstWithPid(s.entries, i);
    ShownWithout(s.apps, i);
    DistinctWithout(s.apps, i);
  }

  lemma {:induction false} CheckInOrder(s: State, n: nat, findings: seq<Finding>)
    requires InOrder(s) && n <= |s.apps|
    ensures InOrder(CheckDown(s, n, findings))
    decreases n
  {
    if n > 0 {
      var f := FindingAt(findings, n - 1);
      var marked := MarkedAt(s, n - 1, f);
      assert Shown(marked.apps) == Shown(s.apps);
      assert InOrder(marked);
      RemovedInOrder(marked, n - 1);
      CheckInOrder(if Over(s.apps[n - 1], f) then Removed(marked, n - 1) else marked, n - 1, findings);
    }
  }

  lemma LaunchedInOrder(s: State, pid: int, name: string, command: string)
    requires InOrder(s) && forall i | 0 <= i < |s.apps| :: s.apps[i].pid != pid
    ensures InOrder(Launched(s, pid, name, command))
  {
    if pid >= 0 {
      var t := Launched(s, pid, name, command);
      assert Shown(t.apps) == Shown(s.apps) + [Entry(pid, t.apps[|s.apps|].name, command)];
    }
  }

  /** No launch returns the pid of an app that is still listed. */
  ghost predicate FreshPids(run: seq<Event>) {
    run != [] ==>
      var front, e := run[..|run| - 1], run[|run| - 1];
      && FreshPids(front)
      && (e.Launch? ==> forall i | 0 <= i < |After(front).apps| :: After(front).apps[i].pid != e.pid)
  }

  /** Without early reuse the list model shows exactly the manager's apps, in the same order. */
  lemma {:induction false} MirrorAgreesInOrder(run: seq<Event>)
    requires FreshPids(run)
    ensures InOrder(After(run))
  {
    if run != [] {
      var s, e := After(run[..|run| - 1]), run[|run| - 1];
      MirrorAgreesInOrder(run[..|run| - 1]);
      match e
      case Launch(_, _, pid, name, command) => LaunchedInOrder(s, pid, name, command);
      case StopApp(pid) =>
        if IndexOfPid(s.apps, pid) >= 0 { RemovedInOrder(s, IndexOfPid(s.apps, pid)); }
      case Check(findings) => CheckInOrder(s, |s.apps|, findings);
      case _ =>
    }
  }

  lemma CutsAgree<T>(s: seq<T>, j: nat, i: nat)
    requires j <= i < |s|
    ensures s[..j] + s[j + 1..] == s[..i] + s[i + 1..] <==> forall k | j <= k < i :: s[k] == s[k + 1]
  {
    var a, b := s[..j] + s[j + 1..], s[..i] + s[i + 1..];
    assert forall k | j <= k < i :: a[k] == s[k + 1] && b[k] == s[k];
    assert forall k | 0 <= k < |a| && !(j <= k < i) :: a[k] == b[k];
  }

  /** When one removal keeps a mirror in order, whatever the pids: exactly when all the entries from the
      first one with the app's pid up to the app's own are the same. */
  lemma OrderKeptIff(s: State, j: nat, i: nat)
    requires s.entries == Shown(s.apps) && j <= i < |s.apps|
    requires s.apps[j].pid == s.apps[i].pid && forall k | 0 <= k < j :: s.apps[k].pid != s.apps[i].pid
    ensures Removed(s, i).entries == Shown(Removed(s, i).apps)
       <==> forall k | j <= k < i :: s.entries[k] == s.entries[k + 1]
  {
    FirstWithPid(s.entries, j);
    ShownWithout(s.apps, i);
    CutsAgree(s.entries, j, i);
  }

  lemma {:induction false} IndexIsFirst(apps: seq<App>, pid: int)
    ensures IndexOfPid(apps, pid) < 0 ==> forall k | 0 <= k < |apps| :: apps[k].pid != pid
    ensures forall k | 0 <= k < IndexOfPid(apps, pid) :: apps[k].pid != pid
  {
    if apps != [] {
      IndexIsFirst(apps[..|apps| - 1], pid);
      assert forall k | 0 <= k < |apps| - 1 :: apps[k] == apps[..|apps| - 1][k];
    }
  }

  /** The list model shows the manager's apps, in their order. */
  ghost predicate SameOrder(s: State) {
    s.entries == Shown(s.apps)
  }

  /** All apps from the first one with the pid of app `i` up to app `i` itself show the same entry; without
      early reuse of a pid that is app `i` alone. */
  predicate SameStretch(s: State, i: nat)
    requires i < |s.apps|
  {
    var j := IndexOfPid(s.apps, s.apps[i].pid);
    forall k | 0 <= k && j <= k < i :: EntryOf(s.apps[k]) == EntryOf(s.apps[k + 1])
  }

  lemma RemovalKeepsOrderIff(s: State, i: nat)
    requires SameOrder(s) && i < |s.apps|
    ensures SameOrder(Removed(s, i)) <==> SameStretch(s, i)
  {
    var j := IndexOfPid(s.apps, s.apps[i].pid);
    IndexIsFirst(s.apps, s.apps[i].pid);
    assert 0 <= j <= i;
    OrderKeptIff(s, j, i);
    assert forall k | 0 <= k < |s.apps| :: s.entries[k] == EntryOf(s.apps[k]);
  }

  /** The order is right before the sweep and after each of its removals, from index n - 1 down. */
  ghost predicate SweepInOrder(s: State, n: nat, findings: seq<Finding>)
    requires n <= |s.apps|
    decreases n
  {
    SameOrder(s) && (n > 0 ==> SweepInOrder(Swept(s, n - 1, findings), n - 1, findings))
  }

  /** Each removal of the sweep is of an app whose stretch shows one entry. */
  predicate SweepOfStretches(s: State, n: nat, findings: seq<Finding>)
    requires n <= |s.apps|
    decreases n
  {
    n > 0 ==>
      && (Over(s.apps[n - 1], FindingAt(findings, n - 1)) ==> SameStretch(s, n - 1))
      && SweepOfStretches(Swept(s, n - 1, findings), n - 1, findings)
  }

  lemma SweptKeepsOrderIff(s: State, i: nat, findings: seq<Finding>)
    requires SameOrder(s) && i < |s.apps|
    ensures SameOrder(Swept(s, i, findings))
       <==> (Over(s.apps[i], FindingAt(findings, i)) ==> SameStretch(s, i))
  {
    var f := FindingAt(findings, i);
    var marked := MarkedAt(s, i, f);
    assert Shown(marked.apps) == Shown(s.apps);
    MarkedStretch(s, i, f);
    if Over(s.apps[i], f) { RemovalKeepsOrderIff(marked, i); }
  }

  lemma MarkedStretch(s: State, i: nat, f: Finding)
    requires i < |s.apps|
    ensures SameStretch(MarkedAt(s, i, f), i) <==> SameStretch(s, i)
  {
    IndexMarked(s.apps, i, f, s.apps[i].pid);
    assert forall k | 0 <= k < |s.apps| :: EntryOf(MarkedAt(s, i, f).apps[k]) == EntryOf(s.apps[k]);
  }

  lemma {:induction false} IndexMarked(apps: seq<App>, i: nat, f: Finding, pid: int)
    requires i < |apps|
    ensures IndexOfPid(apps[i := Marked(apps[i], f)], pid) == IndexOfPid(apps, pid)
  {
    var last := |apps| - 1;
    if i < last {
      IndexMarked(apps[..last], i, f, pid);
      assert apps[i := Marked(apps[i], f)][..last] == apps[..last][i := Marked(apps[i], f)];
    } else {
      assert apps[i := Marked(apps[i], f)][..last] == apps[..last];
    }
  }

  lemma {:induction false} SweepInOrderIff(s: State, n: nat, findings: seq<Finding>)
    requires SameOrder(s) && n <= |s.apps|
    ensures SweepInOrder(s, n, findings) <==> SweepOfStretches(s, n, findings)
    ensures SweepInOrder(s, n, findings) ==> SameOrder(CheckDown(s, n, findings))
    decreases n
  {
    if n > 0 {
      SweptKeepsOrderIff(s, n - 1, findings);
      if SameOrder(Swept(s, n - 1, findings)) { SweepInOrderIff(Swept(s, n - 1, findings), n - 1, findings); }
    }
  }

  /** Throughout the run, also between the removals of one sweep, the list model is in order. */
  ghost predicate AlwaysInOrder(run: seq<Event>) {
    run != [] ==>
      var s, e := After(run[..|run| - 1]), run[|run| - 1];
      && AlwaysInOrder(run[..|run| - 1])
      && SameOrder(Step(s, e))
      && (e.Check? ==> SweepInOrder(s, |s.apps|, e.findings))
  }

  /** Every app that a sweep of the run removes has a stretch that shows one entry. */
  predicate RemovesStretches(run: seq<Event>) {
    run != [] ==>
      var s, e := After(run[..|run| - 1]), run[|run| - 1];
      && RemovesStretches(run[..|run| - 1])
      && (e.Check? ==> SweepOfStretches(s, |s.apps|, e.findings))
  }

  lemma StepKeepsOrder(s: State, e: Event)
    requires SameOrder(s)
    ensures !e.Check? ==> SameOrder(Step(s, e))
  {
    match e
    case Launch(_, _, pid, name, command) =>
      if pid >= 0 {
        var t := Launched(s, pid, name, command);
        assert Shown(t.apps) == Shown(s.apps) + [Entry(pid, t.apps[|s.apps|].name, command)];
      }
    case StopApp(pid) =>
      var i := IndexOfPid(s.apps, pid);
      if i >= 0 { RemovalKeepsOrderIff(s, i); }
    case _ =>
  }

  /** Over every run, pids reused or not: the list model is always in order iff no sweep removes an app
      that comes after another, different entry for the same pid.  A stopped app is never the trouble. */
  lemma {:induction false} AlwaysInOrderIff(run: seq<Event>)
    ensures AlwaysInOrder(run) <==> RemovesStretches(run)
    ensures AlwaysInOrder(run) ==> SameOrder(After(run))
  {
    if run != [] {
      var front, e := run[..|run| - 1], run[|run| - 1];
      AlwaysInOrderIff(front);
      if AlwaysInOrder(front) {
        StepKeepsOrder(After(front), e);
        if e.Check? { SweepInOrderIff(After(front), |After(front).apps|, e.findings); }
      }
    }
  }

  /** A run that fails: the first app is reaped but keeps a client, its pid comes back for a third app, and
      that one ends first; the list model then shows the other two the wrong way round. */
  function ReuseRun(p: int, q: int): seq<Event> {
    [Launch(true, true, p, "", "a"), Launch(true, true, q, "", "b"),
     Check([Finding(true, 1), Finding(false, 1)]),
     Launch(true, true, p, "", "c"),
     Check([Finding(false, 1), Finding(false, 1), Finding(true, 0)])]
  }

  lemma ReusedPidReorders(p: int, q: int)
    requires 0 <= p && 0 <= q && p != q
    ensures var s := After(ReuseRun(p, q));
      && |s.apps| == 2 && s.apps[0].pid == p && s.apps[1].pid == q
      && |s.entries| == 2 && s.entries[0].pid == q && s.entries[1].pid == p
  {
    var e := ReuseRun(p, q);
    assert e[..5] == e && e[..5][..4] == e[..4] && e[..4][..3] == e[..3] && e[..3][..2] == e[..2];
    assert e[..2][..1] == [e[0]] && [e[0]][..0] == [];
    var s0 := After([]);
    var s1 := Step(s0, e[0]);
    var s2 := Step(s1, e[1]);
    assert After([e[0]]) == s1;
    assert After(e[..2]) == s2;
    assert s2.apps == [App(p, "a", "a", 0, false), App(q, "b", "b", 1, false)];
    var s3 := Step(s2, e[2]);
    assert After(e[..3]) == s3;
    SweepTwo(s2, e[2].findings);
    var s4 := Step(s3, e[3]);
    assert After(e[..4]) == s4;
    assert s4.apps == [App(p, "a", "a", 0, true), App(q, "b", "b", 1, false), App(p, "c", "c", 2, false)];
    assert s4.entries == [Entry(p, "a", "a"), Entry(q, "b", "b"), Entry(p, "c", "c")];
    SweepLastOfThree(s4, e[4].findings);
    assert s4.entries[1..] == [Entry(q, "b", "b"), Entry(p, "c", "c")];
  }

  /** A sweep that finds the first of two apps exited with clients, and nothing of the other. */
  lemma SweepTwo(s: State, findings: seq<Finding>)
    requires |s.apps| == 2 && !s.apps[1].exited
    requires findings == [Finding(true, 1), Finding(false, 1)]
    ensures Step(s, Check(findings)) == s.(apps := [s.apps[0].(exited := true), s.apps[1]])
  {
    var t := Swept(s, 1, findings);
    assert t.apps == s.apps;
    assert CheckDown(s, 2, findings) == CheckDown(t, 1, findings);
    assert CheckDown(t, 1, findings) == Swept(t, 0, findings);
  }

  /** A sweep that finds nothing of the first two apps and the last one exited without clients. */
  lemma SweepLastOfThree(s: State, findings: seq<Finding>)
    requires |s.apps| == 3
    requires findings == [Finding(false, 1), Finding(false, 1), Finding(true, 0)]
    ensures var t := Step(s, Check(findings));
      t.apps == s.apps[..2] && t.entries == WithoutPid(s.entries, s.apps[2].pid)
  {
    var t2 := Swept(s, 2, findings);
    assert t2.apps == s.apps[..2];
    var t1 := Swept(t2, 1, findings);
    var t0 := Swept(t1, 0, findings);
    assert t1.apps == s.apps[..2] && t0.apps == s.apps[..2];
    assert CheckDown(s, 3, findings) == CheckDown(t2, 2, findings);
    assert CheckDown(t2, 2, findings) == CheckDown(t1, 1, findings);
    assert CheckDown(t1, 1, findings) == t0;
  }

  // ---- the reverse loop ----

  /** The apps that stay, marked, in order: all but those that have exited and have no clients. */
  function Survivors(apps: seq<App>, findings: seq<Finding>): seq<App> {
    if apps == [] then []
    else
      var last := |apps| - 1;
      var before, f := Survivors(apps[..last], findings), FindingAt(findings, last);
      if Over(apps[last], f) then before else before + [Marked(apps[last], f)]
  }

  /** Removing backwards while walking the list leaves exactly the survivors. */
  lemma {:induction false} CheckLeavesSurvivors(s: State, n: nat, findings: seq<Finding>)
    requires n <= |s.apps|
    ensures CheckDown(s, n, findings).apps == Survivors(s.apps[..n], findings) + s.apps[n..]
    decreases n
  {
    if n > 0 {
      var f := FindingAt(findings, n - 1);
      var marked := MarkedAt(s, n - 1, f);
      assert s.apps[..n][..n - 1] == s.apps[..n - 1];
      if Over(s.apps[n - 1], f) {
        CheckLeavesSurvivors(Removed(marked, n - 1), n - 1, findings);
        assert Without(marked.apps, n - 1)[..n - 1] == s.apps[..n - 1];
        assert Without(marked.apps, n - 1)[n - 1..] == s.apps[n..];
      } else {
        CheckLeavesSurvivors(marked, n - 1, findings);
        assert marked.apps[..n - 1] == s.apps[..n - 1];
        assert marked.apps[n - 1..] == [Marked(s.apps[n - 1], f)] + s.apps[n..];
        Regroup(Survivors(s.apps[..n - 1], findings), [Marked(s.apps[n - 1], f)], s.apps[n..]);
      }
    } else {
      assert s.apps[..0] == [];
    }
  }

  lemma CheckRemovesTheExited(s: State, findings: seq<Finding>)
    ensures Step(s, Check(findings)).apps == Survivors(s.apps, findings)
  {
    CheckLeavesSurvivors(s, |s.apps|, findings);
    assert s.apps[..|s.apps|] == s.apps;
  }

  // ---- where the findings come from ----

  /** What happens around the visit of one app: the children that exit just before it, and the clients
      connected then. */
  datatype Visit = Visit(exits: set<int>, clients: nat)

  /** The exited children that can be waited for when the sweep, from the last app down, visits app `i`. */
  function Waitable(apps: seq<App>, i: nat, exited: set<int>, visits: seq<Visit>): set<int>
    requires i < |apps| == |visits|
    decreases |apps| - i
  {
    visits[i].exits +
    if i + 1 == |apps| then exited else Waitable(apps, i + 1, exited, visits) - {apps[i + 1].pid}
  }

  /** What waitpid and the client count answer at each app. */
  function FindingsOf(apps: seq<App>, exited: set<int>, visits: seq<Visit>): seq<Finding>
    requires |apps| == |visits|
  {
    seq(|apps|, i requires 0 <= i < |apps| =>
      Finding(apps[i].pid in Waitable(apps, i, exited, visits), visits[i].clients))
  }

  /** The child with this pid exits at visit `k`, or before the sweep if `k` is the number of apps. */
  predicate ExitsAt(pid: int, k: nat, exited: set<int>, visits: seq<Visit>)
    requires k <= |visits|
  {
    if k == |visits| then pid in exited else pid in visits[k].exits
  }

  /** No app visited after the exit at `k` and before app `i` waits on the pid of app `i`. */
  predicate NotTaken(apps: seq<App>, i: nat, k: nat)
    requires i < |apps|
  {
    forall j | i < j <= k && j < |apps| :: apps[j].pid != apps[i].pid
  }

  lemma {:induction false} WaitableIff(apps: seq<App>, i: nat, exited: set<int>, visits: seq<Visit>, pid: int)
    requires i < |apps| == |visits|
    ensures pid in Waitable(apps, i, exited, visits)
       <==> exists k :: i <= k <= |apps| && ExitsAt(pid, k, exited, visits)
                     && forall j | i < j <= k && j < |apps| :: apps[j].pid != pid
    decreases |apps| - i
  {
    if i + 1 == |apps| {
      assert pid in visits[i].exits ==> ExitsAt(pid, i, exited, visits);
      assert pid in exited ==> ExitsAt(pid, i + 1, exited, visits);
    } else {
      WaitableIff(apps, i + 1, exited, visits, pid);
      assert pid in visits[i].exits ==> ExitsAt(pid, i, exited, visits);
    }
  }

  /** A sweep removes an app iff no client is left and its exit was seen before, or its child has exited by
      now and no app listed later has waited for that child in its place. */
  lemma SweepRemovesIff(apps: seq<App>, i: nat, exited: set<int>, visits: seq<Visit>)
    requires i < |apps| == |visits|
    ensures Over(apps[i], FindingAt(FindingsOf(apps, exited, visits), i))
       <==> && visits[i].clients == 0
            && (apps[i].exited || exists k :: i <= k <= |apps| && ExitsAt(apps[i].pid, k, exited, visits)
                                           && NotTaken(apps, i, k))
  {
    var pid := apps[i].pid;
    WaitableIff(apps, i, exited, visits, pid);
    if k :| i <= k <= |apps| && ExitsAt(pid, k, exited, visits)
            && forall j | i < j <= k && j < |apps| :: apps[j].pid != pid
    {
      assert NotTaken(apps, i, k);
    }
    if k :| i <= k <= |apps| && ExitsAt(pid, k, exited, visits) && NotTaken(apps, i, k) {
      assert forall j | i < j <= k && j < |apps| :: apps[j].pid != pid;
    }
  }

  /** With distinct pids every app whose child has exited by its visit, and that has no client, is removed. */
  lemma DistinctAppsAreRemovedIff(apps: seq<App>, i: nat, exited: set<int>, visits: seq<Visit>)
    requires i < |apps| == |visits| && DistinctPids(apps)
    ensures Over(apps[i], FindingAt(FindingsOf(apps, exited, visits), i))
       <==> && visits[i].clients == 0
            && (apps[i].exited || exists k :: i <= k <= |apps| && ExitsAt(apps[i].pid, k, exited, visits))
  {
    SweepRemovesIff(apps, i, exited, visits);
    assert forall k: nat | i <= k <= |apps| :: NotTaken(apps, i, k);
  }

  /** The children left to be waited for after the sweep. */
  function StillWaitable(apps: seq<App>, exited: set<int>, visits: seq<Visit>): set<int>
    requires |apps| == |visits|
  {
    if apps == [] then exited else Waitable(apps, 0, exited, visits) - {apps[0].pid}
  }

  /** An app in the list already reaped, a newer one that was given the same pid, and an exit of the newer
      one's child between the two visits: the older app waits for it, the newer one is not marked, and
      nothing is left by which a later sweep could tell. */
  lemma ExitIsMistaken(older: App, newer: App, first: Visit, second: Visit)
    requires older.pid == newer.pid && !newer.exited && newer.pid !in first.exits && newer.pid in second.exits
    ensures
      var apps, visits := [older, newer], [second, first];
      var findings := FindingsOf(apps, {}, visits);
      && findings[0].reaped && !findings[1].reaped
      && newer.pid !in StillWaitable(apps, {}, visits)
      && !Over(newer, findings[1]) && !Marked(newer, findings[1]).exited
  {
  }

  /** An app not marked as exited stays, unmarked, through any sweep in which its pid does not exit. */
  lemma UnmarkedAppsStay(apps: seq<App>, i: nat, exited: set<int>, visits: seq<Visit>)
    requires i < |apps| == |visits| && !apps[i].exited && apps[i].pid !in exited
    requires forall k | 0 <= k < |visits| :: apps[i].pid !in visits[k].exits
    ensures !Marked(apps[i], FindingAt(FindingsOf(apps, exited, visits), i)).exited
    ensures apps[i].pid !in StillWaitable(apps, exited, visits)
  {
    WaitableIff(apps, i, exited, visits, apps[i].pid);
    WaitableIff(apps, 0, exited, visits, apps[i].pid);
  }

  // ---- the object ----

  class DlpCompositorManager {
    var apps: seq<App>
    var created: seq<Compositor>
    var policy: Policy
    var identity: string
    var log: seq<Signal>
    const runningApps: RunningAppModel

    ghost function Contents(): State
      reads this, runningApps
    {
      State(apps, runningApps.entries, created, policy, identity, log)
    }

    constructor ()
      ensures fresh(runningApps) && Contents() == After([])
    {
      apps, created, policy, identity, log := [], [], NO_POLICY, "", [];
      runningApps := new RunningAppModel();
    }

    method Destroy(c: nat)
      modifies this`created
      ensures created == Destroyed(old(created), c)
    {
      if c < |created| {
        created := created[c := created[c].(destroyed := created[c].destroyed + 1)];
      }
    }

    method LaunchApp(available: bool, creates: bool, pid: int, name: string, command: string)
      returns (result: int)
      modifies this, runningApps
      ensures Contents() == Step(old(Contents()), Launch(available, creates, pid, name, command))
      ensures result == if available && creates && pid >= 0 then pid else -1
    {
      if !available || !creates {
        log := log + [ErrorOccurred];
        return -1;
      }
      var c := |created|;
      created := created + [Compositor(NO_POLICY, None, 0)];
      created := created[c := created[c].(policy := policy)];
      if identity != "" {
        created := created[c := created[c].(identity := Some(identity))];
      }
      if pid < 0 {
        log := log + [ErrorOccurred];
        Destroy(c);
        return -1;
      }
      var wasEmpty := apps == [];
      var shown := if name == "" then command else name;
      apps := apps + [App(pid, shown, command, c, false)];
      runningApps.AddApp(pid, shown, command);
      log := log + [AppCountChanged];
      if wasEmpty {
        log := log + [RunningChanged];
        SignalsInOrder(old(log));
      }
      return pid;
    }

    method RemoveApp(i: nat)
      requires i < |apps|
      modifies this, runningApps
      ensures Contents() == Removed(old(Contents()), i)
    {
      var pid := apps[i].pid;
      Destroy(apps[i].compositor);
      apps := apps[..i] + apps[i + 1..];
      runningApps.RemoveApp(pid);
      log := log + [AppCountChanged];
      if apps == [] {
        log := log + [RunningChanged];
        SignalsInOrder(old(log));
      }
    }

    method Stop(pid: int)
      modifies this, runningApps
      ensures Contents() == Step(old(Contents()), StopApp(pid))
    {
      for i := 0 to |apps|
        invariant IndexOfPid(apps[..i], pid) < 0 && Contents() == old(Contents())
      {
        assert apps[..i + 1][..i] == apps[..i];
        if apps[i].pid == pid {
          IndexOfPrefix(apps, i + 1, pid);
          RemoveApp(i);
          return;
        }
      }
      assert apps[..|apps|] == apps;
    }

    method StopEverything()
      modifies this, runningApps
      ensures Contents() == Step(old(Contents()), StopAll)
    {
      for i := 0 to |apps|
        invariant Contents() == old(Contents()).(created := created)
        invariant created == AllDestroyed(old(created), apps[..i])
      {
        assert apps[..i + 1][..i] == apps[..i];
        Destroy(apps[i].compositor);
      }
      assert apps[..|apps|] == apps;
      var wasRunning := apps != [];
      apps := [];
      runningApps.Clear();
      if wasRunning {
        log := log + [AppCountChanged];
        log := log + [RunningChanged];
        SignalsInOrder(old(log));
      }
    }

    method Push(setting: Setting)
      modifies this`created
      ensures created == Applied(old(created), apps, setting)
    {
      for i := 0 to |apps|
        invariant created == Applied(old(created), apps[..i], setting)
      {
        assert apps[..i + 1][..i] == apps[..i];
        var c := apps[i].compositor;
        if c < |created| {
          created := created[c := With(created[c], setting)];
        }
      }
      assert apps[..|apps|] == apps;
    }

    method SetPolicy(newPolicy: Policy)
      modifies this
      ensures Contents() == Step(old(Contents()), UpdatePolicy(newPolicy))
    {
      policy := newPolicy;
      Push(ThePolicy(policy));
    }

    method SetWatermarkIdentity(newIdentity: string)
      modifies this
      ensures Contents() == Step(old(Contents()), SetIdentity(newIdentity))
    {
      identity := newIdentity;
      Push(TheIdentity(identity));
    }

    method CheckChildProcesses(findings: seq<Finding>)
      modifies this, runningApps
      ensures Contents() == Step(old(Contents()), Check(findings))
    {
      for i := |apps| downto 0
        invariant i <= |apps|
        invariant CheckDown(Contents(), i, findings) == Step(old(Contents()), Check(findings))
      {
        var f := FindingAt(findings, i);
        if f.reaped {
          apps := apps[i := apps[i].(exited := true)];
        } else {
          assert apps[i := apps[i]] == apps;
        }
        if apps[i].exited && f.clients == 0 {
          RemoveApp(i);
        }
      }
    }
  }

  lemma SignalsInOrder(log: seq<Signal>)
    ensures (log + [AppCountChanged]) + [RunningChanged] == log + [AppCountChanged, RunningChanged]
  {
  }

  lemma {:induction false} IndexOfPrefix(apps: seq<App>, n: nat, pid: int)
    requires n <= |apps| && IndexOfPid(apps[..n], pid) >= 0
    ensures IndexOfPid(apps, pid) == IndexOfPid(apps[..n], pid)
  {
    if n < |apps| {
      assert apps[..|apps| - 1][..n] == apps[..n];
      IndexOfPrefix(apps[..|apps| - 1], n, pid);
    } else {
      assert apps[..n] == apps;
    }
  }
}
