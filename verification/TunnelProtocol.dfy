/** The VPN helper's tunnel lifecycle as a transition system.

    The steps are the critical sections under the service's mutex and, for each startTunnel
    goroutine, its setup calls and its release calls, one at a time.  Any number of goroutines
    run at once and every interleaving is a run. */
module TunnelProtocol {
  import opened Wrappers

  datatype Phase = Disconnected | Connecting | Connected | Error

  /** What a startTunnel goroutine acquires and somebody has to release. */
  datatype Kind = Context | Tun | Dns | Conn
  datatype Event =
    | Acquired(task: nat, kind: Kind)
    | Released(task: nat, kind: Kind)
    | Overwritten(task: nat, kind: Kind) // the last reference to it was replaced

  /** The five resource fields; each holds the number of the goroutine that made its value. */
  datatype Fields = Fields(cancel: Option<nat>, tailnetCon: Option<nat>, tunDev: Option<nat>,
                           controller: Option<nat>, dnsManager: Option<nat>)

  function AllFields(owner: Option<nat>): Fields {
    Fields(owner, owner, owner, owner, owner)
  }

  /** What the mutex protects. */
  datatype Service = Service(phase: Phase, fields: Fields)

  /** The setup steps, in the order in which startTunnel takes them. */
  datatype Setup =
    | ParseUrl | Authenticate | FetchInfo | CreateTun | ConfigureTun | ConfigureDns | NewConn | ParseRpcUrl
    | RunController | SaveState

  datatype Goroutine =
    | SettingUp(next: Setup)
    | CleaningUp(held: seq<Kind>, todo: seq<Kind>) // a step failed; `todo` is still to be released
    | Failed(held: seq<Kind>)                      // setError has been called
    | Watching                                     // saved; the monitor waits for the controller
    | Stopped                                      // the monitor has returned

  datatype System = System(service: Service, tasks: seq<Goroutine>, log: seq<Event>, saved: seq<nat>)

  const INIT := System(Service(Disconnected, AllFields(None)), [], [], [])

  // ---- the setup steps ----

  const ALL: seq<Kind> := [Context, Tun, Dns, Conn]

  /** What a goroutine holds when it is about to take a step. */
  function Held(at: Setup): seq<Kind> {
    match at
    case ParseUrl => []
    case Authenticate => [Context]
    case FetchInfo => [Context]
    case CreateTun => [Context]
    case ConfigureTun => [Context, Tun]
    case ConfigureDns => [Context, Tun]
    case NewConn => [Context, Tun, Dns]
    case ParseRpcUrl => ALL
    case RunController => ALL
    case SaveState => ALL
  }

  predicate CanFail(at: Setup) {
    at != RunController && at != SaveState
  }

  /** The release calls written on the failing branch of a step. */
  function ReleaseCalls(at: Setup): seq<Kind>
    requires CanFail(at)
  {
    match at
    case ParseUrl => []
    case Authenticate => [Context]
    case FetchInfo => [Context]
    case CreateTun => [Context]
    case ConfigureTun => [Tun, Context]
    case ConfigureDns => [Tun, Context]
    case NewConn => [Dns, Tun, Context]
    case ParseRpcUrl => [Conn, Dns, Tun, Context]
  }

  /** What a step that succeeds acquires. */
  function Gain(at: Setup): seq<Kind> {
    match at
    case ParseUrl => [Context]
    case CreateTun => [Tun]
    case ConfigureDns => [Dns]
    case NewConn => [Conn]
    case _ => []
  }

  function Following(at: Setup): Setup
    requires at != SaveState
  {
    match at
    case ParseUrl => Authenticate
    case Authenticate => FetchInfo
    case FetchInfo => CreateTun
    case CreateTun => ConfigureTun
    case ConfigureTun => ConfigureDns
    case ConfigureDns => NewConn
    case NewConn => ParseRpcUrl
    case ParseRpcUrl => RunController
    case RunController => SaveState
  }

  // ---- the critical sections ----

  predicate MayStart(s: Service) {
    s.phase != Connected && s.phase != Connecting
  }

  function Start(s: Service): Service {
    if MayStart(s) then s.(phase := Connecting) else s
  }

  function Stop(s: Service): Service {
    if s.phase == Disconnected then s else Service(Disconnected, AllFields(None))
  }

  function FieldReleased(owner: Option<nat>, kind: Kind): seq<Event> {
    if owner.None? then [] else [Released(owner.value, kind)]
  }

  function FieldOverwritten(owner: Option<nat>, kind: Kind): seq<Event> {
    if owner.None? then [] else [Overwritten(owner.value, kind)]
  }

  /** The release calls of shutdown, in its order. */
  function StopReleases(s: Service): seq<Event> {
    if s.phase == Disconnected then []
    else
      FieldReleased(s.fields.tailnetCon, Conn) + FieldReleased(s.fields.cancel, Context)
      + FieldReleased(s.fields.tunDev, Tun) + FieldReleased(s.fields.dnsManager, Dns)
  }

  function Save(s: Service, task: nat): Service {
    Service(Connected, AllFields(Some(task)))
  }

  /** What saving a new tunnel over old fields drops without a release. */
  function SaveLosses(s: Service): seq<Event> {
    FieldOverwritten(s.fields.cancel, Context) + FieldOverwritten(s.fields.tailnetCon, Conn)
    + FieldOverwritten(s.fields.tunDev, Tun) + FieldOverwritten(s.fields.dnsManager, Dns)
  }

  function SetError(s: Service): Service {
    s.(phase := Error)
  }

  function ControllerClosed(s: Service, task: nat): Service {
    if s.fields.controller == Some(task) && s.phase == Connected then s.(phase := Error) else s
  }

  // ---- steps and runs ----

  datatype Step =
    | StartCall
    | StopCall
    | Succeed(task: nat)
    | FailAt(task: nat)
    | ReleaseNext(task: nat)
    | ReportError(task: nat)
    | SaveTunnel(task: nat)
    | Closed(task: nat)

  /** Whether the step can be taken; Start and Stop can always be called. */
  predicate Enabled(s: System, step: Step) {
    match step
    case StartCall => true
    case StopCall => true
    case Succeed(t) => t < |s.tasks| && s.tasks[t].SettingUp? && s.tasks[t].next != SaveState
    case FailAt(t) => t < |s.tasks| && s.tasks[t].SettingUp? && CanFail(s.tasks[t].next)
    case ReleaseNext(t) => t < |s.tasks| && s.tasks[t].CleaningUp? && s.tasks[t].todo != []
    case ReportError(t) => t < |s.tasks| && s.tasks[t].CleaningUp? && s.tasks[t].todo == []
    case SaveTunnel(t) => t < |s.tasks| && s.tasks[t] == SettingUp(SaveState)
    case Closed(t) => t < |s.tasks| && s.tasks[t] == Watching
  }

  function Take(s: System, step: Step): System
    requires Enabled(s, step)
  {
    match step
    case StartCall =>
      if MayStart(s.service) then s.(service := Start(s.service), tasks := s.tasks + [SettingUp(ParseUrl)]) else s
    case StopCall =>
      s.(service := Stop(s.service), log := s.log + StopReleases(s.service))
    case Succeed(t) =>
      var at := s.tasks[t].next;
      s.(tasks := s.tasks[t := SettingUp(Following(at))],
         log := s.log + Acquisitions(t, Gain(at)))
    case FailAt(t) =>
      var at := s.tasks[t].next;
      s.(tasks := s.tasks[t := CleaningUp(Held(at), ReleaseCalls(at))])
    case ReleaseNext(t) =>
      var g := s.tasks[t];
      s.(tasks := s.tasks[t := g.(todo := g.todo[1..])], log := s.log + [Released(t, g.todo[0])])
    case ReportError(t) =>
      s.(service := SetError(s.service), tasks := s.tasks[t := Failed(s.tasks[t].held)])
    case SaveTunnel(t) =>
      s.(service := Save(s.service, t), tasks := s.tasks[t := Watching],
         log := s.log + SaveLosses(s.service), saved := s.saved + [t])
    case Closed(t) =>
      s.(service := ControllerClosed(s.service, t), tasks := s.tasks[t := Stopped])
  }

  /** A step that cannot be taken is skipped, so every sequence of steps is a run. */
  function Do(s: System, step: Step): System {
    if Enabled(s, step) then Take(s, step) else s
  }

  function Run(s: System, steps: seq<Step>): System {
    if steps == [] then s else Do(Run(s, steps[..|steps| - 1]), steps[|steps| - 1])
  }

  function After(steps: seq<Step>): System {
    Run(INIT, steps)
  }

  // ---- what holds in every reachable state ----

  /** The part of the log about one goroutine's resources. */
  function About(log: seq<Event>, task: nat): seq<Event> {
    if log == [] then []
    else About(log[..|log| - 1], task) + if log[|log| - 1].task == task then [log[|log| - 1]] else []
  }

  function Acquisitions(task: nat, kinds: seq<Kind>): (events: seq<Event>)
    ensures |events| == |kinds|
  {
    seq(|kinds|, i requires 0 <= i < |kinds| => Acquired(task, kinds[i]))
  }

  function Releases(task: nat, kinds: seq<Kind>): (events: seq<Event>)
    ensures |events| == |kinds|
  {
    seq(|kinds|, i requires 0 <= i < |kinds| => Released(task, kinds[i]))
  }

  function Losses(task: nat, kinds: seq<Kind>): (events: seq<Event>)
    ensures |events| == |kinds|
  {
    seq(|kinds|, i requires 0 <= i < |kinds| => Overwritten(task, kinds[i]))
  }

  function Reversed(kinds: seq<Kind>): (r: seq<Kind>)
    ensures |r| == |kinds|
  {
    if kinds == [] then [] else [kinds[|kinds| - 1]] + Reversed(kinds[..|kinds| - 1])
  }

  const STOP_ORDER: seq<Kind> := [Conn, Context, Tun, Dns]
  const SAVE_ORDER: seq<Kind> := [Context, Conn, Tun, Dns]

  /** The whole history of one goroutine's resources, given where the goroutine is. */
  ghost predicate HistoryFits(s: System, t: nat)
    requires t < |s.tasks|
  {
    var history := About(s.log, t);
    match s.tasks[t]
    case SettingUp(at) => history == Acquisitions(t, Held(at))
    case CleaningUp(held, todo) =>
      && held <= ALL && |todo| <= |held|
      && todo == Reversed(held)[|held| - |todo|..]
      && history == Acquisitions(t, held) + Releases(t, Reversed(held)[..|held| - |todo|])
    case Failed(held) =>
      && held <= ALL
      && history == Acquisitions(t, held) + Releases(t, Reversed(held))
    case _ =>
      if s.service.fields.controller == Some(t) then history == Acquisitions(t, ALL)
      else
        || history == Acquisitions(t, ALL) + Releases(t, STOP_ORDER)
        || history == Acquisitions(t, ALL) + Losses(t, SAVE_ORDER)
  }

  ghost predicate FieldsFit(s: System) {
    var owner := s.service.fields.controller;
    && s.service.fields == AllFields(owner)
    && (s.service.phase == Disconnected ==> owner == None)
    && (s.service.phase == Connected ==> owner.Some?)
    && (owner.Some? ==>
          && owner.value < |s.tasks| && s.tasks[owner.value] in {Watching, Stopped}
          && s.saved != [] && s.saved[|s.saved| - 1] == owner.value)
  }

  ghost predicate Inv(s: System) {
    && FieldsFit(s)
    && (forall t | 0 <= t < |s.tasks| :: HistoryFits(s, t))
    && (forall t | |s.tasks| <= t :: About(s.log, t) == [])
  }

  lemma {:induction false} AboutConcat(a: seq<Event>, b: seq<Event>, task: nat)
    ensures About(a + b, task) == About(a, task) + About(b, task)
  {
    if b == [] {
      assert a + b == a;
    } else {
      assert (a + b)[..|a + b| - 1] == a + b[..|b| - 1];
      AboutConcat(a, b[..|b| - 1], task);
    }
  }

  /** Events that all concern `task`. */
  lemma {:induction false} AboutOne(events: seq<Event>, task: nat, other: nat)
    requires forall e | e in events :: e.task == task
    ensures About(events, other) == if other == task then events else []
  {
    if events != [] {
      AboutOne(events[..|events| - 1], task, other);
    }
  }

  /** After appending events about `task`, its history grows by them and no other history changes. */
  lemma Append(log: seq<Event>, events: seq<Event>, task: nat)
    requires forall e | e in events :: e.task == task
    ensures forall t: nat :: About(log + events, t) == About(log, t) + if t == task then events else []
  {
    forall t: nat ensures About(log + events, t) == About(log, t) + if t == task then events else [] {
      AboutConcat(log, events, t);
      AboutOne(events, task, t);
    }
  }

  lemma Reversals()
    ensures Reversed([]) == [] && Reversed([Context]) == [Context] && Reversed([Context, Tun]) == [Tun, Context]
    ensures Reversed([Context, Tun, Dns]) == [Dns, Tun, Context]
    ensures Reversed(ALL) == [Conn, Dns, Tun, Context]
  {
    assert [Context][..0] == [];
    assert [Context, Tun][..1] == [Context];
    assert [Context, Tun, Dns][..2] == [Context, Tun];
    assert ALL[..3] == [Context, Tun, Dns];
  }

  /** Every failing branch releases exactly what is held, in reverse order of acquisition. */
  lemma ReleaseCallsReverse(at: Setup)
    requires CanFail(at)
    ensures ReleaseCalls(at) == Reversed(Held(at)) && Held(at) <= ALL
  {
    Reversals();
  }

  lemma AcquisitionsConcat(task: nat, a: seq<Kind>, b: seq<Kind>)
    ensures Acquisitions(task, a + b) == Acquisitions(task, a) + Acquisitions(task, b)
  {
  }

  lemma HeldGrows(at: Setup)
    requires at != SaveState
    ensures Held(Following(at)) == Held(at) + Gain(at)
  {
  }

  /** A step of one live goroutine leaves every other history as it was. */
  lemma OthersKeep(s: System, s': System, task: nat, events: seq<Event>)
    requires Inv(s) && task < |s.tasks| && |s'.tasks| == |s.tasks|
    requires s'.tasks == s.tasks[task := s'.tasks[task]]
    requires s'.service.fields == s.service.fields
    requires s'.log == s.log + events && forall e | e in events :: e.task == task
    ensures forall t | 0 <= t < |s.tasks| && t != task :: HistoryFits(s', t)
    ensures forall t | |s.tasks| <= t :: About(s'.log, t) == []
    ensures About(s'.log, task) == About(s.log, task) + events
  {
    Append(s.log, events, task);
    forall t | 0 <= t < |s.tasks| && t != task ensures HistoryFits(s', t) {
      assert HistoryFits(s, t);
    }
  }

  lemma StartKeeps(s: System)
    requires Inv(s)
    ensures Inv(Do(s, StartCall))
  {
    var s' := Do(s, StartCall);
    if MayStart(s.service) {
      forall t | 0 <= t < |s'.tasks| ensures HistoryFits(s', t) {
        assert t < |s.tasks| ==> HistoryFits(s, t);
      }
    }
  }

  lemma StopKeeps(s: System)
    requires Inv(s)
    ensures Inv(Do(s, StopCall))
  {
    var s' := Do(s, StopCall);
    var owner := s.service.fields.controller;
    if s.service.phase != Disconnected && owner.Some? {
      assert StopReleases(s.service) == Releases(owner.value, STOP_ORDER);
      Append(s.log, StopReleases(s.service), owner.value);
    } else {
      assert s'.log == s.log;
    }
    forall t | 0 <= t < |s'.tasks| ensures HistoryFits(s', t) {
      assert HistoryFits(s, t);
    }
  }

  lemma SucceedKeeps(s: System, task: nat)
    requires Inv(s) && Enabled(s, Succeed(task))
    ensures Inv(Do(s, Succeed(task)))
  {
    var at := s.tasks[task].next;
    OthersKeep(s, Do(s, Succeed(task)), task, Acquisitions(task, Gain(at)));
    assert HistoryFits(s, task);
    HeldGrows(at);
    AcquisitionsConcat(task, Held(at), Gain(at));
  }

  lemma FailKeeps(s: System, task: nat)
    requires Inv(s) && Enabled(s, FailAt(task))
    ensures Inv(Do(s, FailAt(task)))
  {
    assert s.log + [] == s.log;
    OthersKeep(s, Do(s, FailAt(task)), task, []);
    assert HistoryFits(s, task);
    var held := Held(s.tasks[task].next);
    ReleaseCallsReverse(s.tasks[task].next);
    assert Acquisitions(task, held) + Releases(task, Reversed(held)[..0]) == Acquisitions(task, held);
  }

  lemma ReleaseKeeps(s: System, task: nat)
    requires Inv(s) && Enabled(s, ReleaseNext(task))
    ensures Inv(Do(s, ReleaseNext(task)))
  {
    hide About, Reversed;
    var g := s.tasks[task];
    OthersKeep(s, Do(s, ReleaseNext(task)), task, [Released(task, g.todo[0])]);
    assert HistoryFits(s, task);
    var order, done := Reversed(g.held), |g.held| - |g.todo|;
    assert order[done] == g.todo[0] && order[done + 1..] == g.todo[1..];
    assert Releases(task, order[..done + 1]) == Releases(task, order[..done]) + [Released(task, g.todo[0])];
  }

  lemma ReportKeeps(s: System, task: nat)
    requires Inv(s) && Enabled(s, ReportError(task))
    ensures Inv(Do(s, ReportError(task)))
  {
    assert s.log + [] == s.log;
    OthersKeep(s, Do(s, ReportError(task)), task, []);
    assert HistoryFits(s, task);
    var order := Reversed(s.tasks[task].held);
    assert order[..|order|] == order;
  }

  lemma SaveKeeps(s: System, task: nat)
    requires Inv(s) && Enabled(s, SaveTunnel(task))
    ensures Inv(Do(s, SaveTunnel(task)))
  {
    hide About, Reversed;
    var s' := Do(s, SaveTunnel(task));
    var owner := s.service.fields.controller;
    if owner.Some? {
      assert SaveLosses(s.service) == Losses(owner.value, SAVE_ORDER);
      Append(s.log, SaveLosses(s.service), owner.value);
    } else {
      assert s'.log == s.log;
    }
    forall t | 0 <= t < |s'.tasks| ensures HistoryFits(s', t) {
      assert HistoryFits(s, t);
    }
  }

  lemma ClosedKeeps(s: System, task: nat)
    requires Inv(s) && Enabled(s, Closed(task))
    ensures Inv(Do(s, Closed(task)))
  {
    var s' := Do(s, Closed(task));
    forall t | 0 <= t < |s'.tasks| ensures HistoryFits(s', t) {
      assert HistoryFits(s, t);
    }
  }

  lemma StepKeepsInv(s: System, step: Step)
    requires Inv(s)
    ensures Inv(Do(s, step))
  {
    if Enabled(s, step) {
      match step
      case StartCall => StartKeeps(s);
      case StopCall => StopKeeps(s);
      case Succeed(t) => SucceedKeeps(s, t);
      case FailAt(t) => FailKeeps(s, t);
      case ReleaseNext(t) => ReleaseKeeps(s, t);
      case ReportError(t) => ReportKeeps(s, t);
      case SaveTunnel(t) => SaveKeeps(s, t);
      case Closed(t) => ClosedKeeps(s, t);
    }
  }

  /** Every reachable state, over every interleaving: the five fields are all nil or all set and
      fit the phase, and every goroutine's resource history is the one its position calls for. */
  lemma {:induction false} Reachable(steps: seq<Step>)
    ensures Inv(After(steps))
  {
    if steps != [] {
      Reachable(steps[..|steps| - 1]);
      StepKeepsInv(After(steps[..|steps| - 1]), steps[|steps| - 1]);
    }
  }
}
