/** What every run of the tunnel protocol keeps, and exactly when one loses a resource. */
module TunnelSafety {
  import opened Wrappers
  import opened TunnelProtocol

  // ---- counting ledger entries ----

  lemma {:induction false} CountAbout(log: seq<Event>, e: Event)
    ensures multiset(About(log, e.task))[e] == multiset(log)[e]
  {
    if log != [] {
      var front := log[..|log| - 1];
      CountAbout(front, e);
      assert log == front + [log[|log| - 1]];
    }
  }

  lemma {:induction false} CountEvents(task: nat, kinds: seq<Kind>, k: Kind)
    ensures multiset(Acquisitions(task, kinds))[Acquired(task, k)] == multiset(kinds)[k]
    ensures multiset(Releases(task, kinds))[Released(task, k)] == multiset(kinds)[k]
    ensures multiset(Losses(task, kinds))[Overwritten(task, k)] == multiset(kinds)[k]
  {
    if kinds != [] {
      var front, last := kinds[..|kinds| - 1], kinds[|kinds| - 1];
      CountEvents(task, front, k);
      assert kinds == front + [last];
      assert Acquisitions(task, kinds) == Acquisitions(task, front) + [Acquired(task, last)];
      assert Releases(task, kinds) == Releases(task, front) + [Released(task, last)];
      assert Losses(task, kinds) == Losses(task, front) + [Overwritten(task, last)];
    }
  }

  lemma {:induction false} CountReversed(kinds: seq<Kind>)
    ensures multiset(Reversed(kinds)) == multiset(kinds)
  {
    if kinds != [] {
      CountReversed(kinds[..|kinds| - 1]);
      assert kinds == kinds[..|kinds| - 1] + [kinds[|kinds| - 1]];
    }
  }

  lemma CountPart(part: seq<Kind>, whole: seq<Kind>, k: Kind)
    requires part <= whole
    ensures multiset(part)[k] <= multiset(whole)[k]
  {
    assert whole == part + whole[|part|..];
  }

  lemma EachKindOnce(k: Kind)
    ensures multiset(ALL)[k] == multiset(STOP_ORDER)[k] == multiset(SAVE_ORDER)[k] == 1
  {
  }

  function Count(s: System, e: Event): nat {
    multiset(s.log)[e]
  }

  ghost predicate Live(g: Goroutine) {
    g.SettingUp? || g.CleaningUp?
  }

  /** A resource is held by its goroutine while that is live, or by the service's fields. */
  ghost predicate StillHeld(s: System, t: nat)
  {
    t < |s.tasks| && (Live(s.tasks[t]) || s.service.fields.controller == Some(t))
  }

  ghost predicate LedgerFits(s: System, t: nat, k: Kind) {
    var gone := Count(s, Released(t, k)) + Count(s, Overwritten(t, k));
    && gone <= Count(s, Acquired(t, k)) <= 1
    && (!StillHeld(s, t) ==> gone == Count(s, Acquired(t, k)))
    && (s.service.fields.controller == Some(t) ==> Count(s, Acquired(t, k)) == 1 && gone == 0)
  }

  lemma ShapeCounts(s: System, t: nat, got: seq<Kind>, released: seq<Kind>, lost: seq<Kind>, k: Kind)
    requires About(s.log, t) == Acquisitions(t, got) + Releases(t, released) + Losses(t, lost)
    ensures Count(s, Acquired(t, k)) == multiset(got)[k]
    ensures Count(s, Released(t, k)) == multiset(released)[k]
    ensures Count(s, Overwritten(t, k)) == multiset(lost)[k]
  {
    CountAbout(s.log, Acquired(t, k));
    CountAbout(s.log, Released(t, k));
    CountAbout(s.log, Overwritten(t, k));
    var a, r, l := Acquisitions(t, got), Releases(t, released), Losses(t, lost);
    assert multiset(a + r + l) == multiset(a) + multiset(r) + multiset(l);
    CountEvents(t, got, k);
    CountEvents(t, released, k);
    CountEvents(t, lost, k);
    assert Acquired(t, k) !in r && Acquired(t, k) !in l;
    assert Released(t, k) !in a && Released(t, k) !in l;
    assert Overwritten(t, k) !in a && Overwritten(t, k) !in r;
  }

  lemma HeldCounts(s: System, t: nat, held: seq<Kind>, done: nat, k: Kind)
    requires held <= ALL && done <= |held|
    requires About(s.log, t) == Acquisitions(t, held) + Releases(t, Reversed(held)[..done])
    ensures Count(s, Released(t, k)) <= Count(s, Acquired(t, k)) <= 1
    ensures done == |held| ==> Count(s, Released(t, k)) == Count(s, Acquired(t, k))
    ensures Count(s, Overwritten(t, k)) == 0
  {
    var released := Reversed(held)[..done];
    assert About(s.log, t) == Acquisitions(t, held) + Releases(t, released) + Losses(t, []);
    ShapeCounts(s, t, held, released, [], k);
    EachKindOnce(k);
    CountPart(held, ALL, k);
    CountPart(released, Reversed(held), k);
    CountReversed(held);
    assert done == |held| ==> released == Reversed(held);
  }

  lemma HistoryCounts(s: System, t: nat, k: Kind)
    requires Inv(s)
    ensures LedgerFits(s, t, k)
  {
    if t >= |s.tasks| {
      ShapeCounts(s, t, [], [], [], k);
      return;
    }
    assert HistoryFits(s, t);
    match s.tasks[t]
    case SettingUp(at) =>
      assert Acquisitions(t, Held(at)) + Releases(t, Reversed(Held(at))[..0]) == Acquisitions(t, Held(at));
      HeldCounts(s, t, Held(at), 0, k);
    case CleaningUp(held, todo) =>
      HeldCounts(s, t, held, |held| - |todo|, k);
    case Failed(held) =>
      assert Reversed(held)[..|held|] == Reversed(held);
      HeldCounts(s, t, held, |held|, k);
    case _ =>
      SavedCounts(s, t, k);
  }

  lemma SavedCounts(s: System, t: nat, k: Kind)
    requires Inv(s) && t < |s.tasks| && s.tasks[t] in {Watching, Stopped}
    ensures LedgerFits(s, t, k)
  {
    EachKindOnce(k);
    var history := About(s.log, t);
    assert HistoryFits(s, t);
    if history == Acquisitions(t, ALL) {
      assert history == Acquisitions(t, ALL) + Releases(t, []) + Losses(t, []);
      ShapeCounts(s, t, ALL, [], [], k);
    } else if history == Acquisitions(t, ALL) + Releases(t, STOP_ORDER) {
      assert history == Acquisitions(t, ALL) + Releases(t, STOP_ORDER) + Losses(t, []);
      ShapeCounts(s, t, ALL, STOP_ORDER, [], k);
    } else {
      assert history == Acquisitions(t, ALL) + Releases(t, []) + Losses(t, SAVE_ORDER);
      ShapeCounts(s, t, ALL, [], SAVE_ORDER, k);
    }
  }

  /** Over every interleaving: no resource is acquired twice or let go twice, none is let go before
      it was acquired, and none that is held by nobody is left in between. */
  lemma Ledger(steps: seq<Step>, t: nat, k: Kind)
    ensures LedgerFits(After(steps), t, k)
  {
    Reachable(steps);
    HistoryCounts(After(steps), t, k);
  }

  /** A goroutine that failed has released exactly what it acquired, in reverse order. */
  lemma FailedGoroutineIsClean(steps: seq<Step>, t: nat)
    requires t < |After(steps).tasks| && After(steps).tasks[t].Failed?
    ensures exists held | held <= ALL ::
      About(After(steps).log, t) == Acquisitions(t, held) + Releases(t, Reversed(held))
  {
    Reachable(steps);
    assert HistoryFits(After(steps), t);
  }

  /** At every release of the mutex the five fields are all nil or all made by one goroutine. */
  lemma FieldsAndPhase(steps: seq<Step>)
    ensures var s := After(steps).service;
      && s.fields == AllFields(s.fields.controller)
      && (s.phase == Disconnected ==> s.fields == AllFields(None))
      && (s.phase == Connected ==> s.fields != AllFields(None))
  {
    Reachable(steps);
  }

  // ---- monitors ----

  ghost predicate SavedOnce(s: System) {
    && (forall i | 0 <= i < |s.saved| :: s.saved[i] < |s.tasks| && s.tasks[s.saved[i]] in {Watching, Stopped})
    && (forall i, j | 0 <= i < j < |s.saved| :: s.saved[i] != s.saved[j])
  }

  lemma {:induction false} TunnelsAreSavedOnce(steps: seq<Step>)
    ensures SavedOnce(After(steps))
  {
    if steps != [] {
      TunnelsAreSavedOnce(steps[..|steps| - 1]);
    }
  }

  /** Once a newer tunnel has been saved, the monitor of an older controller changes nothing. */
  lemma OldMonitorsAreHarmless(steps: seq<Step>, i: nat, j: nat)
    requires i < j < |After(steps).saved|
    ensures Do(After(steps), Closed(After(steps).saved[i])).service == After(steps).service
  {
    Reachable(steps);
    TunnelsAreSavedOnce(steps);
  }

  // ---- losing a resource ----

  predicate Loses(s: System) {
    exists e | e in s.log :: e.Overwritten?
  }

  /** The step saves a tunnel while the fields still hold another one. */
  predicate SavesOver(s: System, step: Step) {
    step.SaveTunnel? && Enabled(s, step) && s.service.fields.controller.Some?
  }

  lemma StepLoses(s: System, step: Step)
    requires Inv(s)
    ensures Loses(Do(s, step)) <==> Loses(s) || SavesOver(s, step)
  {
    var s' := Do(s, step);
    if SavesOver(s, step) {
      var t := s.service.fields.controller.value;
      assert Overwritten(t, Context) in SaveLosses(s.service);
      assert Overwritten(t, Context) in s'.log;
    }
    assert forall e | e in s.log :: e in s'.log;
    if Loses(s') && !Loses(s) {
      var e :| e in s'.log && e.Overwritten?;
      assert e !in s.log;
    }
  }

  lemma AfterOneMore(steps: seq<Step>)
    requires steps != []
    ensures After(steps) == Do(After(steps[..|steps| - 1]), steps[|steps| - 1])
  {
  }

  /** A run loses a resource exactly when one of its steps saves a tunnel over occupied fields. */
  lemma {:induction false} LosesIffSavesOver(steps: seq<Step>)
    ensures Loses(After(steps)) <==> exists i | 0 <= i < |steps| :: SavesOver(After(steps[..i]), steps[i])
  {
    if steps != [] {
      AfterOneMore(steps);
      hide Run, Do, Loses, SavesOver, Inv;
      var n := |steps| - 1;
      var front := steps[..n];
      LosesIffSavesOver(front);
      Reachable(front);
      StepLoses(After(front), steps[n]);
      assert forall i | 0 <= i < n :: front[..i] == steps[..i];
      if SavesOver(After(front), steps[n]) {
        assert SavesOver(After(steps[..n]), steps[n]);
      }
      if exists i | 0 <= i < n :: SavesOver(After(front[..i]), front[i]) {
        var i :| 0 <= i < n && SavesOver(After(front[..i]), front[i]);
        assert SavesOver(After(steps[..i]), steps[i]);
      }
    }
  }

  /** No Stop while connecting, and no successful Start while the fields are occupied. */
  predicate CarefulStep(s: Service, step: Step) {
    match step
    case StopCall => s.phase != Connecting
    case StartCall => MayStart(s) ==> s.fields.controller == None
    case _ => true
  }

  predicate Careful(steps: seq<Step>) {
    steps != [] ==>
      && Careful(steps[..|steps| - 1])
      && CarefulStep(After(steps[..|steps| - 1]).service, steps[|steps| - 1])
  }

  /** At most one goroutine is live, and only while connecting, with the fields still empty. */
  ghost predicate Orderly(s: System) {
    && (s.service.phase == Connecting ==> s.service.fields.controller == None)
    && (forall t | 0 <= t < |s.tasks| && Live(s.tasks[t]) :: s.service.phase == Connecting)
    && (forall t, u | 0 <= t < |s.tasks| && 0 <= u < |s.tasks| && Live(s.tasks[t]) && Live(s.tasks[u]) :: t == u)
  }

  lemma {:induction false} CarefulRunsAreOrderly(steps: seq<Step>)
    requires Careful(steps)
    ensures Orderly(After(steps)) && !Loses(After(steps))
  {
    if steps != [] {
      var front, step := steps[..|steps| - 1], steps[|steps| - 1];
      CarefulRunsAreOrderly(front);
      Reachable(front);
      StepLoses(After(front), step);
      OrderlyStep(After(front), step);
    }
  }

  lemma OrderlyStep(s: System, step: Step)
    requires Inv(s) && Orderly(s) && CarefulStep(s.service, step)
    ensures Orderly(Do(s, step)) && !SavesOver(s, step)
  {
  }

  /** Careful runs leak nothing: what a goroutine acquired has been released, each exactly once, as soon
      as the goroutine is through with its setup or its cleanup and its tunnel is not the one in the fields. */
  lemma CarefulRunsLeakNothing(steps: seq<Step>, t: nat, k: Kind)
    requires Careful(steps) && After(steps).service.fields.controller != Some(t)
    requires t < |After(steps).tasks| ==> !Live(After(steps).tasks[t])
    ensures Count(After(steps), Released(t, k)) == Count(After(steps), Acquired(t, k)) <= 1
  {
    var s := After(steps);
    CarefulRunsAreOrderly(steps);
    Ledger(steps, t, k);
    Reachable(steps);
    assert Overwritten(t, k) !in s.log;
  }

  /** A careful run that is disconnected, or in error with empty fields and no cleanup under way, holds nothing. */
  lemma CarefulRunsEndEmpty(steps: seq<Step>, t: nat, k: Kind)
    requires Careful(steps)
    requires After(steps).service.phase == Disconnected
          || (After(steps).service.phase == Error && After(steps).service.fields.controller == None)
    ensures Count(After(steps), Released(t, k)) == Count(After(steps), Acquired(t, k)) <= 1
  {
    CarefulRunsAreOrderly(steps);
    Reachable(steps);
    CarefulRunsLeakNothing(steps, t, k);
  }

  // ---- what is not guaranteed ----

  function SetupAt(n: nat): (at: Setup)
    requires n <= 9
    ensures at == SaveState <==> n == 9
  {
    [ParseUrl, Authenticate, FetchInfo, CreateTun, ConfigureTun, ConfigureDns, NewConn, ParseRpcUrl,
     RunController, SaveState][n]
  }

  lemma FirstSetupStep()
    ensures SetupAt(0) == ParseUrl
  {
  }

  /** Where a setup step stands in the order. */
  function StageOf(at: Setup): (n: nat)
    ensures n <= 9 && SetupAt(n) == at
  {
    match at
    case ParseUrl => 0
    case Authenticate => 1
    case FetchInfo => 2
    case CreateTun => 3
    case ConfigureTun => 4
    case ConfigureDns => 5
    case NewConn => 6
    case ParseRpcUrl => 7
    case RunController => 8
    case SaveState => 9
  }

  function SetupSteps(task: nat, n: nat): (steps: seq<Step>)
    ensures forall i | 0 <= i < |steps| :: steps[i] == Succeed(task)
  {
    if n == 0 then [] else SetupSteps(task, n - 1) + [Succeed(task)]
  }

  lemma OneSetupStep(s: System, task: nat, n: nat)
    requires n < 9 && task < |s.tasks| && s.tasks[task] == SettingUp(SetupAt(n))
    ensures var s' := Do(s, Succeed(task));
      && s'.service == s.service && |s'.tasks| == |s.tasks|
      && s'.tasks[task] == SettingUp(SetupAt(n + 1)) && s.log <= s'.log
  {
    assert Following(SetupAt(n)) == SetupAt(n + 1);
  }

  /** Left alone, a goroutine at stage `m` goes on to stage `m + n`. */
  lemma {:induction false} SetupRun(s: System, task: nat, m: nat, n: nat)
    requires m + n <= 9 && task < |s.tasks| && s.tasks[task] == SettingUp(SetupAt(m))
    ensures var s' := Run(s, SetupSteps(task, n));
      && s'.service == s.service && |s'.tasks| == |s.tasks|
      && s'.tasks[task] == SettingUp(SetupAt(m + n)) && s.log <= s'.log
  {
    hide Do, SetupAt;
    if n > 0 {
      SetupRun(s, task, m, n - 1);
      OneSetupStep(Run(s, SetupSteps(task, n - 1)), task, m + n - 1);
      assert SetupSteps(task, n)[..|SetupSteps(task, n)| - 1] == SetupSteps(task, n - 1);
    }
  }

  lemma {:induction false} RunConcat(s: System, a: seq<Step>, b: seq<Step>)
    ensures Run(s, a + b) == Run(Run(s, a), b)
    decreases |b|
  {
    if b == [] {
      assert a + b == a;
    } else {
      assert (a + b)[..|a + b| - 1] == a + b[..|b| - 1];
      RunConcat(s, a, b[..|b| - 1]);
    }
  }

  lemma RunOne(s: System, step: Step)
    ensures Run(s, [step]) == Do(s, step)
  {
    assert [step][..0] == [];
    assert Run(s, [step][..0]) == s;
  }

  /** One undisturbed tunnel start by goroutine `task`. */
  function StartRun(task: nat): seq<Step> {
    [StartCall] + SetupSteps(task, 9) + [SaveTunnel(task)]
  }

  /** An undisturbed start over occupied fields, such as after a lost connection, drops the whole old tunnel. */
  lemma StartOverOccupiedFieldsLeaks(s: System)
    requires MayStart(s.service) && s.service.fields.controller.Some? && FieldsFit(s)
    ensures var s' := Run(s, StartRun(|s.tasks|));
      s'.service == Save(s.service, |s.tasks|)
      && forall k :: Overwritten(s.service.fields.controller.value, k) in s'.log
  {
    var task := |s.tasks|;
    var owner := s.service.fields.controller;
    StartRunResult(s);
    var before := Run(s, [StartCall] + SetupSteps(task, 9));
    assert SaveLosses(before.service) == Losses(owner.value, SAVE_ORDER);
    forall k ensures Overwritten(owner.value, k) in Losses(owner.value, SAVE_ORDER) {
      CountEvents(owner.value, SAVE_ORDER, k);
      EachKindOnce(k);
    }
  }

  lemma StartRunResult(s: System)
    requires MayStart(s.service)
    ensures var task := |s.tasks|; var before := Run(s, [StartCall] + SetupSteps(task, 9));
      && before.service == s.service.(phase := Connecting)
      && Enabled(before, SaveTunnel(task))
      && Run(s, StartRun(task)) == Do(before, SaveTunnel(task))
  {
    var task := |s.tasks|;
    var started := Do(s, StartCall);
    RunOne(s, StartCall);
    RunConcat(s, [StartCall], SetupSteps(task, 9));
    FirstSetupStep();
    SetupRun(started, task, 0, 9);
    var before := Run(s, [StartCall] + SetupSteps(task, 9));
    RunConcat(s, [StartCall] + SetupSteps(task, 9), [SaveTunnel(task)]);
    RunOne(before, SaveTunnel(task));
  }

  /** A run that leaks: connect, lose the connection, connect again. */
  lemma ReconnectLeaks()
    ensures Loses(After(StartRun(0) + [Closed(0)] + StartRun(1)))
  {
    ConnectionLost();
    var lost := After(StartRun(0) + [Closed(0)]);
    RunConcat(INIT, StartRun(0) + [Closed(0)], StartRun(1));
    Reachable(StartRun(0) + [Closed(0)]);
    StartOverOccupiedFieldsLeaks(lost);
    assert Overwritten(0, Context) in Run(lost, StartRun(1)).log;
  }

  lemma ConnectionLost()
    ensures var lost := After(StartRun(0) + [Closed(0)]);
      lost.service == Service(Error, AllFields(Some(0))) && |lost.tasks| == 1
  {
    StartRunResult(INIT);
    SetupCount();
    RunConcat(INIT, StartRun(0), [Closed(0)]);
    RunOne(After(StartRun(0)), Closed(0));
  }

  lemma SetupCount()
    ensures |After(StartRun(0)).tasks| == 1
  {
    StartRunResult(INIT);
    RunOne(INIT, StartCall);
    RunConcat(INIT, [StartCall], SetupSteps(0, 9));
    FirstSetupStep();
    SetupRun(Do(INIT, StartCall), 0, 0, 9);
  }

  // ---- what a Stop calls off ----

  predicate NoStart(steps: seq<Step>) {
    forall i | 0 <= i < |steps| :: steps[i] != StartCall
  }

  /** Some continuation without another Start connects. */
  ghost predicate MayStillConnect(s: System) {
    exists steps | NoStart(steps) :: Run(s, steps).service.phase == Connected
  }

  predicate Idle(s: System) {
    s.service.phase != Connected && forall t | 0 <= t < |s.tasks| :: !s.tasks[t].SettingUp?
  }

  lemma {:induction false} IdleWithoutStart(s: System, steps: seq<Step>)
    requires Idle(s) && NoStart(steps)
    ensures Idle(Run(s, steps))
  {
    if steps != [] {
      IdleWithoutStart(s, steps[..|steps| - 1]);
      IdleStep(Run(s, steps[..|steps| - 1]), steps[|steps| - 1]);
    }
  }

  lemma IdleStep(s: System, step: Step)
    requires Idle(s) && step != StartCall
    ensures Idle(Do(s, step))
  {
  }

  lemma LastStage(m: nat)
    requires m <= 9
    ensures SetupAt(m + (9 - m)) == SaveState
  {
  }

  lemma SaveConnects(s: System, task: nat)
    requires task < |s.tasks| && s.tasks[task] == SettingUp(SaveState)
    ensures Do(s, SaveTunnel(task)).service.phase == Connected
  {
  }

  /** A goroutine that is still setting up can always go on and save its tunnel. */
  lemma SetupConnects(s: System, task: nat)
    requires task < |s.tasks| && s.tasks[task].SettingUp?
    ensures MayStillConnect(s)
  {
    hide Do, SetupAt, Run, SetupSteps, StageOf;
    var m := StageOf(s.tasks[task].next);
    var setup, save := SetupSteps(task, 9 - m), [SaveTunnel(task)];
    SetupRun(s, task, m, 9 - m);
    var ready := Run(s, setup);
    RunConcat(s, setup, save);
    RunOne(ready, SaveTunnel(task));
    LastStage(m);
    SaveConnects(ready, task);
    assert NoStart(setup + save);
    assert Run(s, setup + save).service.phase == Connected;
  }

  /** From any state a Stop, or Shutdown, calls the tunnel off for good iff no goroutine is setting one up:
      otherwise it reports disconnected and a tunnel can come up later without another Start. */
  lemma StopCallsOffIff(s: System)
    ensures MayStillConnect(Do(s, StopCall)) <==> exists t :: 0 <= t < |s.tasks| && s.tasks[t].SettingUp?
  {
    var stopped := Do(s, StopCall);
    if t :| 0 <= t < |s.tasks| && s.tasks[t].SettingUp? {
      SetupConnects(stopped, t);
    } else {
      forall steps | NoStart(steps) ensures Run(stopped, steps).service.phase != Connected {
        IdleWithoutStart(stopped, steps);
      }
    }
  }

  /** An instance: Stop comes just before the first tunnel is saved. */
  lemma StoppedStartStillConnects()
    ensures var run := [StartCall] + SetupSteps(0, 9) + [StopCall];
      After(run).service.phase == Disconnected && After(run + [SaveTunnel(0)]).service.phase == Connected
  {
    StartRunResult(INIT);
    var before := [StartCall] + SetupSteps(0, 9);
    RunConcat(INIT, before, [StopCall]);
    RunOne(After(before), StopCall);
    RunConcat(INIT, before + [StopCall], [SaveTunnel(0)]);
    RunOne(After(before + [StopCall]), SaveTunnel(0));
  }
}
