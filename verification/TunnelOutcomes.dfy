/** What a caller of the helper can rely on: how each call and each failure shows in the phase and the fields. */
module TunnelOutcomes {
  import opened Wrappers
  import opened TunnelProtocol
  import opened TunnelSafety

  // ---- what a phase says, over every run ----

  /** The goroutine of the newest Start is at work while connecting, and a connected tunnel has its controller. */
  ghost predicate PhaseIsTrue(s: System) {
    && (s.service.phase == Connecting ==> s.tasks != [] && Live(s.tasks[|s.tasks| - 1]))
    && (s.service.phase == Connected ==>
          && s.service.fields.controller.Some? && s.service.fields.controller.value < |s.tasks|
          && s.tasks[s.service.fields.controller.value] == Watching)
  }

  lemma PhaseStep(s: System, step: Step)
    requires PhaseIsTrue(s)
    ensures PhaseIsTrue(Do(s, step))
  {
  }

  /** No run is stuck: connecting, some goroutine will still save or fail; connected, the monitor still watches. */
  lemma {:induction false} NoRunIsStuck(steps: seq<Step>)
    ensures PhaseIsTrue(After(steps))
  {
    if steps != [] {
      hide PhaseIsTrue, Do;
      NoRunIsStuck(steps[..|steps| - 1]);
      PhaseStep(After(steps[..|steps| - 1]), steps[|steps| - 1]);
    } else {
      assert After(steps) == INIT;
    }
  }

  /** With careful callers, connecting means exactly that a goroutine is at work. */
  lemma ConnectingIffLive(steps: seq<Step>)
    requires Careful(steps)
    ensures After(steps).service.phase == Connecting <==>
            exists t :: 0 <= t < |After(steps).tasks| && Live(After(steps).tasks[t])
  {
    NoRunIsStuck(steps);
    CarefulRunsAreOrderly(steps);
    var s := After(steps);
    if s.service.phase == Connecting {
      assert Live(s.tasks[|s.tasks| - 1]);
    }
  }

  // ---- single steps, from any state ----

  /** A Start is refused exactly while connecting or connected; otherwise it launches one more goroutine. */
  lemma StartLaunchesIff(s: System)
    ensures var s' := Do(s, StartCall);
      if s.service.phase == Disconnected || s.service.phase == Error
      then s'.service == Service(Connecting, s.service.fields) && s'.tasks == s.tasks + [SettingUp(ParseUrl)]
        && s'.log == s.log && s'.saved == s.saved
      else s' == s
  {
  }

  /** After a Stop nothing is in the fields, and the tunnel that was in them has been released, each part once. */
  lemma StopEmptiesTheFields(steps: seq<Step>)
    ensures var s := After(steps); var s' := Do(s, StopCall); var owner := s.service.fields.controller;
      && s'.service == Service(Disconnected, Fields(None, None, None, None, None))
      && s'.tasks == s.tasks
      && s'.log == s.log + (if owner.None? then [] else
           [Released(owner.value, Conn), Released(owner.value, Context),
            Released(owner.value, Tun), Released(owner.value, Dns)])
  {
    Reachable(steps);
    var s := After(steps);
    var owner := s.service.fields.controller;
    if owner.Some? {
      assert StopReleases(s.service) == [Released(owner.value, Conn), Released(owner.value, Context),
                                         Released(owner.value, Tun), Released(owner.value, Dns)];
    } else {
      assert StopReleases(s.service) == [];
    }
  }

  /** A closed controller is reported iff it is the current one of a connected tunnel; the fields stay. */
  lemma ClosingIsReportedIff(s: System, t: nat)
    requires Enabled(s, Closed(t))
    ensures var s' := Do(s, Closed(t));
      && s'.service.fields == s.service.fields
      && (s'.service.phase != s.service.phase <==>
            s.service.phase == Connected && s.service.fields.controller == Some(t))
      && (s'.service.phase != s.service.phase ==> s'.service.phase == Error)
  {
  }

  // ---- a start that fails ----

  function ReleaseSteps(task: nat, n: nat): seq<Step> {
    if n == 0 then [] else ReleaseSteps(task, n - 1) + [ReleaseNext(task)]
  }

  lemma OneRelease(s: System, task: nat)
    requires task < |s.tasks| && s.tasks[task].CleaningUp? && s.tasks[task].todo != []
    ensures var g := s.tasks[task]; var s' := Do(s, ReleaseNext(task));
      && s'.service == s.service && |s'.tasks| == |s.tasks|
      && s'.tasks[task] == CleaningUp(g.held, g.todo[1..]) && s'.log == s.log + Releases(task, g.todo[..1])
  {
    assert Releases(task, s.tasks[task].todo[..1]) == [Released(task, s.tasks[task].todo[0])];
  }

  lemma OneMoreReleased(task: nat, todo: seq<Kind>, n: nat)
    requires 0 < n <= |todo|
    ensures todo[n - 1..] != [] && todo[n - 1..][1..] == todo[n..]
    ensures Releases(task, todo[..n]) == Releases(task, todo[..n - 1]) + Releases(task, todo[n - 1..][..1])
  {
  }

  lemma LastRelease(s: System, task: nat, n: nat)
    requires n > 0
    ensures Run(s, ReleaseSteps(task, n)) == Do(Run(s, ReleaseSteps(task, n - 1)), ReleaseNext(task))
  {
    hide Do;
    var steps := ReleaseSteps(task, n);
    assert steps[..|steps| - 1] == ReleaseSteps(task, n - 1);
  }

  lemma NothingReleased(s: System, task: nat, todo: seq<Kind>)
    ensures Run(s, ReleaseSteps(task, 0)) == s && todo[0..] == todo && s.log + Releases(task, todo[..0]) == s.log
  {
  }

  /** Left alone, a goroutine that cleans up makes its release calls in order. */
  lemma {:induction false} ReleaseRun(s: System, task: nat, n: nat)
    requires task < |s.tasks| && s.tasks[task].CleaningUp? && n <= |s.tasks[task].todo|
    ensures var g := s.tasks[task]; var s' := Run(s, ReleaseSteps(task, n));
      && s'.service == s.service && |s'.tasks| == |s.tasks|
      && s'.tasks[task] == CleaningUp(g.held, g.todo[n..]) && s'.log == s.log + Releases(task, g.todo[..n])
  {
    hide Do, Run, ReleaseSteps, Releases;
    var g := s.tasks[task];
    if n == 0 {
      NothingReleased(s, task, g.todo);
    } else {
      ReleaseRun(s, task, n - 1);
      OneMoreReleased(task, g.todo, n);
      LastRelease(s, task, n);
      OneRelease(Run(s, ReleaseSteps(task, n - 1)), task);
    }
  }

  /** What a goroutine does when its step number `n` fails: the release calls, then the report. */
  function FailRun(task: nat, n: nat): seq<Step>
    requires n <= 9
  {
    [FailAt(task)] + ReleaseSteps(task, |Held(SetupAt(n))|) + [ReportError(task)]
  }

  /** A failing goroutine, left alone, lets go of what it holds, newest first, and reports the error;
      the fields are as before and the next Start is accepted. */
  lemma FailureIsReported(s: System, task: nat, n: nat)
    requires n <= 9 && task < |s.tasks| && s.tasks[task] == SettingUp(SetupAt(n)) && CanFail(SetupAt(n))
    ensures var held := Held(SetupAt(n)); var s' := Run(s, FailRun(task, n));
      && s'.service == Service(Error, s.service.fields) && |s'.tasks| == |s.tasks|
      && s'.tasks[task] == Failed(held)
      && s'.log == s.log + Releases(task, Reversed(held))
      && MayStart(s'.service)
  {
    hide SetupAt, Reversed, Held, Run, Do, ReleaseSteps, Releases;
    var held := Held(SetupAt(n));
    var failed := Do(s, FailAt(task));
    FailingStep(s, task);
    var releases := ReleaseSteps(task, |held|);
    RunOne(s, FailAt(task));
    RunConcat(s, [FailAt(task)], releases);
    ReleaseRun(failed, task, |held|);
    var released := Run(failed, releases);
    assert Reversed(held)[..|held|] == Reversed(held) && Reversed(held)[|held|..] == [];
    RunConcat(s, [FailAt(task)] + releases, [ReportError(task)]);
    RunOne(released, ReportError(task));
    ReportingStep(released, task);
  }

  lemma FailingStep(s: System, task: nat)
    requires task < |s.tasks| && s.tasks[task].SettingUp? && CanFail(s.tasks[task].next)
    ensures var held, s' := Held(s.tasks[task].next), Do(s, FailAt(task));
      && s'.service == s.service && s'.log == s.log && |s'.tasks| == |s.tasks|
      && s'.tasks[task] == CleaningUp(held, Reversed(held))
  {
    ReleaseCallsReverse(s.tasks[task].next);
  }

  /** The report of a failure, from any state, shows as an error and leaves the fields alone. */
  lemma ReportingStep(s: System, task: nat)
    requires Enabled(s, ReportError(task))
    ensures var s' := Do(s, ReportError(task));
      && s'.service == Service(Error, s.service.fields) && s'.log == s.log && s'.saved == s.saved
      && s'.tasks == s.tasks[task := Failed(s.tasks[task].held)]
  {
  }

  /** A Start whose goroutine fails at step `n` without interference ends in error, the goroutine through. */
  lemma FailedStart(s: System, n: nat)
    requires MayStart(s.service) && n <= 9 && CanFail(SetupAt(n))
    ensures var task := |s.tasks|; var s' := Run(s, [StartCall] + SetupSteps(task, n) + FailRun(task, n));
      && s'.service == Service(Error, s.service.fields)
      && |s'.tasks| == task + 1 && s'.tasks[task] == Failed(Held(SetupAt(n)))
  {
    hide SetupAt, Held, FailRun, SetupSteps, Run, Releases;
    var task := |s.tasks|;
    var started := Do(s, StartCall);
    RunOne(s, StartCall);
    FirstSetupStep();
    RunConcat(s, [StartCall], SetupSteps(task, n));
    SetupRun(started, task, 0, n);
    RunConcat(s, [StartCall] + SetupSteps(task, n), FailRun(task, n));
    FailureIsReported(Run(started, SetupSteps(task, n)), task, n);
  }
}
