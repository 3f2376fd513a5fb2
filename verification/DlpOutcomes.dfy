/** What single calls of the app manager do, said of the lists before and after. */
module DlpOutcomes {
  import opened Wrappers
  import opened DlpManager

  function CountChanges(log: seq<Signal>): nat {
    if log == [] then 0
    else CountChanges(log[..|log| - 1]) + if log[|log| - 1] == AppCountChanged then 1 else 0
  }

  /** A launch that does not go through lists nothing, reports an error, and leaves no new compositor alive. */
  lemma FailedLaunch(s: State, available: bool, creates: bool, pid: int, name: string, command: string)
    requires !available || !creates || pid < 0
    ensures var t := Step(s, Launch(available, creates, pid, name, command));
      && t.apps == s.apps && t.entries == s.entries && t.log == s.log + [ErrorOccurred]
      && |s.created| <= |t.created| <= |s.created| + 1 && t.created[..|s.created|] == s.created
      && (|t.created| > |s.created| ==> t.created[|s.created|].destroyed == 1)
  {
  }

  /** A launch that goes through lists one more app, under its command if it has no name, on a new compositor. */
  lemma SuccessfulLaunch(s: State, pid: int, name: string, command: string)
    requires pid >= 0
    ensures var t := Step(s, Launch(true, true, pid, name, command));
      var shown := if |name| > 0 then name else command;
      && t.apps == s.apps + [App(pid, shown, command, |s.created|, false)]
      && t.entries == s.entries + [Entry(pid, shown, command)]
      && |t.created| == |s.created| + 1 && t.created[..|s.created|] == s.created
      && t.created[|s.created|].destroyed == 0
  {
  }

  lemma {:induction false} FirstWithPid(apps: seq<App>, pid: int)
    ensures var i := IndexOfPid(apps, pid);
      if i < 0 then forall k | 0 <= k < |apps| :: apps[k].pid != pid
      else apps[i].pid == pid && forall k | 0 <= k < i :: apps[k].pid != pid
  {
    if apps != [] {
      FirstWithPid(apps[..|apps| - 1], pid);
    }
  }

  /** Stopping a pid takes the first app that has it off the list and destroys its compositor; a pid that no app has
      changes nothing. */
  lemma StopTakesTheFirst(s: State, i: nat, pid: int)
    requires i < |s.apps| && s.apps[i].pid == pid && forall k | 0 <= k < i :: s.apps[k].pid != pid
    requires s.apps[i].compositor < |s.created|
    ensures var t := Step(s, StopApp(pid)); var c := s.apps[i].compositor;
      && t.apps == s.apps[..i] + s.apps[i + 1..]
      && t.created == s.created[c := s.created[c].(destroyed := s.created[c].destroyed + 1)]
  {
    FirstWithPid(s.apps, pid);
  }

  lemma StopOfAnUnknownPid(s: State, pid: int)
    requires forall k | 0 <= k < |s.apps| :: s.apps[k].pid != pid
    ensures Step(s, StopApp(pid)) == s
  {
    FirstWithPid(s.apps, pid);
  }

  lemma {:induction false} ChangesConcat(a: seq<Signal>, b: seq<Signal>)
    ensures CountChanges(a + b) == CountChanges(a) + CountChanges(b)
    decreases |b|
  {
    if b == [] {
      assert a + b == a;
    } else {
      assert (a + b)[..|a + b| - 1] == a + b[..|b| - 1];
      ChangesConcat(a, b[..|b| - 1]);
    }
  }

  lemma OneChange(log: seq<Signal>)
    ensures CountChanges(log + [AppCountChanged]) == CountChanges(log) + 1
    ensures CountChanges(log + [AppCountChanged, RunningChanged]) == CountChanges(log) + 1
    ensures CountChanges(log + [ErrorOccurred]) == CountChanges(log)
  {
    assert [AppCountChanged, RunningChanged][..1] == [AppCountChanged];
    assert [AppCountChanged][..0] == [] && [ErrorOccurred][..0] == [];
    ChangesConcat(log, [AppCountChanged]);
    ChangesConcat(log, [AppCountChanged, RunningChanged]);
    ChangesConcat(log, [ErrorOccurred]);
  }

  /** A check announces the count once for each app that it takes off the list. */
  lemma {:induction false} CheckAnnounces(s: State, n: nat, findings: seq<Finding>)
    requires n <= |s.apps|
    ensures var t := CheckDown(s, n, findings);
      |t.apps| <= |s.apps| && CountChanges(t.log) == CountChanges(s.log) + (|s.apps| - |t.apps|)
    decreases n
  {
    hide CountChanges;
    if n > 0 {
      OneChange(s.log);
      CheckAnnounces(Swept(s, n - 1, findings), n - 1, findings);
    }
  }

  /** The count is announced by exactly the calls that change it. */
  lemma CountIsAnnouncedIff(s: State, e: Event)
    ensures CountChanges(Step(s, e).log) > CountChanges(s.log) <==> |Step(s, e).apps| != |s.apps|
    ensures CountChanges(Step(s, e).log) >= CountChanges(s.log)
  {
    hide CountChanges;
    OneChange(s.log);
    assert s.log + [] == s.log;
    if e.Check? {
      CheckAnnounces(s, |s.apps|, e.findings);
    }
  }
}
