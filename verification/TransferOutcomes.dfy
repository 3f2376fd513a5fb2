/** What becomes of each transfer, read off the calls and reports alone. */
module TransferOutcomes {
  import opened Wrappers
  import opened Transfers

  // ---- the fate of an id ----

  /** How many transfers the run has started; their ids count up from one. */
  function Launches(run: seq<Event>): nat {
    if run == [] then 0 else Launches(run[..|run| - 1]) + if run[|run| - 1].Launch? then 1 else 0
  }

  /** The first thing that ends a transfer settles it: a start that fails at once, a cancel, an exit, or the report
      that the process did not start.  What comes later, and what comes for ids not given out, does not count. */
  function Fate(run: seq<Event>, id: int): Phase {
    if run == [] then Running
    else Settled(Fate(run[..|run| - 1], id), id, Launches(run[..|run| - 1]), run[|run| - 1])
  }

  function Settled(fate: Phase, id: int, launches: nat, e: Event): Phase {
    if fate != Running then fate
    else
      match e
      case Launch(_, failsAtOnce) => if id == launches + 1 && failsAtOnce then Failed else Running
      case Cancel(x) => if x == id && 1 <= id <= launches then Cancelled else Running
      case Finished(x, success) =>
        if x == id && 1 <= id <= launches then (if success then Completed else Failed) else Running
      case FailedToStart(x) => if x == id && 1 <= id <= launches then Failed else Running
      case _ => Running
  }

  /** The log has announced the fate of the id, once, or nothing yet. */
  predicate Announces(s: State, id: int, fate: Phase) {
    && Outcomes(s.log, id) == (if fate == Running then [] else [fate])
    && (fate != Running ==> 1 <= id < s.nextId)
  }

  lemma SettledLog(s: State, row: nat, phase: Phase, id: int)
    requires row < |s.transfers|
    ensures Outcomes(Settle(s, row, phase).log, id)
         == Outcomes(s.log, id) + if id == s.transfers[row].id then [phase] else []
  {
    var ended := Ended(s.transfers[row].id, phase);
    OutcomesOneMore(s.log, ended, id);
    CountedLog(s.(transfers := WithPhase(s.transfers, row, phase), log := s.log + [ended]),
               ActiveCount(s.transfers), id);
  }

  lemma ListedWhileRunning(s: State, id: int, fate: Phase, heard: set<int>)
    requires Inv(s, heard) && Announces(s, id, fate)
    ensures fate == Running && 1 <= id < s.nextId <==>
            Row(s.transfers, id) >= 0 && s.transfers[Row(s.transfers, id)].phase.Active()
    ensures Row(s.transfers, id) >= 0 && s.transfers[Row(s.transfers, id)].phase.Active() ==> Outcomes(s.log, id) == []
  {
    assert Books(s, id, heard);
  }

  lemma LaunchAnnounces(s: State, isUpload: bool, failsAtOnce: bool, id: int)
    ensures Outcomes(Launched(s, isUpload, failsAtOnce).log, id)
         == Outcomes(s.log, id) + if failsAtOnce && id == s.nextId then [Failed] else []
  {
    hide Settle, Outcomes, ActiveCount;
    var added, row := Added(s, isUpload), |s.transfers|;
    if failsAtOnce { SettledLog(added, row, Failed, id); }
    var started := if failsAtOnce then Settle(added, row, Failed) else added;
    OutcomesOneMore(started.log, Started(s.nextId), id);
    CountedLog(started.(log := started.log + [Started(s.nextId)]), ActiveCount(s.transfers), id);
  }

  lemma ReportAnnounces(s: State, x: int, phase: Phase, id: int, fate: Phase, heard: set<int>)
    requires Inv(s, heard) && !HasReported(s, x) && Announces(s, id, fate)
    ensures Outcomes(Reported(s, x, phase).log, id)
         == Outcomes(s.log, id) + if fate == Running && x == id && 1 <= id < s.nextId then [phase] else []
  {
    hide Settle, Outcomes, Numbered, Books;
    ListedWhileRunning(s, id, fate, heard);
    var row := Row(s.transfers, x);
    if row >= 0 {
      SettledLog(s, row, phase, id);
    }
  }

  lemma CancelAnnounces(s: State, x: int, id: int, fate: Phase, heard: set<int>)
    requires Inv(s, heard) && Announces(s, id, fate)
    ensures Outcomes(Step(s, Cancel(x)).log, id)
         == Outcomes(s.log, id) + if fate == Running && x == id && 1 <= id < s.nextId then [Cancelled] else []
  {
    hide Settle, Outcomes, Numbered, Books;
    ListedWhileRunning(s, id, fate, heard);
    var row := Row(s.transfers, x);
    if row >= 0 {
      SettledLog(s, row, Cancelled, id);
    }
  }

  lemma StepAnnounces(s: State, e: Event, id: int, fate: Phase, heard: set<int>)
    requires Inv(s, heard) && !Overwrites(s, e) && Announces(s, id, fate)
    ensures Announces(Step(s, e), id, Settled(fate, id, s.nextId - 1, e))
  {
    StepGivesOut(s, e);
    OutcomesOneMore(s.log, CountChanged, id);
    assert s.nextId >= 1;
    hide Inv, Outcomes, Settle, GivenOut, KeepLast, Row;
    match e
    case Launch(isUpload, failsAtOnce) => LaunchAnnounces(s, isUpload, failsAtOnce, id);
    case Cancel(x) => CancelAnnounces(s, x, id, fate, heard);
    case Finished(x, ok) => ReportAnnounces(s, x, if ok then Completed else Failed, id, fate, heard);
    case FailedToStart(x) => ReportAnnounces(s, x, Failed, id, fate, heard);
    case _ =>
  }

  lemma {:induction false} NextIdCounts(run: seq<Event>)
    ensures After(run).nextId == Launches(run) + 1
  {
    if run != [] {
      NextIdCounts(run[..|run| - 1]);
      StepGivesOut(After(run[..|run| - 1]), run[|run| - 1]);
    }
  }

  /** Whatever the order of calls and reports: what is announced of an id, listed still or not, is its fate. */
  lemma {:induction false} FateIsAnnounced(run: seq<Event>, id: int)
    requires NeverOverwrites(run)
    ensures Announces(After(run), id, Fate(run, id))
  {
    if run != [] {
      var front, e := run[..|run| - 1], run[|run| - 1];
      RunKeepsInv(front);
      NextIdCounts(front);
      FateIsAnnounced(front, id);
      hide Inv, Outcomes, Step, Announces;
      StepAnnounces(After(front), e, id, Fate(front, id), Heard(front));
    }
  }

  /** A listed transfer shows its fate, and is active for as long as nothing has ended it. */
  lemma FateIsShown(run: seq<Event>, id: int)
    requires NeverOverwrites(run) && Lookup(After(run).transfers, id).Some?
    ensures var phase := Lookup(After(run).transfers, id).value.phase;
      if Fate(run, id) == Running then phase.Active() else phase == Fate(run, id)
  {
    FateIsAnnounced(run, id);
    RunKeepsInv(run);
    assert Books(After(run), id, Heard(run));
  }

  // ---- the list ----

  /** A start appends one transfer under the next id, running, or failed if its process failed at once. */
  lemma LaunchAppends(s: State, isUpload: bool, failsAtOnce: bool)
    ensures var t := Step(s, Launch(isUpload, failsAtOnce));
      && t.transfers == s.transfers + [Transfer(s.nextId, isUpload, if failsAtOnce then Failed else Running)]
      && t.nextId == s.nextId + 1
  {
    hide Settle, Launched, GivenOut;
    LaunchedTransfers(s, isUpload, failsAtOnce);
    StepGivesOut(s, Launch(isUpload, failsAtOnce));
    SettledTransfers(Added(s, isUpload), |s.transfers|, Failed);
  }

  lemma SettledTransfers(s: State, row: nat, phase: Phase)
    requires row < |s.transfers|
    ensures Settle(s, row, phase).transfers == s.transfers[row := s.transfers[row].(phase := phase)]
  {
  }

  /** A removal takes exactly one transfer off the list, if it has ended; otherwise it does nothing. */
  lemma RemoveTakesOff(run: seq<Event>, id: int, other: int)
    ensures var before, after := After(run).transfers, After(run + [Remove(id)]).transfers;
      && Lookup(after, other)
         == (if other == id && Lookup(before, id).Some? && !Lookup(before, id).value.phase.Active() then None
             else Lookup(before, other))
  {
    RunIsNumbered(run);
    assert (run + [Remove(id)])[..|run|] == run;
    var ts := After(run).transfers;
    var row := Row(ts, id);
    if row >= 0 && !ts[row].phase.Active() {
      LookupRemoved(ts, row, other);
    }
  }

  /** A purge keeps every active transfer and the newest fifty of the others, in order. */
  lemma PurgeKeepsFifty(s: State)
    ensures var ended := Select(s.transfers, false); var kept := Step(s, Purge).transfers;
      && Select(kept, true) == Select(s.transfers, true)
      && Select(kept, false) == (if |ended| <= 50 then ended else ended[|ended| - 50..])
      && |kept| == |Select(kept, true)| + |Select(kept, false)|
  {
    PurgeKeepsTheNewest(s.transfers, 50);
    KeepAllOrFewer(s.transfers, 50);
    SelectedBoth(Step(s, Purge).transfers);
  }

  lemma {:induction false} SelectedBoth(ts: seq<Transfer>)
    ensures |ts| == |Select(ts, true)| + |Select(ts, false)|
  {
    if ts != [] {
      SelectedBoth(ts[..|ts| - 1]);
    }
  }
}
