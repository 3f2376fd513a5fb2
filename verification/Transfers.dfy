/** The file transfer list: scp processes report in any order, users cancel, finished entries are
    removed and purged.  Proved over every run: what becomes of each transfer id. */
module Transfers {
  import opened Wrappers
  import opened Sequences

  datatype Phase = Queued | Running | Completed | Failed | Cancelled {
    predicate Active() { Queued? || Running? }
  }

  datatype Transfer = Transfer(id: int, isUpload: bool, phase: Phase)

  datatype Signal = Started(id: int) | Ended(id: int, outcome: Phase) | CountChanged

  datatype State = State(transfers: seq<Transfer>, nextId: int, log: seq<Signal>)

  /** Finished and FailedToStart are reports of the scp process; `failsAtOnce` is a start whose failure
      is reported before the call that started it returns. */
  datatype Event =
    | Launch(isUpload: bool, failsAtOnce: bool)
    | Cancel(id: int)
    | Finished(id: int, success: bool)
    | FailedToStart(id: int)
    | Remove(id: int)
    | Purge

  const MAX_FINISHED := 50

  // ---- the list ----

  /** The first transfer with this id. */
  function Lookup(ts: seq<Transfer>, id: int): (t: Option<Transfer>)
    ensures t.Some? ==> t.value.id == id
  {
    if ts == [] then None
    else if Lookup(ts[..|ts| - 1], id).Some? then Lookup(ts[..|ts| - 1], id)
    else if ts[|ts| - 1].id == id then Some(ts[|ts| - 1]) else None
  }

  /** Its row, or -1. */
  function Row(ts: seq<Transfer>, id: int): (row: int)
    ensures -1 <= row < |ts|
    ensures Lookup(ts, id) == if row < 0 then None else Some(ts[row])
  {
    if ts == [] then -1
    else if Row(ts[..|ts| - 1], id) >= 0 then Row(ts[..|ts| - 1], id)
    else if ts[|ts| - 1].id == id then |ts| - 1 else -1
  }

  function ActiveCount(ts: seq<Transfer>): nat {
    if ts == [] then 0
    else ActiveCount(ts[..|ts| - 1]) + if ts[|ts| - 1].phase.Active() then 1 else 0
  }

  predicate Increasing(ts: seq<Transfer>) {
    forall i, j | 0 <= i < j < |ts| :: ts[i].id < ts[j].id
  }

  function WithPhase(ts: seq<Transfer>, row: nat, phase: Phase): seq<Transfer>
    requires row < |ts|
  {
    ts[row := ts[row].(phase := phase)]
  }

  function Without(ts: seq<Transfer>, row: nat): seq<Transfer>
    requires row < |ts|
  {
    ts[..row] + ts[row + 1..]
  }

  /** The active transfers, and the newest `keep` of the others, in order. */
  function KeepLast(ts: seq<Transfer>, keep: nat): seq<Transfer> {
    if ts == [] then []
    else
      var front, last := ts[..|ts| - 1], ts[|ts| - 1];
      if last.phase.Active() then KeepLast(front, keep) + [last]
      else if keep > 0 then KeepLast(front, keep - 1) + [last]
      else KeepLast(front, 0)
  }

  // ---- one step ----

  function Counted(s: State, activeBefore: nat): State {
    if ActiveCount(s.transfers) != activeBefore then s.(log := s.log + [CountChanged]) else s
  }

  function Settle(s: State, row: nat, phase: Phase): State
    requires row < |s.transfers|
  {
    Counted(s.(transfers := WithPhase(s.transfers, row, phase),
               log := s.log + [Ended(s.transfers[row].id, phase)]),
            ActiveCount(s.transfers))
  }

  function Launched(s: State, isUpload: bool, failsAtOnce: bool): State {
    var id := s.nextId;
    var queued := State(s.transfers + [Transfer(id, isUpload, Running)], id + 1, s.log);
    var started := if failsAtOnce then Settle(queued, |s.transfers|, Failed) else queued;
    Counted(started.(log := started.log + [Started(id)]), ActiveCount(s.transfers))
  }

  /** The process of a listed transfer has already reported how it ended. */
  predicate HasReported(s: State, id: int) {
    var row := Row(s.transfers, id);
    row >= 0 && (s.transfers[row].phase.Completed? || s.transfers[row].phase.Failed?)
  }

  /** A report is only refused by a cancelled transfer. */
  function Reported(s: State, id: int, phase: Phase): State {
    var row := Row(s.transfers, id);
    if row < 0 || s.transfers[row].phase.Cancelled? then s else Settle(s, row, phase)
  }

  function Step(s: State, e: Event): State {
    match e
    case Launch(isUpload, failsAtOnce) => Launched(s, isUpload, failsAtOnce)
    case Cancel(id) =>
      var row := Row(s.transfers, id);
      if row < 0 || !s.transfers[row].phase.Active() then s else Settle(s, row, Cancelled)
    case Finished(id, success) => Reported(s, id, if success then Completed else Failed)
    case FailedToStart(id) => Reported(s, id, Failed)
    case Remove(id) =>
      var row := Row(s.transfers, id);
      if row < 0 || s.transfers[row].phase.Active() then s
      else s.(transfers := Without(s.transfers, row), log := s.log + [CountChanged])
    case Purge =>
      var kept := KeepLast(s.transfers, MAX_FINISHED);
      if |kept| == |s.transfers| then s
      else s.(transfers := kept, log := s.log + [CountChanged])
  }

  function After(run: seq<Event>): State {
    if run == [] then State([], 1, [])
    else Step(After(run[..|run| - 1]), run[|run| - 1])
  }

  // ---- the purge loop ----

  function FinishedCount(ts: seq<Transfer>): nat {
    if ts == [] then 0
    else FinishedCount(ts[..|ts| - 1]) + if ts[|ts| - 1].phase.Active() then 0 else 1
  }

  /** The transfers without the first `drop` finished ones. */
  function DropOldest(ts: seq<Transfer>, drop: nat): seq<Transfer> {
    if ts == [] || drop == 0 then ts
    else if ts[0].phase.Active() then [ts[0]] + DropOldest(ts[1..], drop)
    else DropOldest(ts[1..], drop - 1)
  }

  lemma {:induction false} FinishedCountFront(ts: seq<Transfer>)
    requires ts != []
    ensures FinishedCount(ts) == FinishedCount(ts[1..]) + if ts[0].phase.Active() then 0 else 1
  {
    if |ts| > 1 {
      FinishedCountFront(ts[..|ts| - 1]);
      assert ts[1..][..|ts| - 2] == ts[..|ts| - 1][1..];
    } else {
      assert ts[1..] == [] && ts[..0] == [];
    }
  }

  lemma KeepLastBack(front: seq<Transfer>, last: Transfer, keep: nat)
    ensures KeepLast(front + [last], keep)
         == if last.phase.Active() then KeepLast(front, keep) + [last]
            else if keep > 0 then KeepLast(front, keep - 1) + [last]
            else KeepLast(front, 0) + []
    ensures FinishedCount(front + [last]) == FinishedCount(front) + if last.phase.Active() then 0 else 1
  {
    assert (front + [last])[..|front|] == front;
  }

  /** Keeping the newest from the back is what dropping the oldest from the front leaves. */
  lemma {:induction false} KeepLastFront(ts: seq<Transfer>, keep: nat)
    requires ts != []
    ensures KeepLast(ts, keep)
         == (if ts[0].phase.Active() || FinishedCount(ts) <= keep then [ts[0]] else [])
          + KeepLast(ts[1..], keep)
  {
    var last := |ts| - 1;
    if last > 0 {
      hide KeepLast, FinishedCount;
      var front, back := ts[..last], ts[last];
      var k := if back.phase.Active() || keep == 0 then keep else keep - 1;
      var first := if ts[0].phase.Active() || FinishedCount(front) <= k then [ts[0]] else [];
      assert ts == front + [back] && ts[1..] == front[1..] + [back];
      FinishedCountFront(front);
      KeepLastFront(front, k);
      KeepLastBack(front, back, keep);
      KeepLastBack(front[1..], back, keep);
      Regroup(first, KeepLast(front[1..], k), if back.phase.Active() || keep > 0 then [back] else []);
    } else {
      assert ts[1..] == [] && ts[..0] == [];
    }
  }

  lemma {:induction false} DropIsKeep(ts: seq<Transfer>, drop: nat, keep: nat)
    requires FinishedCount(ts) == drop + keep
    ensures DropOldest(ts, drop) == KeepLast(ts, keep)
  {
    if ts != [] {
      KeepLastFront(ts, keep);
      FinishedCountFront(ts);
      if drop == 0 {
        KeepAll(ts, keep);
      } else if ts[0].phase.Active() {
        DropIsKeep(ts[1..], drop, keep);
      } else {
        DropIsKeep(ts[1..], drop - 1, keep);
      }
    }
  }

  lemma {:induction false} KeepAll(ts: seq<Transfer>, keep: nat)
    ensures FinishedCount(ts) <= keep ==> KeepLast(ts, keep) == ts
    ensures FinishedCount(ts) > keep ==> |KeepLast(ts, keep)| < |ts|
    ensures |KeepLast(ts, keep)| <= |ts|
  {
    if ts != [] {
      var front, last := ts[..|ts| - 1], ts[|ts| - 1];
      assert ts == front + [last];
      KeepAll(front, keep);
      if keep > 0 { KeepAll(front, keep - 1); }
    }
  }

  // ---- what has been reported of each id ----

  /** The outcomes announced for an id, oldest first. */
  function Outcomes(log: seq<Signal>, id: int): seq<Phase> {
    if log == [] then []
    else
      var before := Outcomes(log[..|log| - 1], id);
      match log[|log| - 1]
      case Ended(who, outcome) => if who == id then before + [outcome] else before
      case _ => before
  }

  lemma OutcomesOneMore(log: seq<Signal>, signal: Signal, id: int)
    ensures Outcomes(log + [signal], id)
         == Outcomes(log, id) + if signal.Ended? && signal.id == id then [signal.outcome] else []
  {
    assert (log + [signal])[..|log|] == log;
  }

  ghost predicate Numbered(ts: seq<Transfer>, nextId: int) {
    && nextId >= 1
    && Increasing(ts)
    && forall i | 0 <= i < |ts| :: 1 <= ts[i].id < nextId
  }

  /** The books on one id: a listed transfer is active and unreported, or has ended and was reported
      once, as it ended; an id no longer listed was reported once, one not yet given out never.  Only
      processes that have reported for good leave a transfer completed or failed. */
  ghost predicate Books(s: State, id: int, heard: set<int>) {
    match Lookup(s.transfers, id)
    case None => |Outcomes(s.log, id)| == if 1 <= id < s.nextId then 1 else 0
    case Some(t) =>
      && Outcomes(s.log, id) == (if t.phase.Active() then [] else [t.phase])
      && (t.phase.Completed? || t.phase.Failed? ==> id in heard)
  }

  ghost predicate Inv(s: State, heard: set<int>) {
    && Numbered(s.transfers, s.nextId)
    && forall id :: Books(s, id, heard)
  }

  lemma {:induction false} LookupUpdated(ts: seq<Transfer>, row: nat, phase: Phase, id: int)
    requires Increasing(ts) && row < |ts|
    ensures Lookup(WithPhase(ts, row, phase), id)
         == if id == ts[row].id then Some(ts[row].(phase := phase)) else Lookup(ts, id)
  {
    var last := |ts| - 1;
    var now := WithPhase(ts, row, phase);
    if row < last {
      LookupUpdated(ts[..last], row, phase, id);
      assert now[..last] == WithPhase(ts[..last], row, phase);
    } else {
      assert now[..last] == ts[..last];
      LookupFinds(ts[..last], ts[last].id);
    }
  }

  lemma {:induction false} LookupFinds(ts: seq<Transfer>, id: int)
    ensures Lookup(ts, id).Some? ==> exists i :: 0 <= i < |ts| && ts[i] == Lookup(ts, id).value
    ensures Lookup(ts, id).None? ==> forall i | 0 <= i < |ts| :: ts[i].id != id
  {
    if ts != [] {
      var front := ts[..|ts| - 1];
      LookupFinds(front, id);
      if Lookup(front, id).Some? {
        var i :| 0 <= i < |front| && front[i] == Lookup(front, id).value;
        assert ts[i] == front[i];
      } else {
        assert forall i | 0 <= i < |front| :: ts[i] == front[i];
      }
    }
  }

  lemma CountedBooks(s: State, activeBefore: nat, id: int, heard: set<int>)
    requires Books(s, id, heard)
    ensures Books(Counted(s, activeBefore), id, heard)
  {
    OutcomesOneMore(s.log, CountChanged, id);
  }

  lemma SettleBooks(s: State, row: nat, phase: Phase, id: int, heard: set<int>)
    requires Increasing(s.transfers) && row < |s.transfers| && Books(s, id, heard)
    requires s.transfers[row].phase.Active() && !phase.Active()
    requires s.transfers[row].id in heard || phase.Cancelled?
    requires Lookup(s.transfers, s.transfers[row].id) == Some(s.transfers[row])
    ensures Books(Settle(s, row, phase), id, heard)
  {
    var ended := Ended(s.transfers[row].id, phase);
    LookupUpdated(s.transfers, row, phase, id);
    OutcomesOneMore(s.log, ended, id);
    CountedBooks(State(WithPhase(s.transfers, row, phase), s.nextId, s.log + [ended]),
                 ActiveCount(s.transfers), id, heard);
  }

  lemma SettleKeeps(s: State, row: nat, phase: Phase, heard: set<int>)
    requires Inv(s, heard) && row < |s.transfers|
    requires s.transfers[row].phase.Active() && !phase.Active()
    requires s.transfers[row].id in heard || phase.Cancelled?
    requires Lookup(s.transfers, s.transfers[row].id) == Some(s.transfers[row])
    ensures Inv(Settle(s, row, phase), heard)
  {
    forall id ensures Books(Settle(s, row, phase), id, heard) {
      SettleBooks(s, row, phase, id, heard);
    }
  }

  lemma LookupAppended(ts: seq<Transfer>, t: Transfer, id: int)
    ensures Lookup(ts + [t], id)
         == if Lookup(ts, id).None? && id == t.id then Some(t) else Lookup(ts, id)
  {
    assert (ts + [t])[..|ts|] == ts;
  }

  /** The new row, before its process is started. */
  function Added(s: State, isUpload: bool): State {
    State(s.transfers + [Transfer(s.nextId, isUpload, Running)], s.nextId + 1, s.log)
  }

  lemma AddedKeeps(s: State, isUpload: bool, heard: set<int>)
    requires Inv(s, heard)
    ensures Inv(Added(s, isUpload), heard)
    ensures Lookup(s.transfers, s.nextId).None?
  {
    var t := Transfer(s.nextId, isUpload, Running);
    LookupFinds(s.transfers, s.nextId);
    forall id ensures Books(Added(s, isUpload), id, heard) {
      LookupAppended(s.transfers, t, id);
      assert Books(s, id, heard);
    }
  }

  lemma AnnouncedKeeps(s: State, id: int, activeBefore: nat, heard: set<int>)
    requires Inv(s, heard)
    ensures Inv(Counted(s.(log := s.log + [Started(id)]), activeBefore), heard)
  {
    var t := s.(log := s.log + [Started(id)]);
    forall x ensures Books(Counted(t, activeBefore), x, heard) {
      assert Books(s, x, heard);
      OutcomesOneMore(s.log, Started(id), x);
      CountedBooks(t, activeBefore, x, heard);
    }
  }

  lemma HeardMore(s: State, heard: set<int>, more: set<int>)
    requires Inv(s, heard) && heard <= more
    ensures Inv(s, more)
  {
    forall id ensures Books(s, id, more) { assert Books(s, id, heard); }
  }

  lemma LaunchKeeps(s: State, isUpload: bool, failsAtOnce: bool, heard: set<int>)
    requires Inv(s, heard)
    ensures Inv(Launched(s, isUpload, failsAtOnce), heard + if failsAtOnce then {s.nextId} else {})
  {
    var known := heard + if failsAtOnce then {s.nextId} else {};
    var added := Added(s, isUpload);
    var row := |s.transfers|;
    AddedKeeps(s, isUpload, heard);
    HeardMore(added, heard, known);
    LookupAppended(s.transfers, added.transfers[row], s.nextId);
    if failsAtOnce {
      SettleKeeps(added, row, Failed, known);
      AnnouncedKeeps(Settle(added, row, Failed), s.nextId, ActiveCount(s.transfers), known);
    } else {
      AnnouncedKeeps(added, s.nextId, ActiveCount(s.transfers), known);
    }
  }

  lemma ReportKeeps(s: State, id: int, phase: Phase, heard: set<int>)
    requires Inv(s, heard) && !HasReported(s, id) && (phase.Completed? || phase.Failed?)
    ensures Inv(Reported(s, id, phase), heard + {id})
  {
    var row := Row(s.transfers, id);
    HeardMore(s, heard, heard + {id});
    if row >= 0 && !s.transfers[row].phase.Cancelled? {
      SettleKeeps(s, row, phase, heard + {id});
    }
  }

  // ---- taking transfers off the list ----

  /** What dropping rows may do to one id: nothing, or unlist it if it has ended. */
  predicate SameOrGone(before: Option<Transfer>, now: Option<Transfer>) {
    now == before || (now.None? && before.Some? && !before.value.phase.Active())
  }

  lemma DroppingKeeps(s: State, kept: seq<Transfer>, heard: set<int>)
    requires Inv(s, heard) && Numbered(kept, s.nextId)
    requires forall id :: SameOrGone(Lookup(s.transfers, id), Lookup(kept, id))
    ensures Inv(s.(transfers := kept, log := s.log + [CountChanged]), heard)
  {
    var t := s.(transfers := kept, log := s.log + [CountChanged]);
    forall id ensures Books(t, id, heard) {
      assert Books(s, id, heard) && SameOrGone(Lookup(s.transfers, id), Lookup(kept, id));
      OutcomesOneMore(s.log, CountChanged, id);
      LookupFinds(s.transfers, id);
    }
  }

  lemma {:induction false} KeepLastNumbered(ts: seq<Transfer>, keep: nat, nextId: int)
    requires Numbered(ts, nextId)
    ensures Numbered(KeepLast(ts, keep), nextId)
    ensures ts != [] ==> Numbered(KeepLast(ts, keep), ts[|ts| - 1].id + 1)
  {
    if ts != [] {
      var front, last := ts[..|ts| - 1], ts[|ts| - 1];
      var k := if last.phase.Active() || keep == 0 then keep else keep - 1;
      assert Numbered(front, last.id);
      hide Numbered;
      KeepLastNumbered(front, k, last.id);
      NumberedOneMore(KeepLast(front, k), last, nextId);
    }
  }

  lemma NumberedOneMore(ts: seq<Transfer>, t: Transfer, nextId: int)
    requires Numbered(ts, t.id) && t.id < nextId
    ensures Numbered(ts, nextId) && Numbered(ts, t.id + 1)
    ensures Numbered(ts + [t], nextId) && Numbered(ts + [t], t.id + 1)
  {
  }

  lemma {:induction false} LookupKept(ts: seq<Transfer>, keep: nat, id: int)
    requires Increasing(ts)
    ensures SameOrGone(Lookup(ts, id), Lookup(KeepLast(ts, keep), id))
  {
    if ts != [] {
      var front, last := ts[..|ts| - 1], ts[|ts| - 1];
      LookupFinds(front, last.id);
      var k := if last.phase.Active() || keep == 0 then keep else keep - 1;
      LookupKept(front, k, id);
      LookupAppended(KeepLast(front, k), last, id);
    }
  }

  lemma WithoutFront(ts: seq<Transfer>, row: nat)
    requires row < |ts|
    ensures var last := |ts| - 1;
      Without(ts, row) == if row == last then ts[..last] else Without(ts[..last], row) + [ts[last]]
  {
  }

  lemma {:induction false} LookupRemoved(ts: seq<Transfer>, row: nat, id: int)
    requires Increasing(ts) && row < |ts|
    ensures Lookup(Without(ts, row), id) == if id == ts[row].id then None else Lookup(ts, id)
  {
    var last := |ts| - 1;
    WithoutFront(ts, row);
    if row == last {
      LookupFinds(ts[..last], ts[last].id);
    } else {
      LookupRemoved(ts[..last], row, id);
      LookupAppended(Without(ts[..last], row), ts[last], id);
    }
  }

  lemma RemovedNumbered(ts: seq<Transfer>, row: nat, nextId: int)
    requires Numbered(ts, nextId) && row < |ts|
    ensures Numbered(Without(ts, row), nextId)
  {
  }

  // ---- every run ----

  /** The processes this step hears from for the last time. */
  function Hears(s: State, e: Event): set<int> {
    match e
    case Launch(_, failsAtOnce) => if failsAtOnce then {s.nextId} else {}
    case Finished(id, _) => {id}
    case FailedToStart(id) => {id}
    case _ => {}
  }

  lemma RemoveKeeps(s: State, id: int, heard: set<int>)
    requires Inv(s, heard)
    ensures Inv(Step(s, Remove(id)), heard)
  {
    var ts, row := s.transfers, Row(s.transfers, id);
    if row >= 0 && !ts[row].phase.Active() {
      forall x ensures SameOrGone(Lookup(ts, x), Lookup(Without(ts, row), x)) {
        LookupRemoved(ts, row, x);
      }
      RemovedNumbered(ts, row, s.nextId);
      DroppingKeeps(s, Without(ts, row), heard);
    }
  }

  lemma PurgeKeeps(s: State, heard: set<int>)
    requires Inv(s, heard)
    ensures Inv(Step(s, Purge), heard)
  {
    var kept := KeepLast(s.transfers, MAX_FINISHED);
    KeepLastNumbered(s.transfers, MAX_FINISHED, s.nextId);
    forall x ensures SameOrGone(Lookup(s.transfers, x), Lookup(kept, x)) {
      LookupKept(s.transfers, MAX_FINISHED, x);
    }
    DroppingKeeps(s, kept, heard);
  }

  lemma StepKeepsInv(s: State, e: Event, heard: set<int>)
    requires Inv(s, heard)
    requires !Overwrites(s, e)
    ensures Inv(Step(s, e), heard + Hears(s, e))
  {
    match e
    case Launch(isUpload, failsAtOnce) => LaunchKeeps(s, isUpload, failsAtOnce, heard);
    case Cancel(id) =>
      var row := Row(s.transfers, id);
      if row >= 0 && s.transfers[row].phase.Active() { SettleKeeps(s, row, Cancelled, heard); }
      HeardMore(Step(s, e), heard, heard + {});
    case Finished(id, success) => ReportKeeps(s, id, if success then Completed else Failed, heard);
    case FailedToStart(id) => ReportKeeps(s, id, Failed, heard);
    case Remove(id) =>
      RemoveKeeps(s, id, heard);
      HeardMore(Step(s, e), heard, heard + {});
    case Purge =>
      PurgeKeeps(s, heard);
      HeardMore(Step(s, e), heard, heard + {});
  }

  function Heard(run: seq<Event>): set<int> {
    if run == [] then {}
    else Heard(run[..|run| - 1]) + Hears(After(run[..|run| - 1]), run[|run| - 1])
  }

  /** No process reports twice: it finishes at most once, and never after failing to start. */
  ghost predicate Legal(run: seq<Event>) {
    run != [] ==>
      var front, e := run[..|run| - 1], run[|run| - 1];
      Legal(front) && (e.Finished? || e.FailedToStart? ==> e.id !in Heard(front))
  }

  /** The event is a report about a listed transfer that is completed or failed already. */
  predicate Overwrites(s: State, e: Event) {
    (e.Finished? || e.FailedToStart?) && HasReported(s, e.id)
  }

  predicate NeverOverwrites(run: seq<Event>) {
    run != [] ==>
      NeverOverwrites(run[..|run| - 1]) && !Overwrites(After(run[..|run| - 1]), run[|run| - 1])
  }

  lemma {:induction false} RunKeepsInv(run: seq<Event>)
    requires NeverOverwrites(run)
    ensures Inv(After(run), Heard(run))
  {
    if run != [] {
      var front := run[..|run| - 1];
      RunKeepsInv(front);
      StepKeepsInv(After(front), run[|run| - 1], Heard(front));
    }
  }

  /** Processes that report once overwrite nothing. */
  lemma {:induction false} LegalNeverOverwrites(run: seq<Event>)
    requires Legal(run)
    ensures NeverOverwrites(run)
  {
    if run != [] {
      var front, e := run[..|run| - 1], run[|run| - 1];
      LegalNeverOverwrites(front);
      RunKeepsInv(front);
      if e.Finished? || e.FailedToStart? {
        assert Books(After(front), e.id, Heard(front));
      }
    }
  }

  /** Ids strictly increase down the list, and each is announced ended at most once: completed, failed
      or cancelled, never two of them; an ended transfer shows what was announced. */
  lemma EachTransferEndsOnce(run: seq<Event>, id: int)
    requires Legal(run)
    ensures Increasing(After(run).transfers)
    ensures |Outcomes(After(run).log, id)| <= 1
    ensures Lookup(After(run).transfers, id).Some? ==>
      var phase := Lookup(After(run).transfers, id).value.phase;
      Outcomes(After(run).log, id) == if phase.Active() then [] else [phase]
  {
    LegalNeverOverwrites(run);
    RunKeepsInv(run);
    assert Books(After(run), id, Heard(run));
  }

  lemma CountedLog(s: State, activeBefore: nat, id: int)
    ensures Outcomes(Counted(s, activeBefore).log, id) == Outcomes(s.log, id)
  {
    OutcomesOneMore(s.log, CountChanged, id);
  }

  lemma SettleLog(s: State, row: nat, phase: Phase, id: int)
    requires row < |s.transfers|
    ensures Outcomes(s.log, id) <= Outcomes(Settle(s, row, phase).log, id)
  {
    OutcomesOneMore(s.log, Ended(s.transfers[row].id, phase), id);
    CountedLog(s.(transfers := WithPhase(s.transfers, row, phase),
                  log := s.log + [Ended(s.transfers[row].id, phase)]), ActiveCount(s.transfers), id);
  }

  /** What has been announced stays announced. */
  lemma StepAddsToTheLog(s: State, e: Event, id: int)
    ensures Outcomes(s.log, id) <= Outcomes(Step(s, e).log, id)
  {
    hide Settle, ActiveCount, Outcomes, KeepLast;
    OutcomesOneMore(s.log, CountChanged, id);
    match e
    case Launch(isUpload, failsAtOnce) =>
      var added := Added(s, isUpload);
      var started := if failsAtOnce then Settle(added, |s.transfers|, Failed) else added;
      if failsAtOnce { SettleLog(added, |s.transfers|, Failed, id); }
      OutcomesOneMore(started.log, Started(s.nextId), id);
      CountedLog(started.(log := started.log + [Started(s.nextId)]), ActiveCount(s.transfers), id);
    case Cancel(x) => if Row(s.transfers, x) >= 0 { SettleLog(s, Row(s.transfers, x), Cancelled, id); }
    case Finished(x, ok) =>
      if Row(s.transfers, x) >= 0 {
        SettleLog(s, Row(s.transfers, x), if ok then Completed else Failed, id);
      }
    case FailedToStart(x) => if Row(s.transfers, x) >= 0 { SettleLog(s, Row(s.transfers, x), Failed, id); }
    case _ =>
  }

  lemma {:induction false} LogOnlyGrows(run: seq<Event>, more: seq<Event>, id: int)
    ensures Outcomes(After(run).log, id) <= Outcomes(After(run + more).log, id)
  {
    if more == [] {
      assert run + more == run;
    } else {
      var last := |more| - 1;
      assert (run + more)[..|run + more| - 1] == run + more[..last];
      LogOnlyGrows(run, more[..last], id);
      StepAddsToTheLog(After(run + more[..last]), more[last], id);
    }
  }

  lemma {:induction false} LegalPrefix(run: seq<Event>, more: seq<Event>)
    requires Legal(run + more)
    ensures Legal(run)
  {
    if more == [] {
      assert run + more == run;
    } else {
      assert (run + more)[..|run + more| - 1] == run + more[..|more| - 1];
      LegalPrefix(run, more[..|more| - 1]);
    }
  }

  lemma EndedAgree(a: State, b: State, id: int, heardBefore: set<int>, heardNow: set<int>)
    requires Books(a, id, heardBefore) && Books(b, id, heardNow)
    requires Outcomes(a.log, id) <= Outcomes(b.log, id)
    requires Lookup(a.transfers, id).Some? && Lookup(b.transfers, id).Some?
    requires !Lookup(a.transfers, id).value.phase.Active()
    ensures Lookup(b.transfers, id).value.phase == Lookup(a.transfers, id).value.phase
  {
    assert Outcomes(a.log, id)[0] == Outcomes(b.log, id)[0];
  }

  /** A transfer that has ended stays as it ended for as long as it is listed. */
  lemma EndedForGood(run: seq<Event>, more: seq<Event>, id: int)
    requires Legal(run + more)
    requires Lookup(After(run).transfers, id).Some? && Lookup(After(run + more).transfers, id).Some?
    requires !Lookup(After(run).transfers, id).value.phase.Active()
    ensures Lookup(After(run + more).transfers, id).value.phase
         == Lookup(After(run).transfers, id).value.phase
  {
    LegalPrefix(run, more);
    LegalNeverOverwrites(run);
    LegalNeverOverwrites(run + more);
    RunKeepsInv(run);
    RunKeepsInv(run + more);
    LogOnlyGrows(run, more, id);
    EndedAgree(After(run), After(run + more), id, Heard(run), Heard(run + more));
  }

  /** A report about a completed or failed transfer overwrites it and is announced as well. */
  lemma SecondReportOverwrites(s: State, id: int, phase: Phase)
    requires HasReported(s, id) && Increasing(s.transfers)
    ensures Lookup(Reported(s, id, phase).transfers, id)
         == Some(s.transfers[Row(s.transfers, id)].(phase := phase))
    ensures Outcomes(Reported(s, id, phase).log, id) == Outcomes(s.log, id) + [phase]
  {
    SettleLogExactly(s, Row(s.transfers, id), phase);
    LookupUpdated(s.transfers, Row(s.transfers, id), phase, id);
  }

  lemma OverwritingAnnouncesTwice(s: State, e: Event, heard: set<int>)
    requires Inv(s, heard) && Overwrites(s, e)
    ensures |Outcomes(Step(s, e).log, e.id)| > 1
  {
    var phase := if e.Finished? && e.success then Completed else Failed;
    assert Books(s, e.id, heard);
    SecondReportOverwrites(s, e.id, phase);
  }

  lemma {:induction false} OverwrittenIsAnnouncedTwice(run: seq<Event>) returns (id: int)
    requires !NeverOverwrites(run)
    ensures |Outcomes(After(run).log, id)| > 1
  {
    var front, e := run[..|run| - 1], run[|run| - 1];
    if NeverOverwrites(front) {
      RunKeepsInv(front);
      OverwritingAnnouncesTwice(After(front), e, Heard(front));
      id := e.id;
    } else {
      id := OverwrittenIsAnnouncedTwice(front);
      StepAddsToTheLog(After(front), e, id);
    }
  }

  /** Whatever processes report: every id is announced ended at most once iff no report comes for a
      listed transfer that is completed or failed already. */
  lemma EndsOnceIff(run: seq<Event>)
    ensures (forall id :: |Outcomes(After(run).log, id)| <= 1) <==> NeverOverwrites(run)
  {
    if NeverOverwrites(run) {
      RunKeepsInv(run);
      forall id ensures |Outcomes(After(run).log, id)| <= 1 {
        assert Books(After(run), id, Heard(run));
      }
    } else {
      var id := OverwrittenIsAnnouncedTwice(run);
    }
  }

  lemma SettleLogExactly(s: State, row: nat, phase: Phase)
    requires row < |s.transfers|
    ensures var id := s.transfers[row].id;
      Outcomes(Settle(s, row, phase).log, id) == Outcomes(s.log, id) + [phase]
  {
    var id := s.transfers[row].id;
    OutcomesOneMore(s.log, Ended(id, phase), id);
    CountedLog(s.(transfers := WithPhase(s.transfers, row, phase), log := s.log + [Ended(id, phase)]),
               ActiveCount(s.transfers), id);
  }

  // ---- ids ----

  /** The ids a run has given out, in the order their starts were announced. */
  function GivenOut(log: seq<Signal>): seq<int> {
    if log == [] then []
    else
      GivenOut(log[..|log| - 1]) + match log[|log| - 1] case Started(id) => [id] case _ => []
  }

  lemma GivenOutOneMore(log: seq<Signal>, signal: Signal)
    ensures GivenOut(log + [signal]) == GivenOut(log) + if signal.Started? then [signal.id] else []
  {
    assert (log + [signal])[..|log|] == log;
  }

  ghost predicate CountsUp(ids: seq<int>) {
    forall i | 0 <= i < |ids| :: ids[i] == i + 1
  }

  lemma LaunchGivesOut(s: State, isUpload: bool, failsAtOnce: bool)
    ensures GivenOut(Launched(s, isUpload, failsAtOnce).log) == GivenOut(s.log) + [s.nextId]
  {
    var added := Added(s, isUpload);
    var row := |s.transfers|;
    if failsAtOnce { SettleGivesOut(added, row, Failed); }
    var started := if failsAtOnce then Settle(added, row, Failed) else added;
    GivenOutOneMore(started.log, Started(s.nextId));
    GivenOutOneMore(started.log + [Started(s.nextId)], CountChanged);
  }

  lemma ReportGivesOut(s: State, id: int, phase: Phase)
    ensures GivenOut(Reported(s, id, phase).log) == GivenOut(s.log)
    ensures Reported(s, id, phase).nextId == s.nextId
  {
    if Row(s.transfers, id) >= 0 { SettleGivesOut(s, Row(s.transfers, id), phase); }
  }

  lemma StepGivesOut(s: State, e: Event)
    ensures Step(s, e).nextId == s.nextId + if e.Launch? then 1 else 0
    ensures GivenOut(Step(s, e).log) == GivenOut(s.log) + if e.Launch? then [s.nextId] else []
  {
    match e
    case Launch(isUpload, failsAtOnce) => LaunchGivesOut(s, isUpload, failsAtOnce);
    case Cancel(x) => if Row(s.transfers, x) >= 0 { SettleGivesOut(s, Row(s.transfers, x), Cancelled); }
    case Finished(x, ok) => ReportGivesOut(s, x, if ok then Completed else Failed);
    case FailedToStart(x) => ReportGivesOut(s, x, Failed);
    case _ => GivenOutOneMore(s.log, CountChanged);
  }

  lemma SettleGivesOut(s: State, row: nat, phase: Phase)
    requires row < |s.transfers|
    ensures GivenOut(Settle(s, row, phase).log) == GivenOut(s.log)
  {
    var ended := Ended(s.transfers[row].id, phase);
    GivenOutOneMore(s.log, ended);
    GivenOutOneMore(s.log + [ended], CountChanged);
  }

  /** Over every run the ids given out are 1, 2, 3 and so on: never one twice. */
  lemma {:induction false} IdsAreNeverReused(run: seq<Event>)
    ensures CountsUp(GivenOut(After(run).log))
    ensures |GivenOut(After(run).log)| == After(run).nextId - 1
  {
    if run != [] {
      var front := run[..|run| - 1];
      IdsAreNeverReused(front);
      StepGivesOut(After(front), run[|run| - 1]);
    }
  }

  lemma SettleNumbered(s: State, row: nat, phase: Phase)
    requires Numbered(s.transfers, s.nextId) && row < |s.transfers|
    ensures Numbered(Settle(s, row, phase).transfers, s.nextId)
  {
  }

  lemma ReportNumbered(s: State, id: int, phase: Phase)
    requires Numbered(s.transfers, s.nextId)
    ensures Numbered(Reported(s, id, phase).transfers, s.nextId)
  {
    hide Settle, Numbered;
    if Row(s.transfers, id) >= 0 { SettleNumbered(s, Row(s.transfers, id), phase); }
  }

  lemma StepNumbered(s: State, e: Event)
    requires Numbered(s.transfers, s.nextId)
    ensures Numbered(Step(s, e).transfers, Step(s, e).nextId)
  {
    hide Settle, Numbered, Launched, Reported, KeepLast, GivenOut, Lookup;
    StepGivesOut(s, e);
    match e
    case Launch(isUpload, failsAtOnce) => LaunchNumbered(s, isUpload, failsAtOnce);
    case Cancel(x) => if Row(s.transfers, x) >= 0 { SettleNumbered(s, Row(s.transfers, x), Cancelled); }
    case Finished(x, ok) => ReportNumbered(s, x, if ok then Completed else Failed);
    case FailedToStart(x) => ReportNumbered(s, x, Failed);
    case Remove(x) =>
      if Row(s.transfers, x) >= 0 { RemovedNumbered(s.transfers, Row(s.transfers, x), s.nextId); }
    case Purge => KeepLastNumbered(s.transfers, MAX_FINISHED, s.nextId);
  }

  lemma LaunchNumbered(s: State, isUpload: bool, failsAtOnce: bool)
    requires Numbered(s.transfers, s.nextId)
    ensures Numbered(Launched(s, isUpload, failsAtOnce).transfers, s.nextId + 1)
  {
    hide Numbered;
    AddedNumbered(s, isUpload);
    if failsAtOnce { SettleNumbered(Added(s, isUpload), |s.transfers|, Failed); }
  }

  /** Over every run, whatever processes report, ids increase down the list. */
  lemma {:induction false} RunIsNumbered(run: seq<Event>)
    ensures Numbered(After(run).transfers, After(run).nextId)
  {
    if run != [] {
      RunIsNumbered(run[..|run| - 1]);
      StepNumbered(After(run[..|run| - 1]), run[|run| - 1]);
    }
  }

  /** Once a transfer is off the list it never comes back. */
  lemma {:induction false} GoneForGood(run: seq<Event>, more: seq<Event>, id: int)
    requires id < After(run).nextId && Lookup(After(run).transfers, id).None?
    ensures Lookup(After(run + more).transfers, id).None? && id < After(run + more).nextId
  {
    hide Step, Numbered;
    if more == [] {
      assert run + more == run;
    } else {
      var last := |more| - 1;
      var front := run + more[..last];
      assert (run + more)[..|run + more| - 1] == front;
      GoneForGood(run, more[..last], id);
      RunIsNumbered(front);
      StepAddsNoOther(After(front), more[last], id);
      StepGivesOut(After(front), more[last]);
    }
  }

  lemma SettleAddsNoOther(s: State, row: nat, phase: Phase, id: int)
    requires Increasing(s.transfers) && row < |s.transfers| && Lookup(s.transfers, id).None?
    ensures Lookup(Settle(s, row, phase).transfers, id).None?
  {
    LookupUpdated(s.transfers, row, phase, id);
    LookupFinds(s.transfers, id);
  }

  lemma LaunchAddsNoOther(s: State, isUpload: bool, failsAtOnce: bool, id: int)
    requires Numbered(s.transfers, s.nextId) && Lookup(s.transfers, id).None? && id != s.nextId
    ensures Lookup(Launched(s, isUpload, failsAtOnce).transfers, id).None?
  {
    hide Launched, Settle, Lookup;
    var added := Added(s, isUpload);
    LookupAppended(s.transfers, Transfer(s.nextId, isUpload, Running), id);
    AddedNumbered(s, isUpload);
    LaunchedTransfers(s, isUpload, failsAtOnce);
    if failsAtOnce { SettleAddsNoOther(added, |s.transfers|, Failed, id); }
  }

  lemma LaunchedTransfers(s: State, isUpload: bool, failsAtOnce: bool)
    ensures Launched(s, isUpload, failsAtOnce).transfers
         == (if failsAtOnce then Settle(Added(s, isUpload), |s.transfers|, Failed) else Added(s, isUpload)).transfers
  {
    hide Settle, ActiveCount;
  }

  lemma AddedNumbered(s: State, isUpload: bool)
    requires Numbered(s.transfers, s.nextId)
    ensures Numbered(Added(s, isUpload).transfers, s.nextId + 1)
  {
  }

  lemma ReportAddsNoOther(s: State, x: int, phase: Phase, id: int)
    requires Increasing(s.transfers) && Lookup(s.transfers, id).None?
    ensures Lookup(Reported(s, x, phase).transfers, id).None?
  {
    hide Settle;
    if Row(s.transfers, x) >= 0 { SettleAddsNoOther(s, Row(s.transfers, x), phase, id); }
  }

  lemma StepAddsNoOther(s: State, e: Event, id: int)
    requires Numbered(s.transfers, s.nextId) && Lookup(s.transfers, id).None? && id != s.nextId
    ensures Lookup(Step(s, e).transfers, id).None?
  {
    hide Launched, Settle, Reported, KeepLast;
    match e
    case Launch(isUpload, failsAtOnce) => LaunchAddsNoOther(s, isUpload, failsAtOnce, id);
    case Cancel(x) =>
      if Row(s.transfers, x) >= 0 { SettleAddsNoOther(s, Row(s.transfers, x), Cancelled, id); }
    case Finished(x, ok) => ReportAddsNoOther(s, x, if ok then Completed else Failed, id);
    case FailedToStart(x) => ReportAddsNoOther(s, x, Failed, id);
    case Remove(x) =>
      if Row(s.transfers, x) >= 0 { LookupRemoved(s.transfers, Row(s.transfers, x), id); }
    case Purge => LookupKept(s.transfers, MAX_FINISHED, id);
  }

  // ---- what the purge keeps ----

  function Select(ts: seq<Transfer>, active: bool): seq<Transfer> {
    if ts == [] then []
    else
      Select(ts[..|ts| - 1], active)
      + if ts[|ts| - 1].phase.Active() == active then [ts[|ts| - 1]] else []
  }

  function Newest(ts: seq<Transfer>, n: nat): seq<Transfer> {
    if |ts| <= n then ts else ts[|ts| - n..]
  }

  lemma SelectOneMore(ts: seq<Transfer>, t: Transfer, active: bool)
    ensures Select(ts + [t], active) == Select(ts, active) + if t.phase.Active() == active then [t] else []
  {
    assert (ts + [t])[..|ts|] == ts;
  }

  lemma NewestOneMore(ts: seq<Transfer>, t: Transfer, n: nat)
    ensures Newest([], n) == [] == Newest(ts, 0)
    ensures Newest(ts + [t], n) == if n == 0 then [] else Newest(ts, n - 1) + [t]
  {
  }

  /** Every active transfer stays, and of the others exactly the newest ones, all in order. */
  lemma {:induction false} PurgeKeepsTheNewest(ts: seq<Transfer>, keep: nat)
    ensures Select(KeepLast(ts, keep), true) == Select(ts, true)
    ensures Select(KeepLast(ts, keep), false) == Newest(Select(ts, false), keep)
  {
    hide Newest;
    if ts == [] {
      NewestOneMore([], Transfer(0, false, Queued), keep);
    } else {
      var front, last := ts[..|ts| - 1], ts[|ts| - 1];
      var k := if last.phase.Active() || keep == 0 then keep else keep - 1;
      PurgeKeepsTheNewest(front, k);
      SelectOneMore(KeepLast(front, k), last, true);
      SelectOneMore(KeepLast(front, k), last, false);
      NewestOneMore(Select(front, false), last, keep);
      assert Select(front, false) + [] == Select(front, false);
    }
  }

  // ---- the counts a view reads ----

  /** The view was told if what it counts has changed. */
  ghost predicate Told(before: State, now: State) {
    && before.log <= now.log
    && (|now.transfers| != |before.transfers| || ActiveCount(now.transfers) != ActiveCount(before.transfers)
        ==> CountChanged in now.log[|before.log|..])
  }

  lemma SettleTells(s: State, row: nat, phase: Phase)
    requires row < |s.transfers|
    ensures Told(s, Settle(s, row, phase))
  {
    var now := Settle(s, row, phase);
    if ActiveCount(now.transfers) != ActiveCount(s.transfers) {
      assert now.log[|s.log|..][1] == CountChanged;
    }
  }

  lemma LaunchTells(s: State, isUpload: bool, failsAtOnce: bool)
    ensures Told(s, Launched(s, isUpload, failsAtOnce))
  {
    var added, row, now := Added(s, isUpload), |s.transfers|, Launched(s, isUpload, failsAtOnce);
    assert added.transfers[..row] == s.transfers;
    assert WithPhase(added.transfers, row, Failed)[..row] == s.transfers;
    assert now.log[|s.log|..][1] == CountChanged;
  }

  lemma DroppingTells(s: State, kept: seq<Transfer>)
    ensures Told(s, s.(transfers := kept, log := s.log + [CountChanged]))
  {
    assert (s.log + [CountChanged])[|s.log|..] == [CountChanged];
  }

  /** A step that changes the length of the list or the number of active transfers says so. */
  lemma CountsAreAnnounced(s: State, e: Event)
    ensures Told(s, Step(s, e))
  {
    hide Told, Settle, Launched, Reported, KeepLast, ActiveCount, Without, Lookup, Row;
    NothingToTell(s);
    match e
    case Launch(isUpload, failsAtOnce) => LaunchTells(s, isUpload, failsAtOnce);
    case Cancel(x) => if Row(s.transfers, x) >= 0 { SettleTells(s, Row(s.transfers, x), Cancelled); }
    case Finished(x, ok) => ReportTells(s, x, if ok then Completed else Failed);
    case FailedToStart(x) => ReportTells(s, x, Failed);
    case Remove(x) =>
      if Row(s.transfers, x) >= 0 { DroppingTells(s, Without(s.transfers, Row(s.transfers, x))); }
    case Purge =>
      DroppingTells(s, KeepLast(s.transfers, MAX_FINISHED));
      KeepAllOrFewer(s.transfers, MAX_FINISHED);
  }

  lemma NothingToTell(s: State)
    ensures Told(s, s)
  {
  }

  lemma ReportTells(s: State, id: int, phase: Phase)
    ensures Told(s, Reported(s, id, phase))
  {
    hide Told, Settle;
    NothingToTell(s);
    if Row(s.transfers, id) >= 0 { SettleTells(s, Row(s.transfers, id), phase); }
  }

  lemma KeepAllOrFewer(ts: seq<Transfer>, keep: nat)
    ensures KeepLast(ts, keep) == ts || |KeepLast(ts, keep)| < |ts|
  {
    KeepAll(ts, keep);
  }

  // ---- the object ----

  class FileTransferManager {
    var transfers: seq<Transfer>
    var nextId: int
    var log: seq<Signal>

    ghost function Contents(): State
      reads this
    {
      State(transfers, nextId, log)
    }

    constructor ()
      ensures Contents() == After([])
    {
      transfers, nextId, log := [], 1, [];
    }

    method RowForTransfer(id: int) returns (row: int)
      ensures row == Row(transfers, id)
    {
      for i := 0 to |transfers|
        invariant Row(transfers[..i], id) < 0
      {
        assert transfers[..i + 1][..i] == transfers[..i];
        if transfers[i].id == id {
          RowOfPrefix(transfers, i + 1, id);
          return i;
        }
      }
      assert transfers[..|transfers|] == transfers;
      return -1;
    }

    method ActiveTransferCount() returns (n: nat)
      ensures n == ActiveCount(transfers)
    {
      n := 0;
      for i := 0 to |transfers|
        invariant n == ActiveCount(transfers[..i])
      {
        assert transfers[..i + 1][..i] == transfers[..i];
        if transfers[i].phase.Active() { n := n + 1; }
      }
      assert transfers[..|transfers|] == transfers;
    }

    method EmitActiveCountIfChanged(previousActive: nat)
      modifies this`log
      ensures Contents() == Counted(old(Contents()), previousActive)
    {
      var active := ActiveTransferCount();
      if active != previousActive { log := log + [CountChanged]; }
    }

    method End(row: nat, phase: Phase)
      requires row < |transfers|
      modifies this
      ensures Contents() == Settle(old(Contents()), row, phase)
    {
      var previousActive := ActiveTransferCount();
      transfers := transfers[row := transfers[row].(phase := phase)];
      log := log + [Ended(transfers[row].id, phase)];
      EmitActiveCountIfChanged(previousActive);
    }

    /** download and upload. */
    method Launch(isUpload: bool, failsAtOnce: bool) returns (id: int)
      modifies this
      ensures id == old(nextId)
      ensures Contents() == Step(old(Contents()), Event.Launch(isUpload, failsAtOnce))
    {
      id := nextId;
      nextId := nextId + 1;
      var previousActive := ActiveTransferCount();
      transfers := transfers + [Transfer(id, isUpload, Queued)];
      var row := |transfers| - 1;
      transfers := transfers[row := transfers[row].(phase := Running)];
      assert Contents() == Added(old(Contents()), isUpload);
      if failsAtOnce { End(row, Failed); }
      log := log + [Started(id)];
      EmitActiveCountIfChanged(previousActive);
    }

    method CancelTransfer(id: int)
      modifies this
      ensures Contents() == Step(old(Contents()), Cancel(id))
    {
      var row := RowForTransfer(id);
      if row < 0 { return; }
      var phase := transfers[row].phase;
      if phase == Completed || phase == Failed || phase == Cancelled { return; }
      End(row, Cancelled);
    }

    method OnFinished(id: int, crashed: bool, exitCode: int)
      modifies this
      ensures Contents() == Step(old(Contents()), Finished(id, !crashed && exitCode == 0))
    {
      var row := RowForTransfer(id);
      if row < 0 || transfers[row].phase == Cancelled { return; }
      if crashed || exitCode != 0 {
        End(row, Failed);
      } else {
        End(row, Completed);
      }
    }

    method OnErrorOccurred(id: int, failedToStart: bool)
      modifies this
      ensures Contents() == if failedToStart then Step(old(Contents()), FailedToStart(id)) else old(Contents())
    {
      var row := RowForTransfer(id);
      if row < 0 || transfers[row].phase == Cancelled { return; }
      if failedToStart { End(row, Failed); }
    }

    method RemoveTransfer(id: int)
      modifies this
      ensures Contents() == Step(old(Contents()), Remove(id))
    {
      var row := RowForTransfer(id);
      if row < 0 || transfers[row].phase.Active() { return; }
      transfers := transfers[..row] + transfers[row + 1..];
      log := log + [CountChanged];
    }

    /** The loop that erases from the front while it walks the list. */
    method EraseOldest(toRemove: nat) returns (removed: nat)
      modifies this`transfers
      ensures transfers == DropOldest(old(transfers), toRemove)
      ensures removed == |old(transfers)| - |transfers|
    {
      var i := 0;
      removed := 0;
      while i < |transfers| && removed < toRemove
        invariant i <= |transfers| && removed <= toRemove
        invariant removed == |old(transfers)| - |transfers|
        invariant transfers[..i] + DropOldest(transfers[i..], toRemove - removed)
               == DropOldest(old(transfers), toRemove)
        decreases |transfers| - i
      {
        DropAt(transfers, i, toRemove - removed);
        if !transfers[i].phase.Active() {
          transfers := transfers[..i] + transfers[i + 1..];
          removed := removed + 1;
        } else {
          i := i + 1;
        }
      }
      assert transfers[..i] + transfers[i..] == transfers;
    }

    method PurgeOldFinishedTransfers()
      modifies this
      ensures Contents() == Step(old(Contents()), Purge)
    {
      var finishedCount := 0;
      for i := 0 to |transfers|
        invariant finishedCount == FinishedCount(transfers[..i])
      {
        assert transfers[..i + 1][..i] == transfers[..i];
        if !transfers[i].phase.Active() { finishedCount := finishedCount + 1; }
      }
      assert transfers[..|transfers|] == transfers;
      KeepAll(transfers, MAX_FINISHED);
      if finishedCount <= MAX_FINISHED { return; }
      DropIsKeep(transfers, finishedCount - MAX_FINISHED, MAX_FINISHED);
      var removed := EraseOldest(finishedCount - MAX_FINISHED);
      if removed > 0 { log := log + [CountChanged]; }
    }
  }

  lemma {:induction false} RowOfPrefix(ts: seq<Transfer>, n: nat, id: int)
    requires n <= |ts| && Row(ts[..n], id) >= 0
    ensures Row(ts, id) == Row(ts[..n], id)
  {
    if n < |ts| {
      assert ts[..|ts| - 1][..n] == ts[..n];
      RowOfPrefix(ts[..|ts| - 1], n, id);
    } else {
      assert ts[..n] == ts;
    }
  }

  /** One turn of the erasing loop. */
  lemma DropAt(ts: seq<Transfer>, i: nat, drop: nat)
    requires i < |ts| && drop > 0
    ensures ts[..i] + DropOldest(ts[i..], drop)
         == if ts[i].phase.Active() then ts[..i + 1] + DropOldest(ts[i + 1..], drop)
            else Without(ts, i)[..i] + DropOldest(Without(ts, i)[i..], drop - 1)
  {
    assert ts[i..][1..] == ts[i + 1..];
    assert ts[..i + 1] == ts[..i] + [ts[i]];
    assert Without(ts, i)[..i] == ts[..i] && Without(ts, i)[i..] == ts[i + 1..];
  }
}
