/** The polling controller: each response is compared with the rows the model still shows, then
    shown.  What is announced is proved to be the difference between successive responses. */
module Polling {
  import opened Wrappers
  import opened ListModel

  /** Status and state are the enum codes of the models; the other row data is one opaque text. */
  datatype Workspace = Workspace(name: string, status: int, rest: string)
  datatype Task = Task(name: string, displayName: string, status: int, state: int, rest: string)

  datatype Notice = Notice(title: string, message: string, kind: string)

  /** What a comparison looks at in a row, and the notice it sends. */
  datatype Watch<!T, !W> = Watch(status: T -> W, notice: T -> Notice)

  function TheWorkspaces(): Watch<Workspace, int> {
    Watch((w: Workspace) => w.status,
          (w: Workspace) => Notice("Workspace: " + w.name, "Status changed", "WorkspaceState"))
  }

  function TheTasks(): Watch<Task, (int, int)> {
    Watch((t: Task) => (t.status, t.state),
          (t: Task) => Notice("Task: " + if t.displayName == "" then t.name else t.displayName,
                              "Status changed", "TaskUpdate"))
  }

  // ---- one comparison ----

  predicate Differs<T, W(==)>(known: seq<Row<T>>, row: Row<T>, watch: Watch<T, W>) {
    var before := LastWith(known, row.id);
    before.Some? && watch.status(before.value.info) != watch.status(row.info)
  }

  /** One notice per listed row that differs from what was known of its id, in list order. */
  function Changes<T, W(==)>(known: seq<Row<T>>, list: seq<Row<T>>, watch: Watch<T, W>): seq<Notice> {
    if list == [] then []
    else
      var before, row := Changes(known, list[..|list| - 1], watch), list[|list| - 1];
      if Differs(known, row, watch) then before + [watch.notice(row.info)] else before
  }

  /** A comparison only sees the known rows as a map from ids. */
  lemma {:induction false} OnlyTheMapMatters<T, W>(a: seq<Row<T>>, b: seq<Row<T>>,
                                                  list: seq<Row<T>>, watch: Watch<T, W>)
    requires forall id :: LastWith(a, id) == LastWith(b, id)
    ensures Changes(a, list, watch) == Changes(b, list, watch)
  {
    if list != [] {
      OnlyTheMapMatters(a, b, list[..|list| - 1], watch);
      assert LastWith(a, list[|list| - 1].id) == LastWith(b, list[|list| - 1].id);
    }
  }

  /** Against a duplicate-free list, a row differs iff its id was there with another status. */
  lemma DiffersFromAMember<T, W>(known: seq<Row<T>>, row: Row<T>, watch: Watch<T, W>)
    requires DistinctIds(known)
    ensures Differs(known, row, watch)
       <==> exists i :: 0 <= i < |known| && known[i].id == row.id
                     && watch.status(known[i].info) != watch.status(row.info)
  {
    forall i | 0 <= i < |known| && known[i].id == row.id
      ensures LastWith(known, row.id) == Some(known[i])
    {
      DistinctRowsOccurOnce(known, known[i]);
    }
    LastWithFinds(known, row.id);
    if LastWith(known, row.id).Some? {
      var k := LastWith(known, row.id).value;
      var i :| 0 <= i < |known| && known[i] == k;
    }
  }

  lemma {:induction false} ChangesConcat<T, W>(known: seq<Row<T>>, a: seq<Row<T>>, b: seq<Row<T>>, watch: Watch<T, W>)
    ensures Changes(known, a + b, watch) == Changes(known, a, watch) + Changes(known, b, watch)
    decreases |b|
  {
    if b == [] {
      assert a + b == a;
    } else {
      assert (a + b)[..|a + b| - 1] == a + b[..|b| - 1];
      ChangesConcat(known, a, b[..|b| - 1], watch);
    }
  }

  /** A workspace is announced, under its name, iff its id was known with another status. */
  lemma WorkspaceIsAnnouncedIff(known: seq<Row<Workspace>>, row: Row<Workspace>)
    requires DistinctIds(known)
    ensures Changes(known, [row], TheWorkspaces()) ==
      if exists i :: 0 <= i < |known| && known[i].id == row.id && known[i].info.status != row.info.status
      then [Notice("Workspace: " + row.info.name, "Status changed", "WorkspaceState")] else []
  {
    DiffersFromAMember(known, row, TheWorkspaces());
    assert [row][..0] == [];
    assert Changes(known, [row][..0], TheWorkspaces()) == [];
  }

  /** A task is announced, under its display name or else its name, iff its id was known with another status or
      another state. */
  lemma TaskIsAnnouncedIff(known: seq<Row<Task>>, row: Row<Task>)
    requires DistinctIds(known)
    ensures Changes(known, [row], TheTasks()) ==
      if exists i :: 0 <= i < |known| && known[i].id == row.id
                  && (known[i].info.status != row.info.status || known[i].info.state != row.info.state)
      then [Notice("Task: " + if |row.info.displayName| > 0 then row.info.displayName else row.info.name,
                   "Status changed", "TaskUpdate")]
      else []
  {
    DiffersFromAMember(known, row, TheTasks());
    assert [row][..0] == [];
    assert Changes(known, [row][..0], TheTasks()) == [];
  }

  /** detectWorkspaceChanges and detectTaskChanges: a status map of the model, then the new list. */
  method Detect<T, W(==)>(known: seq<Row<T>>, list: seq<Row<T>>, watch: Watch<T, W>)
    returns (notices: seq<Notice>)
    ensures notices == Changes(known, list, watch)
  {
    var oldStatus: map<string, W> := map[];
    for i := 0 to |known|
      invariant forall id :: id in oldStatus <==> LastWith(known[..i], id).Some?
      invariant forall id | id in oldStatus ::
        oldStatus[id] == watch.status(LastWith(known[..i], id).value.info)
    {
      assert known[..i + 1][..i] == known[..i];
      oldStatus := oldStatus[known[i].id := watch.status(known[i].info)];
    }
    assert known[..|known|] == known;
    notices := [];
    for i := 0 to |list|
      invariant notices == Changes(known, list[..i], watch)
    {
      assert list[..i + 1][..i] == list[..i];
      var row := list[i];
      if row.id in oldStatus && oldStatus[row.id] != watch.status(row.info) {
        notices := notices + [watch.notice(row.info)];
      }
    }
    assert list[..|list|] == list;
  }

  // ---- the controller ----

  /** A start carries the cached lists it found; a response carries the setting read on arrival. */
  datatype Event =
    | Started(cachedWorkspaces: Option<seq<Row<Workspace>>>, cachedTasks: Option<seq<Row<Task>>>)
    | WorkspacesReceived(workspaces: seq<Row<Workspace>>, enabled: bool)
    | TasksReceived(tasks: seq<Row<Task>>, enabled: bool)
    | Stopped

  datatype State = State(firstFetch: bool, workspaces: seq<Row<Workspace>>, tasks: seq<Row<Task>>,
                         notices: seq<Notice>)

  function Loaded<T>(rows: seq<Row<T>>, cached: Option<seq<Row<T>>>): seq<Row<T>> {
    if cached.Some? then AfterSet(rows, cached.value) else rows
  }

  function Step(s: State, e: Event): State {
    match e
    case Started(ws, ts) =>
      s.(firstFetch := true, workspaces := Loaded(s.workspaces, ws), tasks := Loaded(s.tasks, ts))
    case WorkspacesReceived(list, on) =>
      s.(firstFetch := false, workspaces := AfterSet(s.workspaces, list),
         notices := s.notices
                  + if s.firstFetch || !on then [] else Changes(s.workspaces, list, TheWorkspaces()))
    case TasksReceived(list, on) =>
      s.(tasks := AfterSet(s.tasks, list),
         notices := s.notices + if s.firstFetch || !on then [] else Changes(s.tasks, list, TheTasks()))
    case Stopped => s
  }

  function After(run: seq<Event>): State {
    if run == [] then State(true, [], [], [])
    else Step(After(run[..|run| - 1]), run[|run| - 1])
  }

  class PollingController {
    var firstFetch: bool
    const workspaceModel: RowModel<Workspace>
    const taskModel: RowModel<Task>
    var notices: seq<Notice>

    ghost predicate Valid()
      reads this, workspaceModel, taskModel
    {
      workspaceModel.Valid() && taskModel.Valid()
    }

    ghost function Contents(): State
      reads this, workspaceModel, taskModel
    {
      State(firstFetch, workspaceModel.rows, taskModel.rows, notices)
    }

    constructor ()
      ensures Valid() && fresh(workspaceModel) && fresh(taskModel)
      ensures Contents() == After([])
    {
      firstFetch, notices := true, [];
      workspaceModel := new RowModel();
      taskModel := new RowModel();
    }

    method Start(cachedWorkspaces: Option<seq<Row<Workspace>>>, cachedTasks: Option<seq<Row<Task>>>)
      requires Valid()
      modifies this, workspaceModel, taskModel
      ensures Valid()
      ensures Contents() == Step(old(Contents()), Started(cachedWorkspaces, cachedTasks))
    {
      firstFetch := true;
      if cachedWorkspaces.Some? {
        workspaceModel.SetRows(cachedWorkspaces.value);
      }
      if cachedTasks.Some? {
        taskModel.SetRows(cachedTasks.value);
      }
    }

    method HandleWorkspacesReceived(list: seq<Row<Workspace>>, enabled: bool)
      requires Valid()
      modifies this, workspaceModel
      ensures Valid()
      ensures Contents() == Step(old(Contents()), WorkspacesReceived(list, enabled))
    {
      if !firstFetch && enabled {
        var changed := Detect(workspaceModel.rows, list, TheWorkspaces());
        notices := notices + changed;
      }
      workspaceModel.SetRows(list);
      firstFetch := false;
    }

    method HandleTasksReceived(list: seq<Row<Task>>, enabled: bool)
      requires Valid()
      modifies this, taskModel
      ensures Valid()
      ensures Contents() == Step(old(Contents()), TasksReceived(list, enabled))
    {
      if !firstFetch && enabled {
        var changed := Detect(taskModel.rows, list, TheTasks());
        notices := notices + changed;
      }
      taskModel.SetRows(list);
    }
  }

  // ---- what a run announces, said without any model ----

  /** The workspace list the run last brought in, from a response or from the cache. */
  function LatestWorkspaces(run: seq<Event>): seq<Row<Workspace>> {
    if run == [] then []
    else
      match run[|run| - 1]
      case WorkspacesReceived(list, _) => list
      case Started(Some(list), _) => list
      case _ => LatestWorkspaces(run[..|run| - 1])
  }

  function LatestTasks(run: seq<Event>): seq<Row<Task>> {
    if run == [] then []
    else
      match run[|run| - 1]
      case TasksReceived(list, _) => list
      case Started(_, Some(list)) => list
      case _ => LatestTasks(run[..|run| - 1])
  }

  /** Some workspace response arrived after the last start. */
  predicate Primed(run: seq<Event>) {
    run != [] &&
    match run[|run| - 1]
    case WorkspacesReceived(_, _) => true
    case Started(_, _) => false
    case _ => Primed(run[..|run| - 1])
  }

  function Announced(run: seq<Event>): seq<Notice> {
    if run == [] then []
    else
      var front := run[..|run| - 1];
      Announced(front) +
      match run[|run| - 1]
      case WorkspacesReceived(list, on) =>
        if on && Primed(front) then Changes(LatestWorkspaces(front), list, TheWorkspaces()) else []
      case TasksReceived(list, on) =>
        if on && Primed(front) then Changes(LatestTasks(front), list, TheTasks()) else []
      case _ => []
  }

  /** The models are, as maps from ids, the lists last brought in, whatever came before. */
  lemma {:induction false} ModelsAreTheLatestLists(run: seq<Event>, id: string)
    ensures LastWith(After(run).workspaces, id) == LastWith(LatestWorkspaces(run), id)
    ensures LastWith(After(run).tasks, id) == LastWith(LatestTasks(run), id)
  {
    if run != [] {
      var front := run[..|run| - 1];
      ModelsAreTheLatestLists(front, id);
      match run[|run| - 1]
      case WorkspacesReceived(list, _) => AfterSetAsMap(After(front).workspaces, list, id);
      case TasksReceived(list, _) => AfterSetAsMap(After(front).tasks, list, id);
      case Started(ws, ts) =>
        if ws.Some? { AfterSetAsMap(After(front).workspaces, ws.value, id); }
        if ts.Some? { AfterSetAsMap(After(front).tasks, ts.value, id); }
      case Stopped =>
    }
  }

  lemma {:induction false} PrimedIsNotFirstFetch(run: seq<Event>)
    ensures After(run).firstFetch <==> !Primed(run)
  {
    if run != [] {
      PrimedIsNotFirstFetch(run[..|run| - 1]);
    }
  }

  /** Over every run, repeated ids or not, the controller announces what the lists alone call for. */
  lemma {:induction false} RunAnnouncesTheDifferences(run: seq<Event>)
    ensures After(run).notices == Announced(run)
  {
    if run != [] {
      var front := run[..|run| - 1];
      var s := After(front);
      RunAnnouncesTheDifferences(front);
      PrimedIsNotFirstFetch(front);
      forall id ensures LastWith(s.workspaces, id) == LastWith(LatestWorkspaces(front), id)
                     && LastWith(s.tasks, id) == LastWith(LatestTasks(front), id)
      {
        ModelsAreTheLatestLists(front, id);
      }
      match run[|run| - 1]
      case WorkspacesReceived(list, _) =>
        OnlyTheMapMatters(s.workspaces, LatestWorkspaces(front), list, TheWorkspaces());
      case TasksReceived(list, _) =>
        OnlyTheMapMatters(s.tasks, LatestTasks(front), list, TheTasks());
      case _ =>
    }
  }

  // ---- between two starts ----

  predicate NoStart(run: seq<Event>) {
    forall i | 0 <= i < |run| :: !run[i].Started?
  }

  /** The workspace responses of a run, in order. */
  function Responses(run: seq<Event>): seq<seq<Row<Workspace>>> {
    if run == [] then []
    else
      var before := Responses(run[..|run| - 1]);
      match run[|run| - 1]
      case WorkspacesReceived(list, _) => before + [list]
      case _ => before
  }

  lemma {:induction false} LatestIsThePreviousResponse(before: seq<Event>, start: Event, run: seq<Event>)
    requires start.Started? && NoStart(run)
    ensures Primed(before + [start] + run) <==> Responses(run) != []
    ensures Responses(run) != [] ==>
      LatestWorkspaces(before + [start] + run) == Responses(run)[|Responses(run)| - 1]
  {
    var all := before + [start] + run;
    if run == [] {
      assert all[|all| - 1] == start;
    } else {
      LatestIsThePreviousResponse(before, start, run[..|run| - 1]);
      assert all[..|all| - 1] == before + [start] + run[..|run| - 1];
      assert all[|all| - 1] == run[|run| - 1];
    }
  }

  /** After a start, the first workspace response is silent and each later one, with notifications
      on, announces exactly its differences from the response before it: the cache and the earlier
      runs never show through. */
  lemma EachResponseAgainstTheOneBefore(before: seq<Event>, start: Event, run: seq<Event>,
                                        list: seq<Row<Workspace>>, on: bool)
    requires start.Started? && NoStart(run)
    ensures var all, rs := before + [start] + run, Responses(run);
      After(all + [WorkspacesReceived(list, on)]).notices
      == After(all).notices
       + if on && rs != [] then Changes(rs[|rs| - 1], list, TheWorkspaces()) else []
  {
    var all, e := before + [start] + run, WorkspacesReceived(list, on);
    assert (all + [e])[..|all|] == all;
    RunAnnouncesTheDifferences(all);
    RunAnnouncesTheDifferences(all + [e]);
    LatestIsThePreviousResponse(before, start, run);
  }

  /** The last task response of the run, or `initial` if it has none. */
  function LatestTasksSince(initial: seq<Row<Task>>, run: seq<Event>): seq<Row<Task>> {
    if run == [] then initial
    else
      match run[|run| - 1]
      case TasksReceived(list, _) => list
      case _ => LatestTasksSince(initial, run[..|run| - 1])
  }

  lemma {:induction false} LatestTasksOfRun(all: seq<Event>, run: seq<Event>)
    requires NoStart(run)
    ensures LatestTasks(all + run) == LatestTasksSince(LatestTasks(all), run)
  {
    if run == [] {
      assert all + run == all;
    } else {
      LatestTasksOfRun(all, run[..|run| - 1]);
      assert (all + run)[..|all + run| - 1] == all + run[..|run| - 1];
    }
  }

  /** Tasks have no guard of their own: after a start a task response is silent until some workspace
      response has come, and from then on each one, with notifications on, announces its differences
      from the task response before it or, if it is the first, from what the model held after the start:
      the cached tasks, or without a cache those of an earlier run. */
  lemma EachTaskResponseAgainstTheOneBefore(before: seq<Event>, start: Event, run: seq<Event>,
                                            list: seq<Row<Task>>, on: bool)
    requires start.Started? && NoStart(run)
    ensures var all := before + [start] + run;
      After(all + [TasksReceived(list, on)]).notices
      == After(all).notices
       + if on && Responses(run) != []
         then Changes(LatestTasksSince(LatestTasks(before + [start]), run), list, TheTasks()) else []
  {
    var all, e := before + [start] + run, TasksReceived(list, on);
    assert (all + [e])[..|all|] == all;
    RunAnnouncesTheDifferences(all);
    RunAnnouncesTheDifferences(all + [e]);
    LatestIsThePreviousResponse(before, start, run);
    LatestTasksOfRun(before + [start], run);
  }

  lemma {:induction false} NoTaskResponse(initial: seq<Row<Task>>, run: seq<Event>)
    requires forall i | 0 <= i < |run| :: !run[i].TasksReceived?
    ensures LatestTasksSince(initial, run) == initial
  {
    if run != [] {
      NoTaskResponse(initial, run[..|run| - 1]);
    }
  }

  /** A comparison is silent iff no listed row differs. */
  lemma {:induction false} SilentIff<T, W>(known: seq<Row<T>>, list: seq<Row<T>>, watch: Watch<T, W>)
    ensures Changes(known, list, watch) == [] <==> forall i | 0 <= i < |list| :: !Differs(known, list[i], watch)
  {
    if list != [] {
      var last := |list| - 1;
      SilentIff(known, list[..last], watch);
      assert forall i | 0 <= i < last :: list[..last][i] == list[i];
    }
  }

  /** The first task response after a start announces nothing iff notifications are off, no workspace
      response has come first, or no task differs from what the model held after the start. */
  lemma FirstTaskResponseIsSilentIff(before: seq<Event>, start: Event, run: seq<Event>,
                                     list: seq<Row<Task>>, on: bool)
    requires start.Started? && NoStart(run) && forall i | 0 <= i < |run| :: !run[i].TasksReceived?
    ensures var all, held := before + [start] + run, LatestTasks(before + [start]);
      After(all + [TasksReceived(list, on)]).notices == After(all).notices
      <==> !on || Responses(run) == [] || forall i | 0 <= i < |list| :: !Differs(held, list[i], TheTasks())
  {
    EachTaskResponseAgainstTheOneBefore(before, start, run, list, on);
    NoTaskResponse(LatestTasks(before + [start]), run);
    SilentIff(LatestTasks(before + [start]), list, TheTasks());
  }

  /** A start, one workspace response, and a first task response with a task in another status than the
      model held: a change is announced though no earlier task response of this run bears it out. */
  lemma HeldTaskShowsThrough(before: seq<Event>, start: Event, held: Row<Task>, now: Row<Task>)
    requires start.Started? && LatestTasks(before + [start]) == [held] && held.id == now.id
    requires TheTasks().status(held.info) != TheTasks().status(now.info)
    ensures var all := before + [start] + [WorkspacesReceived([], true)];
      After(all + [TasksReceived([now], true)]).notices == After(all).notices + [TheTasks().notice(now.info)]
  {
    hide After, LatestTasks, Announced;
    var w := WorkspacesReceived([], true);
    EachTaskResponseAgainstTheOneBefore(before, start, [w], [now], true);
    assert [w][..0] == [] && Responses([w][..0]) == [];
    assert Responses([w]) == [[]];
    NoTaskResponse([held], [w]);
    assert [held][..0] == [] && [now][..0] == [];
    assert Changes([held], [now][..0], TheTasks()) == [];
    assert Changes([held], [now], TheTasks()) == [TheTasks().notice(now.info)];
  }

  const OLD_TASK := Row("1", Task("build", "", 1, 0, ""))
  const NEW_TASK := Row("1", Task("build", "", 2, 0, ""))

  /** The cache shows through. */
  lemma CachedTasksShowThrough()
    ensures
      var run := [Started(None, Some([OLD_TASK]))] + [WorkspacesReceived([], true)];
      After(run + [TasksReceived([NEW_TASK], true)]).notices == After(run).notices + [TheTasks().notice(NEW_TASK.info)]
  {
    var start := Started(None, Some([OLD_TASK]));
    assert [] + [start] == [start];
    assert LatestTasks([start]) == [OLD_TASK];
    hide After, LatestTasks;
    HeldTaskShowsThrough([], start, OLD_TASK, NEW_TASK);
  }

  /** Without a cache, the tasks of the run before the start show through. */
  lemma EarlierTasksShowThrough()
    ensures
      var earlier := [Started(None, None), TasksReceived([OLD_TASK], true), Stopped];
      var run := earlier + [Started(None, None)] + [WorkspacesReceived([], true)];
      After(run + [TasksReceived([NEW_TASK], true)]).notices == After(run).notices + [TheTasks().notice(NEW_TASK.info)]
  {
    var start, t := Started(None, None), TasksReceived([OLD_TASK], true);
    var earlier := [start, t, Stopped];
    assert earlier[..2] == [start, t];
    assert LatestTasks([start, t]) == [OLD_TASK];
    assert LatestTasks(earlier) == [OLD_TASK];
    assert (earlier + [start])[..3] == earlier;
    assert LatestTasks(earlier + [start]) == [OLD_TASK];
    hide After, LatestTasks;
    HeldTaskShowsThrough(earlier, start, OLD_TASK, NEW_TASK);
  }
}
