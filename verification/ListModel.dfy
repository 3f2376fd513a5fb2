/** The list models behind the workspace and task views: an in-place diff against a new list,
    with a row signal for every change.  Both models run the same algorithm on different rows. */
module ListModel {
  import opened Wrappers
  import opened Sequences

  datatype Row<+T> = Row(id: string, info: T)

  /** What a view is told; an insertion or a change carries the row the view then reads. */
  datatype Signal<+T> =
    | Removed(at: nat)
    | Changed(at: nat, row: Row<T>)
    | Inserted(at: nat, row: Row<T>)
    | Reset
    | CountChanged

  function Ids<T>(rows: seq<Row<T>>): set<string> {
    set i | 0 <= i < |rows| :: rows[i].id
  }

  ghost predicate DistinctIds<T>(rows: seq<Row<T>>) {
    forall i, j | 0 <= i < j < |rows| :: rows[i].id != rows[j].id
  }

  /** The last row with this id: a list read as a map from ids in which later rows win. */
  function LastWith<T>(rows: seq<Row<T>>, id: string): (row: Option<Row<T>>)
    ensures row.Some? ==> row.value.id == id
  {
    if rows == [] then None
    else if rows[|rows| - 1].id == id then Some(rows[|rows| - 1])
    else LastWith(rows[..|rows| - 1], id)
  }

  lemma {:induction false} LastWithFinds<T>(rows: seq<Row<T>>, id: string)
    ensures LastWith(rows, id).None? <==> id !in Ids(rows)
    ensures LastWith(rows, id).Some? ==> LastWith(rows, id).value in rows
  {
    if rows != [] {
      IdsOfPrefix(rows);
      LastWithFinds(rows[..|rows| - 1], id);
    }
  }

  lemma IdsOfPrefix<T>(rows: seq<Row<T>>)
    requires rows != []
    ensures Ids(rows) == Ids(rows[..|rows| - 1]) + {rows[|rows| - 1].id}
  {
    var front := rows[..|rows| - 1];
    forall id | id in Ids(rows) ensures id in Ids(front) + {rows[|rows| - 1].id} {
      var i :| 0 <= i < |rows| && rows[i].id == id;
      if i < |front| { assert front[i].id == id; }
    }
    forall id | id in Ids(front) ensures id in Ids(rows) {
      var i :| 0 <= i < |front| && front[i].id == id;
      assert rows[i].id == id;
    }
    assert rows[|rows| - 1].id in Ids(rows);
  }

  // ---- the view ----

  function Shown<T>(rows: seq<Row<T>>, signal: Signal<T>): seq<Row<T>> {
    match signal
    case Removed(at) => if at < |rows| then rows[..at] + rows[at + 1..] else rows
    case Changed(at, row) => if at < |rows| then rows[at := row] else rows
    case Inserted(at, row) => if at <= |rows| then rows[..at] + [row] + rows[at..] else rows
    case Reset => []
    case CountChanged => rows
  }

  /** A view that keeps its own copy and only listens to the signals. */
  function Replay<T>(rows: seq<Row<T>>, signals: seq<Signal<T>>): seq<Row<T>> {
    if signals == [] then rows
    else Shown(Replay(rows, signals[..|signals| - 1]), signals[|signals| - 1])
  }

  lemma {:induction false} ReplayJoin<T>(rows: seq<Row<T>>, first: seq<Signal<T>>, next: seq<Signal<T>>)
    ensures Replay(rows, first + next) == Replay(Replay(rows, first), next)
  {
    if next == [] {
      assert first + next == first;
    } else {
      assert (first + next)[..|first + next| - 1] == first + next[..|next| - 1];
      ReplayJoin(rows, first, next[..|next| - 1]);
    }
  }

  // ---- what setWorkspaces and setTasks compute ----

  /** The rows whose id is in the set, in order. */
  function Kept<T>(rows: seq<Row<T>>, ids: set<string>): (kept: seq<Row<T>>)
    ensures |kept| <= |rows|
    ensures forall r | r in kept :: r in rows && r.id in ids
  {
    if rows == [] then []
    else
      var rest := Kept(rows[1..], ids);
      if rows[0].id in ids then [rows[0]] + rest else rest
  }

  /** The last index with this id, or -1: what the position map built from the rows holds. */
  function LastIndex<T>(rows: seq<Row<T>>, id: string): (i: int)
    ensures -1 <= i < |rows|
    ensures i >= 0 ==> rows[i].id == id && forall j | i < j < |rows| :: rows[j].id != id
    ensures i < 0 <==> id !in Ids(rows)
  {
    if rows == [] then -1
    else if rows[|rows| - 1].id == id then |rows| - 1
    else
      IdsOfPrefix(rows);
      LastIndex(rows[..|rows| - 1], id)
  }

  /** Each input row replaces the kept row with its id, or is appended if there is none. */
  function Merged<T>(kept: seq<Row<T>>, input: seq<Row<T>>): (r: seq<Row<T>>)
    ensures |r| >= |kept|
  {
    if input == [] then kept
    else
      var before, row := Merged(kept, input[..|input| - 1]), input[|input| - 1];
      var at := LastIndex(kept, row.id);
      if at >= 0 then before[at := row] else before + [row]
  }

  lemma {:induction false} MergedIds<T>(kept: seq<Row<T>>, input: seq<Row<T>>)
    ensures forall i | 0 <= i < |kept| :: Merged(kept, input)[i].id == kept[i].id
    ensures forall i | |kept| <= i < |Merged(kept, input)| :: Merged(kept, input)[i].id !in Ids(kept)
  {
    if input != [] {
      MergedIds(kept, input[..|input| - 1]);
    }
  }

  function AfterSet<T>(rows: seq<Row<T>>, input: seq<Row<T>>): seq<Row<T>> {
    Merged(Kept(rows, Ids(input)), input)
  }

  // ---- what the result means ----

  /** The row as the input has it, or as it was. */
  function Latest<T>(row: Row<T>, input: seq<Row<T>>): Row<T> {
    LastWith(input, row.id).UnwrapOr(row)
  }

  function Refreshed<T>(rows: seq<Row<T>>, input: seq<Row<T>>): (r: seq<Row<T>>)
    ensures |r| == |rows|
  {
    seq(|rows|, i requires 0 <= i < |rows| => Latest(rows[i], input))
  }

  /** The input rows with an id outside the set, in input order. */
  function Newcomers<T>(ids: set<string>, input: seq<Row<T>>): (r: seq<Row<T>>)
    ensures forall row | row in r :: row in input && row.id !in ids
  {
    if input == [] then []
    else
      var before, row := Newcomers(ids, input[..|input| - 1]), input[|input| - 1];
      if row.id in ids then before else before + [row]
  }

  lemma KeptIds<T>(rows: seq<Row<T>>, ids: set<string>)
    ensures Ids(Kept(rows, ids)) == Ids(rows) * ids
  {
    if rows == [] {
    } else {
      KeptIds(rows[1..], ids);
      var rest := Kept(rows[1..], ids);
      assert rows == [rows[0]] + rows[1..];
      IdsJoin([rows[0]], rows[1..]);
      if rows[0].id in ids { IdsJoin([rows[0]], rest); }
    }
  }

  lemma IdsJoin<T>(a: seq<Row<T>>, b: seq<Row<T>>)
    ensures Ids(a + b) == Ids(a) + Ids(b)
    ensures |a| == 1 ==> Ids(a) == {a[0].id}
  {
    forall id | id in Ids(a) ensures id in Ids(a + b) {
      var i :| 0 <= i < |a| && a[i].id == id;
      assert (a + b)[i].id == id;
    }
    forall id | id in Ids(b) ensures id in Ids(a + b) {
      var i :| 0 <= i < |b| && b[i].id == id;
      assert (a + b)[|a| + i].id == id;
    }
  }

  lemma {:induction false} KeptDistinct<T>(rows: seq<Row<T>>, ids: set<string>)
    requires DistinctIds(rows)
    ensures DistinctIds(Kept(rows, ids))
  {
    if rows == [] {
    } else {
      var rest := Kept(rows[1..], ids);
      KeptDistinct(rows[1..], ids);
      forall r | r in rest ensures r.id != rows[0].id {
        var j :| 0 <= j < |rows[1..]| && rows[1..][j] == r;
        assert rows[j + 1] == r;
      }
      forall j | 0 <= j < |rest| ensures rest[j].id != rows[0].id { assert rest[j] in rest; }
    }
  }

  lemma {:induction false} LastWithUpdate<T>(rows: seq<Row<T>>, at: nat, row: Row<T>, id: string)
    requires at < |rows| && rows[at].id == row.id
    requires forall j | at < j < |rows| :: rows[j].id != row.id
    ensures LastWith(rows[at := row], id) == if id == row.id then Some(row) else LastWith(rows, id)
  {
    hide Ids;
    var last := |rows| - 1;
    if at < last {
      LastWithUpdate(rows[..last], at, row, id);
      assert rows[at := row][..last] == rows[..last][at := row];
    } else {
      assert rows[at := row][..last] == rows[..last];
    }
  }

  /** Read as a map from ids, the merge is the input laid over the kept rows, repeated ids or not. */
  lemma {:induction false} MergedAsMap<T>(kept: seq<Row<T>>, input: seq<Row<T>>, id: string)
    ensures LastWith(Merged(kept, input), id)
         == if LastWith(input, id).Some? then LastWith(input, id) else LastWith(kept, id)
  {
    if input == [] {
    } else {
      var front, row := input[..|input| - 1], input[|input| - 1];
      var before, at := Merged(kept, front), LastIndex(kept, row.id);
      MergedAsMap(kept, front, id);
      MergedIds(kept, front);
      if at >= 0 {
        forall j | at < j < |before| ensures before[j].id != row.id {
          assert j >= |kept| ==> before[j].id !in Ids(kept);
        }
        LastWithUpdate(before, at, row, id);
      } else {
        assert (before + [row])[..|before|] == before;
      }
    }
  }

  /** After any set, each id maps to the last input row with that id: nothing of the old list remains. */
  lemma AfterSetAsMap<T>(rows: seq<Row<T>>, input: seq<Row<T>>, id: string)
    ensures LastWith(AfterSet(rows, input), id) == LastWith(input, id)
  {
    MergedAsMap(Kept(rows, Ids(input)), input, id);
    KeptIds(rows, Ids(input));
    LastWithFinds(input, id);
    LastWithFinds(Kept(rows, Ids(input)), id);
  }

  lemma RefreshedOneMore<T>(kept: seq<Row<T>>, input: seq<Row<T>>, row: Row<T>)
    requires DistinctIds(kept)
    ensures var at := LastIndex(kept, row.id);
      Refreshed(kept, input + [row])
      == if at >= 0 then Refreshed(kept, input)[at := row] else Refreshed(kept, input)
  {
    var at := LastIndex(kept, row.id);
    assert (input + [row])[..|input|] == input;
    forall i | 0 <= i < |kept| && i != at ensures kept[i].id != row.id { assert kept[i].id in Ids(kept); }
  }

  /** One more input row keeps "survivors, then newcomers" in shape. */
  lemma OneMoreInOrder<T>(kept: seq<Row<T>>, front: seq<Row<T>>, row: Row<T>,
                          survivors: seq<Row<T>>, added: seq<Row<T>>)
    requires |survivors| == |kept|
    requires Merged(kept, front) == survivors + added
    ensures var at := LastIndex(kept, row.id);
      Merged(kept, front + [row])
      == if at >= 0 then survivors[at := row] + added else survivors + (added + [row])
  {
    MergedOneMore(kept, front, row);
    EditFront(survivors, added, LastIndex(kept, row.id), row);
  }

  lemma MergedOneMore<T>(kept: seq<Row<T>>, front: seq<Row<T>>, row: Row<T>)
    ensures var before, at := Merged(kept, front), LastIndex(kept, row.id);
      Merged(kept, front + [row]) == if at >= 0 then before[at := row] else before + [row]
  {
    assert (front + [row])[..|front|] == front;
  }

  lemma NothingToMerge<T>(kept: seq<Row<T>>, ids: set<string>)
    ensures Merged(kept, []) == kept == Refreshed(kept, []) + Newcomers(ids, [])
  {
    assert Refreshed(kept, []) == kept;
  }

  lemma NewcomersOneMore<T>(ids: set<string>, front: seq<Row<T>>, row: Row<T>)
    ensures Newcomers(ids, front + [row])
         == if row.id in ids then Newcomers(ids, front) else Newcomers(ids, front) + [row]
  {
    assert (front + [row])[..|front|] == front;
  }

  lemma {:induction false} MergedInOrder<T>(kept: seq<Row<T>>, input: seq<Row<T>>)
    requires DistinctIds(kept)
    ensures Merged(kept, input) == Refreshed(kept, input) + Newcomers(Ids(kept), input)
  {
    hide Merged, Refreshed, Newcomers, LastIndex, Ids, DistinctIds;
    if input == [] {
      NothingToMerge(kept, Ids(kept));
    } else {
      var front, row := input[..|input| - 1], input[|input| - 1];
      MergedInOrder(kept, front);
      RefreshedOneMore(kept, front, row);
      NewcomersOneMore(Ids(kept), front, row);
      OneMoreInOrder(kept, front, row, Refreshed(kept, front), Newcomers(Ids(kept), front));
      assert input == front + [row];
    }
  }

  lemma {:induction false} NewcomersAgree<T>(ids: set<string>, others: set<string>, input: seq<Row<T>>)
    requires forall i | 0 <= i < |input| :: input[i].id in ids <==> input[i].id in others
    ensures Newcomers(ids, input) == Newcomers(others, input)
  {
    if input != [] {
      NewcomersAgree(ids, others, input[..|input| - 1]);
    }
  }

  /** The survivors in their old order with new data, then the newcomers in input order. */
  lemma SurvivorsThenNewcomers<T>(rows: seq<Row<T>>, input: seq<Row<T>>)
    requires DistinctIds(rows)
    ensures AfterSet(rows, input)
         == Refreshed(Kept(rows, Ids(input)), input) + Newcomers(Ids(rows), input)
  {
    var kept := Kept(rows, Ids(input));
    KeptDistinct(rows, Ids(input));
    KeptIds(rows, Ids(input));
    MergedInOrder(kept, input);
    forall i | 0 <= i < |input| ensures input[i].id in Ids(kept) <==> input[i].id in Ids(rows) {
      assert input[i].id in Ids(input);
    }
    NewcomersAgree(Ids(kept), Ids(rows), input);
  }

  lemma {:induction false} NewcomersDistinct<T>(ids: set<string>, input: seq<Row<T>>)
    requires DistinctIds(input)
    ensures DistinctIds(Newcomers(ids, input))
  {
    if input != [] {
      var last := |input| - 1;
      var before := Newcomers(ids, input[..last]);
      NewcomersDistinct(ids, input[..last]);
      forall i | 0 <= i < |before| ensures before[i].id != input[last].id {
        assert before[i] in input[..last];
      }
    }
  }

  lemma {:induction false} DistinctRowsOccurOnce<T>(rows: seq<Row<T>>, row: Row<T>)
    requires DistinctIds(rows)
    ensures LastWith(rows, row.id) == Some(row) <==> row in rows
    ensures multiset(rows)[row] == if row in rows then 1 else 0
  {
    if rows != [] {
      var last := |rows| - 1;
      DistinctRowsOccurOnce(rows[..last], row);
      assert rows == rows[..last] + [rows[last]];
      if rows[last].id == row.id {
        assert forall i | 0 <= i < last :: rows[i].id != row.id;
      }
    }
  }

  /** With distinct ids on both sides the new rows are a permutation of the input, ids still distinct. */
  lemma AfterSetIsPermutation<T(!new)>(rows: seq<Row<T>>, input: seq<Row<T>>)
    requires DistinctIds(rows) && DistinctIds(input)
    ensures DistinctIds(AfterSet(rows, input))
    ensures multiset(AfterSet(rows, input)) == multiset(input)
  {
    hide LastWith, Kept, Merged, Newcomers;
    var kept, r := Kept(rows, Ids(input)), AfterSet(rows, input);
    SurvivorsThenNewcomers(rows, input);
    MergedIds(kept, input);
    KeptDistinct(rows, Ids(input));
    NewcomersDistinct(Ids(rows), input);
    forall i, j | 0 <= i < |kept| <= j < |r| ensures r[i].id != r[j].id {
      assert kept[i].id in Ids(kept) && r[i].id == kept[i].id;
    }
    assert forall j | |kept| <= j < |r| :: r[j] == Newcomers(Ids(rows), input)[j - |kept|];
    forall row: Row<T> ensures multiset(r)[row] == multiset(input)[row] {
      AfterSetAsMap(rows, input, row.id);
      DistinctRowsOccurOnce(r, row);
      DistinctRowsOccurOnce(input, row);
    }
  }

  /** The backward loop before its first turn and after its last. */
  lemma KeptEnds<T>(rows: seq<Row<T>>, ids: set<string>)
    ensures rows == rows[..|rows|] + Kept(rows[|rows|..], ids)
    ensures rows[..0] + Kept(rows[0..], ids) == Kept(rows, ids)
  {
    assert rows[|rows|..] == [] && rows[0..] == rows;
  }

  /** One turn of the backward loop. */
  lemma KeptOneMore<T>(rows: seq<Row<T>>, i: nat, ids: set<string>)
    requires i < |rows|
    ensures rows[..i + 1] == rows[..i] + [rows[i]]
    ensures Kept(rows[i..], ids) == (if rows[i].id in ids then [rows[i]] else []) + Kept(rows[i + 1..], ids)
  {
    assert rows[i..][1..] == rows[i + 1..];
  }

  // ---- the model object ----

  /** A list model with the signals it has emitted.  Valid: a view that was created with the model
      and follows the signals shows exactly the rows. */
  class RowModel<T> {
    var rows: seq<Row<T>>
    var signals: seq<Signal<T>>

    ghost predicate Valid()
      reads this
    {
      Replay([], signals) == rows
    }

    constructor ()
      ensures Valid() && rows == [] && signals == []
    {
      rows, signals := [], [];
    }

    method Tell(signal: Signal<T>)
      requires Shown(Replay([], signals), signal) == rows
      modifies this`signals
      ensures Valid() && signals == old(signals) + [signal]
    {
      assert (signals + [signal])[..|signals|] == signals;
      signals := signals + [signal];
    }

    method RemoveAt(i: nat)
      requires Valid() && i < |rows|
      modifies this
      ensures Valid() && signals == old(signals) + [Removed(i)]
      ensures rows == old(rows[..i] + rows[i + 1..])
    {
      rows := rows[..i] + rows[i + 1..];
      Tell(Removed(i));
    }

    method Replace(i: nat, row: Row<T>)
      requires Valid() && i < |rows|
      modifies this
      ensures Valid() && signals == old(signals) + [Changed(i, row)]
      ensures rows == old(rows)[i := row]
    {
      rows := rows[i := row];
      Tell(Changed(i, row));
    }

    method Append(row: Row<T>)
      requires Valid()
      modifies this
      ensures Valid() && signals == old(signals) + [Inserted(|old(rows)|, row)]
      ensures rows == old(rows) + [row]
    {
      rows := rows + [row];
      Tell(Inserted(|rows| - 1, row));
    }

    /** The backward loop that takes out every row the input no longer has. */
    method RemoveMissing(ids: set<string>)
      requires Valid()
      modifies this
      ensures Valid() && old(signals) <= signals
      ensures rows == Kept(old(rows), ids)
      ensures |signals| - |old(signals)| == |old(rows)| - |rows|
      ensures forall k | |old(signals)| <= k < |signals| :: signals[k].Removed?
    {
      hide Kept, Replay;
      ghost var before := rows;
      var i := |rows|;
      KeptEnds(before, ids);
      while i > 0
        invariant 0 <= i <= |before|
        invariant rows == before[..i] + Kept(before[i..], ids)
        invariant Valid() && old(signals) <= signals
        invariant |signals| - |old(signals)| == |before| - |rows|
        invariant forall k | |old(signals)| <= k < |signals| :: signals[k].Removed?
      {
        i := i - 1;
        KeptOneMore(before, i, ids);
        TakeOut(before[..i], before[i], Kept(before[i + 1..], ids));
        if rows[i].id !in ids {
          RemoveAt(i);
        }
      }
    }

    /** Where each id sits; a repeated id gets its last position. */
    method Positions() returns (at: map<string, nat>)
      ensures forall id :: id in at <==> id in Ids(rows)
      ensures forall id | id in at :: at[id] == LastIndex(rows, id)
    {
      at := map[];
      for i := 0 to |rows|
        invariant forall id :: id in at <==> id in Ids(rows[..i])
        invariant forall id | id in at :: at[id] == LastIndex(rows[..i], id)
      {
        assert rows[..i + 1][..i] == rows[..i];
        IdsOfPrefix(rows[..i + 1]);
        at := at[rows[i].id := i];
      }
      assert rows[..|rows|] == rows;
    }

    method Merge(input: seq<Row<T>>)
      requires Valid()
      modifies this
      ensures Valid() && old(signals) <= signals
      ensures rows == Merged(old(rows), input)
      ensures |signals| == |old(signals)| + |input|
      ensures forall k | |old(signals)| <= k < |signals| :: signals[k].Changed? || signals[k].Inserted?
    {
      hide Replay, Ids;
      ghost var kept := rows;
      var at := Positions();
      for i := 0 to |input|
        invariant rows == Merged(kept, input[..i])
        invariant Valid() && old(signals) <= signals && |signals| == |old(signals)| + i
        invariant forall k | |old(signals)| <= k < |signals| :: signals[k].Changed? || signals[k].Inserted?
      {
        assert input[..i + 1][..i] == input[..i];
        var row := input[i];
        if row.id in at {
          Replace(at[row.id], row);
        } else {
          Append(row);
        }
      }
      assert input[..|input|] == input;
    }

    /** setWorkspaces and setTasks: one removal for each row that is gone, one change or insertion for each input
        row, so that a row that stays is never removed, and the count. */
    method SetRows(input: seq<Row<T>>)
      requires Valid()
      modifies this
      ensures Valid() && old(signals) < signals
      ensures rows == AfterSet(old(rows), input)
      ensures var gone := |old(rows)| - |Kept(old(rows), Ids(input))|; var start := |old(signals)|;
        && |signals| == start + gone + |input| + 1 && signals[|signals| - 1] == CountChanged
        && (forall k | start <= k < start + gone :: signals[k].Removed?)
        && (forall k | start + gone <= k < start + gone + |input| :: signals[k].Changed? || signals[k].Inserted?)
    {
      RemoveMissing(Ids(input));
      Merge(input);
      Tell(CountChanged);
    }

    /** updateWorkspace and updateTask: the first row with the id is replaced. */
    method UpdateRow(row: Row<T>)
      requires Valid()
      modifies this
      ensures Valid() && old(signals) < signals
      ensures row.id !in Ids(old(rows)) ==>
        rows == old(rows) + [row] && signals == old(signals) + [Inserted(|old(rows)|, row), CountChanged]
      ensures row.id in Ids(old(rows)) ==>
        exists i :: 0 <= i < |old(rows)| && old(rows)[i].id == row.id && rows == old(rows)[i := row]
                 && signals == old(signals) + [Changed(i, row)]
                 && forall j | 0 <= j < i :: old(rows)[j].id != row.id
    {
      for i := 0 to |rows|
        invariant forall j | 0 <= j < i :: rows[j].id != row.id
        invariant rows == old(rows) && Valid() && signals == old(signals)
      {
        if rows[i].id == row.id {
          Replace(i, row);
          assert old(rows)[i].id in Ids(old(rows));
          return;
        }
      }
      Append(row);
      Tell(CountChanged);
    }

    method Clear()
      requires Valid()
      modifies this
      ensures Valid() && rows == []
      ensures signals == old(signals) + if old(rows) == [] then [] else [Reset, CountChanged]
    {
      if rows == [] { return; }
      rows := [];
      Tell(Reset);
      Tell(CountChanged);
    }
  }

  /** A view that copied the rows when the model had sent only the first signals, and follows the
      rest, shows the rows as well. */
  lemma LateViewAgrees<T>(earlier: seq<Signal<T>>, signals: seq<Signal<T>>)
    requires earlier <= signals
    ensures Replay(Replay([], earlier), signals[|earlier|..]) == Replay([], signals)
  {
    ReplayJoin([], earlier, signals[|earlier|..]);
    assert signals == earlier + signals[|earlier|..];
  }
}
