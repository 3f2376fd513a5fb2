/** Duplicate suppression: a pruned map of recent deliveries decides as the whole history would. */
module Notifications {
  import opened Wrappers

  /** One notify call that found notifications enabled: the text, the clock as first read, and the
      clock as the cleanup then reads it, in milliseconds. */
  datatype Call = Call(title: string, message: string, now: int, cleanupNow: int)

  function Key(c: Call): string {
    c.title + "\n" + c.message
  }

  datatype Delivery = Delivery(key: string, at: int)

  // ---- the map ----

  /** The entries younger than the window. */
  function Pruned(recent: map<string, int>, now: int, window: int): map<string, int> {
    map k | k in recent && now - recent[k] < window :: recent[k]
  }

  datatype State = State(recent: map<string, int>, delivered: seq<Delivery>)

  predicate Drops(s: State, c: Call, window: int) {
    var kept := Pruned(s.recent, c.cleanupNow, window);
    Key(c) in kept && c.now - kept[Key(c)] < window
  }

  function Step(s: State, c: Call, window: int): State {
    var kept := Pruned(s.recent, c.cleanupNow, window);
    if Drops(s, c, window) then State(kept, s.delivered)
    else State(kept[Key(c) := c.now], s.delivered + [Delivery(Key(c), c.now)])
  }

  function After(run: seq<Call>, window: int): State {
    if run == [] then State(map[], [])
    else Step(After(run[..|run| - 1], window), run[|run| - 1], window)
  }

  // ---- the full history ----

  function LastDelivery(delivered: seq<Delivery>, key: string): Option<int> {
    if delivered == [] then None
    else if delivered[|delivered| - 1].key == key then Some(delivered[|delivered| - 1].at)
    else LastDelivery(delivered[..|delivered| - 1], key)
  }

  /** The rule with nothing forgotten. */
  predicate TooSoon(delivered: seq<Delivery>, c: Call, window: int) {
    var last := LastDelivery(delivered, Key(c));
    last.Some? && c.cleanupNow - last.value < window
  }

  function Deliveries(run: seq<Call>, window: int): seq<Delivery> {
    if run == [] then []
    else
      var before, c := Deliveries(run[..|run| - 1], window), run[|run| - 1];
      if TooSoon(before, c, window) then before else before + [Delivery(Key(c), c.now)]
  }

  // ---- when they agree, whatever the clock does ----

  lemma LastDeliveryAppended(delivered: seq<Delivery>, d: Delivery, key: string)
    ensures LastDelivery(delivered + [d], key) == if d.key == key then Some(d.at) else LastDelivery(delivered, key)
  {
    assert (delivered + [d])[..|delivered|] == delivered;
  }

  /** Some cleanup since the key's last delivery has read a clock at least the window after it. */
  predicate Forgotten(run: seq<Call>, key: string, window: int) {
    run != [] &&
    var front, c := run[..|run| - 1], run[|run| - 1];
    var s := After(front, window);
    if Key(c) == key && !Drops(s, c, window) then false
    else
      var last := LastDelivery(s.delivered, key);
      Forgotten(front, key, window) || (last.Some? && c.cleanupNow - last.value >= window)
  }

  /** After any run the map holds exactly the last deliveries that are not forgotten. */
  ghost predicate HoldsUnforgotten(s: State, key: string, forgotten: bool) {
    var last := LastDelivery(s.delivered, key);
    && (key in s.recent <==> last.Some? && !forgotten)
    && (key in s.recent ==> last == Some(s.recent[key]))
  }

  lemma {:induction false} MapHoldsTheUnforgotten(run: seq<Call>, key: string, window: int)
    ensures HoldsUnforgotten(After(run, window), key, Forgotten(run, key, window))
  {
    if run != [] {
      var front, c := run[..|run| - 1], run[|run| - 1];
      MapHoldsTheUnforgotten(front, key, window);
      LastDeliveryAppended(After(front, window).delivered, Delivery(Key(c), c.now), key);
    }
  }

  /** After any run, with any readings of the clock, the pruned map and the history decide alike iff a call
      that the history would drop was not forgotten and its own first reading is within the window too. */
  lemma PrunedMapDecidesIff(run: seq<Call>, c: Call, window: int)
    ensures
      var s := After(run, window);
      (Drops(s, c, window) <==> TooSoon(s.delivered, c, window))
      <==> (TooSoon(s.delivered, c, window) ==>
              && !Forgotten(run, Key(c), window)
              && c.now - LastDelivery(s.delivered, Key(c)).value < window)
  {
    MapHoldsTheUnforgotten(run, Key(c), window);
  }

  /** The failing runs: a delivery, another call that forgets it, and a clock set back: the map lets through
      what the history would drop. */
  lemma BackwardClockForgets(a: Call, b: Call, c: Call, window: int)
    requires Key(a) == Key(c) != Key(b)
    requires c.cleanupNow - a.now < window <= b.cleanupNow - a.now
    ensures var s := After([a, b], window);
      TooSoon(s.delivered, c, window) && !Drops(s, c, window)
  {
    assert [a, b][..1] == [a] && [a][..0] == [];
    assert After([a][..0], window) == State(map[], []);
    var one := After([a], window);
    assert one.delivered == [Delivery(Key(a), a.now)];
    LastDeliveryAppended(one.delivered, Delivery(Key(b), b.now), Key(a));
    PrunedMapDecidesIff([a, b], c, window);
    assert Forgotten([a, b], Key(a), window);
  }

  /** For instance with the default window, from 0 forward to 5000 and back to 1000. */
  lemma ClockSetBack()
    ensures
      var s := After([Call("a", "", 0, 0), Call("b", "", 5000, 5000)], 5000);
      var c := Call("a", "", 1000, 1000);
      TooSoon(s.delivered, c, 5000) && !Drops(s, c, 5000)
  {
    var a, b, c := Call("a", "", 0, 0), Call("b", "", 5000, 5000), Call("a", "", 1000, 1000);
    assert Key(a) == "a\n" && Key(b) == "b\n";
    assert Key(a)[0] != Key(b)[0];
    BackwardClockForgets(a, b, c, 5000);
  }

  // ---- when the clock goes forward ----

  /** The clock never goes back, within a call or between calls. */
  ghost predicate ClockGoesForward(run: seq<Call>) {
    && (forall i | 0 <= i < |run| :: run[i].now <= run[i].cleanupNow)
    && (forall i, j | 0 <= i < j < |run| :: run[i].cleanupNow <= run[j].now)
  }

  lemma {:induction false} ForgottenIsOld(run: seq<Call>, key: string, window: int, clock: int)
    requires ClockGoesForward(run) && forall i | 0 <= i < |run| :: run[i].cleanupNow <= clock
    ensures Forgotten(run, key, window) ==>
      var last := LastDelivery(After(run, window).delivered, key);
      last.Some? && clock - last.value >= window
    ensures After(run, window).delivered == Deliveries(run, window)
  {
    if run != [] {
      var front, c := run[..|run| - 1], run[|run| - 1];
      ForgottenIsOld(front, key, window, c.now);
      ForgottenIsOld(front, Key(c), window, c.now);
      PrunedMapDecidesIff(front, c, window);
      LastDeliveryAppended(After(front, window).delivered, Delivery(Key(c), c.now), key);
    }
  }

  /** Over every run with a forward clock: a call is dropped iff its title and message were last
      delivered less than the window before the cleanup's reading of the clock. */
  lemma PrunedMapDecidesAsHistory(run: seq<Call>, c: Call, window: int)
    requires ClockGoesForward(run + [c])
    ensures After(run, window).delivered == Deliveries(run, window)
    ensures Drops(After(run, window), c, window) <==> TooSoon(Deliveries(run, window), c, window)
  {
    assert forall i | 0 <= i < |run| :: (run + [c])[i] == run[i];
    assert (run + [c])[|run|] == c;
    ForgottenIsOld(run, Key(c), window, c.now);
    PrunedMapDecidesIff(run, c, window);
  }

  // ---- the key ----

  /** The key tells titles and messages apart as long as no title breaks a line. */
  lemma KeysTellApart(a: Call, b: Call)
    requires Key(a) == Key(b) && '\n' !in a.title && '\n' !in b.title
    ensures a.title == b.title && a.message == b.message
  {
    SplitAtBreak(a.title, a.message, b.title, b.message);
  }

  lemma SplitAtBreak(t: string, m: string, u: string, n: string)
    requires t + "\n" + m == u + "\n" + n && '\n' !in t && '\n' !in u
    ensures t == u && m == n
  {
    var s := t + "\n" + m;
    assert s[|t|] == '\n' && s[|u|] == '\n';
    assert t == s[..|t|] && u == s[..|u|];
    assert forall i | 0 <= i < |t| :: t[i] == s[i];
    assert forall i | 0 <= i < |u| :: u[i] == s[i];
    assert forall i | 0 <= i < |t| :: t[i] in t;
    assert forall i | 0 <= i < |u| :: u[i] in u;
    assert |t| == |u|;
    assert m == s[|t| + 1..] && n == s[|u| + 1..];
  }

  /** Another notification that has the same key. */
  ghost predicate SharesItsKey(a: Call) {
    exists title, message ::
      title + "\n" + message == Key(a) && (title != a.title || message != a.message)
  }

  /** A notification can be suppressed by a different one iff there is a line break in its title or in
      its message. */
  lemma SharesItsKeyIff(a: Call)
    ensures SharesItsKey(a) <==> '\n' in a.title || '\n' in a.message
  {
    if i :| 0 <= i < |a.title| && a.title[i] == '\n' {
      BreakInTitle(a, i);
    } else if i :| 0 <= i < |a.message| && a.message[i] == '\n' {
      BreakInMessage(a, i);
    } else {
      forall title, message | title + "\n" + message == Key(a)
        ensures title == a.title && message == a.message
      {
        OneBreak(title, message, a.title, a.message);
      }
    }
  }

  lemma BreakInTitle(a: Call, i: nat)
    requires i < |a.title| && a.title[i] == '\n'
    ensures SharesItsKey(a)
  {
    var title, rest := a.title[..i], a.title[i + 1..];
    assert a.title == title + "\n" + rest;
    assert title + "\n" + (rest + "\n" + a.message) == Key(a);
    assert |title| != |a.title|;
  }

  lemma BreakInMessage(a: Call, i: nat)
    requires i < |a.message| && a.message[i] == '\n'
    ensures SharesItsKey(a)
  {
    var front, message := a.message[..i], a.message[i + 1..];
    assert a.message == front + "\n" + message;
    var title := a.title + "\n" + front;
    assert title + "\n" + message == Key(a);
    assert |title| != |a.title|;
  }

  lemma OneBreak(t: string, m: string, u: string, n: string)
    requires t + "\n" + m == u + "\n" + n && '\n' !in u && '\n' !in n
    ensures t == u && m == n
  {
    var s := u + "\n" + n;
    assert s[|t|] == '\n' by { assert (t + "\n" + m)[|t|] == '\n'; }
    assert forall i | 0 <= i < |u| :: s[i] == u[i] && u[i] in u;
    assert forall i | |u| < i < |s| :: s[i] == n[i - |u| - 1] && n[i - |u| - 1] in n;
    assert |t| == |u|;
    assert t == s[..|t|] && m == s[|t| + 1..] && n == s[|t| + 1..];
  }

  // ---- the object ----

  class NotificationManager {
    var enabled: bool
    var suppressMs: int
    var recent: map<string, int>
    var hasTray: bool
    var lastCategory: string
    var shown: seq<(string, string)>
    ghost var delivered: seq<Delivery>

    ghost function Contents(): State
      reads this
    {
      State(recent, delivered)
    }

    constructor (window: int)
      ensures enabled && suppressMs == window && shown == [] && Contents() == After([], window)
    {
      enabled, suppressMs, recent, hasTray, lastCategory, shown := true, window, map[], false, "", [];
      delivered := [];
    }

    /** The loop that erases while it walks the map, in whatever order the map is walked. */
    method CleanupRecent(now: int)
      modifies this`recent
      ensures recent == Pruned(old(recent), now, suppressMs)
    {
      var todo := recent.Keys;
      while todo != {}
        invariant todo <= old(recent).Keys
        invariant forall k :: k in recent <==> k in old(recent) && (k in todo || now - old(recent)[k] < suppressMs)
        invariant forall k | k in recent :: recent[k] == old(recent)[k]
        decreases |todo|
      {
        var key :| key in todo;
        todo := todo - {key};
        if now - recent[key] >= suppressMs {
          recent := recent - {key};
        }
      }
    }

    /** A call that gets through counts as delivered even with no tray icon to show it. */
    method Notify(c: Call, category: string)
      modifies this
      ensures enabled == old(enabled) && suppressMs == old(suppressMs) && hasTray == old(hasTray)
      ensures Contents() == if enabled then Step(old(Contents()), c, suppressMs) else old(Contents())
      ensures var sends := enabled && !Drops(old(Contents()), c, suppressMs);
        && shown == old(shown) + (if sends && hasTray then [(c.title, c.message)] else [])
        && lastCategory == if sends then category else old(lastCategory)
    {
      if !enabled { return; }
      var key := c.title + "\n" + c.message;
      CleanupRecent(c.cleanupNow);
      if key in recent {
        var last := recent[key];
        if c.now - last < suppressMs { return; }
      }
      recent := recent[key := c.now];
      delivered := delivered + [Delivery(key, c.now)];
      lastCategory := category;
      if hasTray {
        shown := shown + [(c.title, c.message)];
      }
    }
  }
}
